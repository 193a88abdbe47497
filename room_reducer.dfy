/** What each handler of the room view model does, as functions on a
    `Machine`: the published view state, the participant roster, the queue of
    one-shot view effects and the calls made on the collaborators. The class in
    module ViewModel is proved to follow these functions step by step. */
module RoomReducer {
  import opened RoomTypes
  import Roster

  /** The code this model does not see, as functions: how the roster derives
      its thumbnail list and primary participant, and how a participant record
      is built for a remote and for the local participant. */
  datatype Env = Env(
    thumbnailsOf: Roster.Records -> Roster.Records,
    primaryOf: Roster.Records -> Option<ParticipantViewState>,
    buildParticipant: Participant -> ParticipantViewState,
    buildLocalParticipant: (Participant, string) -> ParticipantViewState)

  datatype Machine = Machine(
    state: RoomViewState,
    roster: Roster.Records,
    effects: seq<RoomViewEffect>,
    calls: seq<Call>)

  /** The three layouts of the room lifecycle. */
  datatype Layout = LobbyLayout | ConnectingLayout | ConnectedLayout

  /** Exactly the layout `l` is visible. */
  predicate Shows(s: RoomViewState, l: Layout)
  {
    s.isLobbyLayoutVisible == (l == LobbyLayout) &&
    s.isConnectingLayoutVisible == (l == ConnectingLayout) &&
    s.isConnectedLayoutVisible == (l == ConnectedLayout)
  }

  predicate ExactlyOneLayout(s: RoomViewState)
  {
    (if s.isLobbyLayoutVisible then 1 else 0) +
    (if s.isConnectingLayoutVisible then 1 else 0) +
    (if s.isConnectedLayoutVisible then 1 else 0) == 1
  }

  /** `t` differs from `s` at most in the three layout flags and the title. */
  predicate SameExceptLayout(s: RoomViewState, t: RoomViewState)
  {
    t.(isLobbyLayoutVisible := s.isLobbyLayoutVisible,
       isConnectingLayoutVisible := s.isConnectingLayoutVisible,
       isConnectedLayoutVisible := s.isConnectedLayoutVisible,
       title := s.title) == s
  }

  /** `t` differs from `s` at most in the thumbnail list and the primary participant. */
  predicate SameExceptParticipants(s: RoomViewState, t: RoomViewState)
  {
    t.(participantThumbnails := s.participantThumbnails,
       primaryParticipant := s.primaryParticipant) == s
  }

  /** `t` differs from `s` at most in the two audio-device fields. */
  predicate SameExceptAudio(s: RoomViewState, t: RoomViewState)
  {
    t.(selectedDevice := s.selectedDevice, availableAudioDevices := s.availableAudioDevices) == s
  }

  /** Every layout change makes exactly one layout visible and touches no other field. */
  function ShowLayout(s: RoomViewState, l: Layout): (t: RoomViewState)
    ensures Shows(t, l) && ExactlyOneLayout(t)
    ensures SameExceptLayout(s, t) && t.title == s.title
  {
    s.(isLobbyLayoutVisible := l == LobbyLayout,
       isConnectingLayoutVisible := l == ConnectingLayout,
       isConnectedLayoutVisible := l == ConnectedLayout)
  }

  /** showLobbyViewState: queue Disconnected, show the lobby, clear the roster. */
  function ShowLobby(m: Machine): (m': Machine)
    ensures Shows(m'.state, LobbyLayout) && m'.roster == []
    ensures SameExceptLayout(m.state, m'.state) && m'.state.title == m.state.title
    ensures m'.effects == m.effects + [RoomViewEffect.Disconnected] && m'.calls == m.calls
  {
    Machine(ShowLayout(m.state, LobbyLayout), [], m.effects + [RoomViewEffect.Disconnected], m.calls)
  }

  /** showConnectingViewState: queue Connecting and show the connecting layout. */
  function ShowConnecting(m: Machine): (m': Machine)
    ensures Shows(m'.state, ConnectingLayout) && SameExceptLayout(m.state, m'.state)
    ensures m'.state.title == m.state.title && m'.roster == m.roster
    ensures m'.effects == m.effects + [RoomViewEffect.Connecting] && m'.calls == m.calls
  {
    m.(state := ShowLayout(m.state, ConnectingLayout),
       effects := m.effects + [RoomViewEffect.Connecting])
  }

  /** showConnectedViewState: set the title and show the connected layout. */
  function ShowConnected(m: Machine, roomName: string): (m': Machine)
    ensures Shows(m'.state, ConnectedLayout) && m'.state.title == roomName
    ensures SameExceptLayout(m.state, m'.state)
    ensures m'.roster == m.roster && m'.effects == m.effects && m'.calls == m.calls
  {
    m.(state := ShowLayout(m.state, ConnectedLayout).(title := roomName))
  }

  /** updateParticipantViewState: republish thumbnails and primary from the roster. */
  function Refresh(env: Env, m: Machine): (m': Machine)
    ensures SameExceptParticipants(m.state, m'.state)
    ensures m'.state.participantThumbnails == Some(env.thumbnailsOf(m.roster))
    ensures m'.state.primaryParticipant == env.primaryOf(m.roster)
    ensures m'.roster == m.roster && m'.effects == m.effects && m'.calls == m.calls
  {
    m.(state := m.state.(participantThumbnails := Some(env.thumbnailsOf(m.roster)),
                         primaryParticipant := env.primaryOf(m.roster)))
  }

  /** One roster operation followed by the recomputation of the derived fields. */
  function UpdateRoster(env: Env, m: Machine, op: Roster.RosterOp): Machine
  {
    Refresh(env, m.(roster := Roster.Apply(m.roster, op)))
  }

  /** The record built for the participant at `index` of a Connected event:
      the first is the local participant, labelled with its own identity. */
  function BuildAt(env: Env, participants: seq<Participant>, index: nat): ParticipantViewState
    requires index < |participants|
  {
    var p := participants[index];
    if index == 0 then env.buildLocalParticipant(p, p.identity) else env.buildParticipant(p)
  }

  function Built(env: Env, participants: seq<Participant>): (r: Roster.Records)
    ensures |r| == |participants|
    ensures |r| > 0 ==> r[0] == env.buildLocalParticipant(participants[0], participants[0].identity)
    ensures forall i :: 0 < i < |r| ==> r[i] == env.buildParticipant(participants[i])
  {
    seq(|participants|, i requires 0 <= i < |participants| => BuildAt(env, participants, i))
  }

  /** checkParticipants: add every participant in list order, then refresh. */
  function CheckParticipants(env: Env, m: Machine, participants: seq<Participant>): (m': Machine)
    ensures m'.roster == Roster.AddAll(m.roster, Built(env, participants))
    ensures SameExceptParticipants(m.state, m'.state)
    ensures m'.state.participantThumbnails == Some(env.thumbnailsOf(m'.roster))
    ensures m'.state.primaryParticipant == env.primaryOf(m'.roster)
    ensures m'.effects == m.effects && m'.calls == m.calls
  {
    Refresh(env, m.(roster := Roster.AddAll(m.roster, Built(env, participants))))
  }

  /** The view of an optional engine track (`track?.let { VideoTrackViewState(it) }`). */
  function TrackView(t: Option<VideoTrack>): (v: Option<VideoTrackViewState>)
    ensures v.Some? <==> t.Some?
    ensures v.Some? ==> v.value.videoTrack == t.value && !v.value.isSwitchedOff
  {
    match t
    case None => None
    case Some(track) => Some(VideoTrackViewState(track, false))
  }

  /** handleParticipantEvent */
  function OnParticipantEvent(env: Env, m: Machine, e: ParticipantEvent): (m': Machine)
    ensures SameExceptParticipants(m.state, m'.state)
    ensures m'.state.participantThumbnails == Some(env.thumbnailsOf(m'.roster))
    ensures m'.state.primaryParticipant == env.primaryOf(m'.roster)
    ensures m'.effects == m.effects && m'.calls == m.calls
  {
    match e
    case ParticipantConnected(p) =>
      UpdateRoster(env, m, Roster.AddParticipant(env.buildParticipant(p)))
    case VideoTrackUpdated(sid, t) =>
      UpdateRoster(env, m, Roster.UpdateParticipant(sid, Roster.SetVideoTrack(TrackView(t))))
    case TrackSwitchOff(sid, t, off) =>
      UpdateRoster(env, m, Roster.UpdateParticipant(sid, Roster.SetVideoTrack(Some(VideoTrackViewState(t, off)))))
    case ScreenTrackUpdated(sid, t) =>
      UpdateRoster(env, m, Roster.UpdateParticipant(sid, Roster.SetScreenTrack(TrackView(t))))
    case MuteParticipant(sid, mute) =>
      UpdateRoster(env, m, Roster.UpdateParticipant(sid, Roster.SetMuted(mute)))
    case NetworkQualityLevelChange(sid, level) =>
      UpdateRoster(env, m, Roster.UpdateParticipant(sid, Roster.SetNetworkQuality(level)))
    case ParticipantDisconnected(sid) =>
      UpdateRoster(env, m, Roster.RemoveParticipant(sid))
  }

  /** observeRoomEvents. Room events never call a collaborator and never break
      the one-visible-layout invariant. */
  function OnRoomEvent(env: Env, m: Machine, e: RoomEvent): (m': Machine)
    ensures m'.calls == m.calls
    ensures ExactlyOneLayout(m.state) ==> ExactlyOneLayout(m'.state)
  {
    match e
    case Connecting => ShowConnecting(m)
    case Connected(roomName, participants, room) =>
      var m1 := CheckParticipants(env, ShowConnected(m, roomName), participants);
      m1.(effects := m1.effects + [RoomViewEffect.Connected(room)])
    case Disconnected =>
      var m1 := ShowLobby(m);
      m1.(state := m1.state.(participantThumbnails := None, primaryParticipant := None))
    case DominantSpeakerChanged(sid) =>
      UpdateRoster(env, m, Roster.ChangeDominantSpeaker(sid))
    case ConnectFailure =>
      var m1 := ShowLobby(m);
      m1.(effects := m1.effects + [ShowConnectFailureDialog])
    case MaxParticipantFailure =>
      ShowLobby(m.(effects := m.effects + [ShowMaxParticipantFailureDialog]))
    case TokenError(serviceError) =>
      var m1 := ShowLobby(m);
      m1.(effects := m1.effects + [ShowTokenErrorDialog(serviceError)])
    case ParticipantEvent(pe) => OnParticipantEvent(env, m, pe)
  }

  /** The room events of a channel, applied one at a time in channel order. */
  function AfterEvents(env: Env, m: Machine, events: seq<RoomEvent>): (m': Machine)
    ensures m'.calls == m.calls
    ensures ExactlyOneLayout(m.state) ==> ExactlyOneLayout(m'.state)
  {
    if events == [] then m
    else OnRoomEvent(env, AfterEvents(env, m, events[..|events| - 1]), events[|events| - 1])
  }

  /** checkLocalMedia, given the two permission answers. */
  function CheckLocalMedia(m: Machine, isCameraEnabled: bool, isMicEnabled: bool): (m': Machine)
    ensures m'.state.isCameraEnabled == isCameraEnabled && m'.state.isMicEnabled == isMicEnabled
    ensures m'.state.(isCameraEnabled := m.state.isCameraEnabled, isMicEnabled := m.state.isMicEnabled) == m.state
    ensures m'.effects == m.effects + [RoomViewEffect.CheckLocalMedia] <==> isCameraEnabled && isMicEnabled
    ensures !(isCameraEnabled && isMicEnabled) ==> m'.effects == m.effects
    ensures m'.roster == m.roster && m'.calls == m.calls
  {
    m.(state := m.state.(isCameraEnabled := isCameraEnabled, isMicEnabled := isMicEnabled),
       effects := if isCameraEnabled && isMicEnabled then m.effects + [RoomViewEffect.CheckLocalMedia] else m.effects)
  }

  /** processInput. `granted` answers the permission queries and `channel` is
      what the room manager's channel delivers before it closes after a Connect. */
  function OnViewEvent(env: Env, m: Machine, e: RoomViewEvent, granted: Permission -> bool,
                       channel: seq<RoomEvent>): (m': Machine)
    ensures ExactlyOneLayout(m.state) ==> ExactlyOneLayout(m'.state)
    ensures m.calls <= m'.calls && |m'.calls| <= |m.calls| + 1
  {
    match e
    case RefreshViewState => m
    case CheckPermissions => CheckLocalMedia(m, granted(Camera), granted(RecordAudio))
    case SelectAudioDevice(device) => m.(calls := m.calls + [AudioSelectDevice(device)])
    case ActivateAudioDevice => m.(calls := m.calls + [AudioActivate])
    case DeactivateAudioDevice => m.(calls := m.calls + [AudioDeactivate])
    case Connect(identity, roomName) =>
      AfterEvents(env, m.(calls := m.calls + [RoomConnect(identity, roomName)]), channel)
    case PinParticipant(sid) =>
      UpdateRoster(env, m, Roster.ChangePinnedParticipant(sid))
    case ToggleLocalVideo(sid, track) =>
      UpdateRoster(env, m, Roster.UpdateParticipant(sid, Roster.SetVideoTrack(track)))
    case VideoTrackRemoved(sid) =>
      UpdateRoster(env, m, Roster.UpdateParticipant(sid, Roster.SetVideoTrack(None)))
    case ScreenTrackRemoved(sid) =>
      UpdateRoster(env, m, Roster.UpdateParticipant(sid, Roster.SetScreenTrack(None)))
    case Disconnect => m.(calls := m.calls + [RoomDisconnect])
  }

  /** The audio switch's listener: a new device list and selection. */
  function OnAudioDevices(m: Machine, devices: seq<AudioDevice>, selected: Option<AudioDevice>): (m': Machine)
    ensures SameExceptAudio(m.state, m'.state)
    ensures m'.state.selectedDevice == selected && m'.state.availableAudioDevices == devices
    ensures m'.roster == m.roster && m'.effects == m.effects && m'.calls == m.calls
  {
    m.(state := m.state.(selectedDevice := selected, availableAudioDevices := devices))
  }

  /** onCleared */
  function Cleared(m: Machine): (m': Machine)
    ensures m'.calls == m.calls + [AudioStop, RoomShutdown]
    ensures m'.state == m.state && m'.roster == m.roster && m'.effects == m.effects
  {
    m.(calls := m.calls + [AudioStop, RoomShutdown])
  }
}

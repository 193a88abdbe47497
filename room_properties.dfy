/** Properties of the room view model's handlers: the lifecycle transitions,
    which fields each input may change, the invariants every input keeps, and
    the order in which the room channel is consumed. */
module RoomProperties {
  import opened RoomTypes
  import opened RoomReducer
  import Roster

  /** The layout each lifecycle event switches to; other events keep the layout. */
  function LayoutAfter(e: RoomEvent): Option<Layout>
  {
    match e
    case Connecting => Some(ConnectingLayout)
    case Connected(_, _, _) => Some(ConnectedLayout)
    case Disconnected => Some(LobbyLayout)
    case ConnectFailure => Some(LobbyLayout)
    case MaxParticipantFailure => Some(LobbyLayout)
    case TokenError(_) => Some(LobbyLayout)
    case _ => None
  }

  predicate SameLayout(s: RoomViewState, t: RoomViewState)
  {
    s.isLobbyLayoutVisible == t.isLobbyLayoutVisible &&
    s.isConnectingLayoutVisible == t.isConnectingLayoutVisible &&
    s.isConnectedLayoutVisible == t.isConnectedLayoutVisible
  }

  /** Permission flags and audio fields, which no room event touches. */
  predicate SameSettings(s: RoomViewState, t: RoomViewState)
  {
    s.isCameraEnabled == t.isCameraEnabled && s.isMicEnabled == t.isMicEnabled &&
    s.selectedDevice == t.selectedDevice && s.availableAudioDevices == t.availableAudioDevices
  }

  /** The invariants the view model keeps: one visible layout, a roster keyed by sid. */
  predicate Good(m: Machine)
  {
    ExactlyOneLayout(m.state) && Roster.UniqueSids(m.roster)
  }

  /** The published thumbnails and primary participant agree with the roster
      (or there is no room: empty roster and nothing published). */
  predicate InSync(env: Env, m: Machine)
  {
    (m.roster == [] && m.state.participantThumbnails == None && m.state.primaryParticipant == None) ||
    (m.state.participantThumbnails == Some(env.thumbnailsOf(m.roster)) &&
     m.state.primaryParticipant == env.primaryOf(m.roster))
  }

  predicate IsFailure(e: RoomEvent)
  {
    e.ConnectFailure? || e.MaxParticipantFailure? || e.TokenError?
  }

  /** A roster step: exactly `op` on the roster, the derived fields recomputed
      from the new roster, and nothing else in state, effects or calls changed. */
  predicate RosterStep(env: Env, m: Machine, m': Machine, op: Roster.RosterOp)
  {
    m'.roster == Roster.Apply(m.roster, op) &&
    SameExceptParticipants(m.state, m'.state) &&
    m'.state.participantThumbnails == Some(env.thumbnailsOf(m'.roster)) &&
    m'.state.primaryParticipant == env.primaryOf(m'.roster) &&
    m'.effects == m.effects && m'.calls == m.calls
  }

  /** The roster operation a UI intent performs, if any. This table follows the
      dispatch of OnViewEvent; what each update does to the records is stated
      field by field by the input and event lemmas below. */
  function ViewEventOp(e: RoomViewEvent): Option<Roster.RosterOp>
  {
    match e
    case PinParticipant(sid) => Some(Roster.ChangePinnedParticipant(sid))
    case ToggleLocalVideo(sid, t) => Some(Roster.UpdateParticipant(sid, Roster.SetVideoTrack(t)))
    case VideoTrackRemoved(sid) => Some(Roster.UpdateParticipant(sid, Roster.SetVideoTrack(None)))
    case ScreenTrackRemoved(sid) => Some(Roster.UpdateParticipant(sid, Roster.SetScreenTrack(None)))
    case _ => None
  }

  /** The roster operation a room event performs, if any. This table follows
      the dispatch of OnRoomEvent; the event lemmas below state each update
      field by field. */
  function RoomEventOp(env: Env, e: RoomEvent): Option<Roster.RosterOp>
  {
    match e
    case DominantSpeakerChanged(sid) => Some(Roster.ChangeDominantSpeaker(sid))
    case ParticipantEvent(ParticipantConnected(p)) => Some(Roster.AddParticipant(env.buildParticipant(p)))
    case ParticipantEvent(ParticipantDisconnected(sid)) => Some(Roster.RemoveParticipant(sid))
    case ParticipantEvent(VideoTrackUpdated(sid, t)) =>
      Some(Roster.UpdateParticipant(sid, Roster.SetVideoTrack(TrackView(t))))
    case ParticipantEvent(TrackSwitchOff(sid, t, off)) =>
      Some(Roster.UpdateParticipant(sid, Roster.SetVideoTrack(Some(VideoTrackViewState(t, off)))))
    case ParticipantEvent(ScreenTrackUpdated(sid, t)) =>
      Some(Roster.UpdateParticipant(sid, Roster.SetScreenTrack(TrackView(t))))
    case ParticipantEvent(MuteParticipant(sid, mute)) =>
      Some(Roster.UpdateParticipant(sid, Roster.SetMuted(mute)))
    case ParticipantEvent(NetworkQualityLevelChange(sid, level)) =>
      Some(Roster.UpdateParticipant(sid, Roster.SetNetworkQuality(level)))
    case _ => None
  }

  /** The collaborator call an intent only forwards, if any. */
  function ForwardedCall(e: RoomViewEvent): Option<Call>
  {
    match e
    case SelectAudioDevice(device) => Some(AudioSelectDevice(device))
    case ActivateAudioDevice => Some(AudioActivate)
    case DeactivateAudioDevice => Some(AudioDeactivate)
    case Disconnect => Some(RoomDisconnect)
    case _ => None
  }

  /** The effects a session failure queues, in the order the handler issues them. */
  function FailureEffects(e: RoomEvent): seq<RoomViewEffect>
    requires IsFailure(e)
  {
    match e
    case ConnectFailure => [RoomViewEffect.Disconnected, ShowConnectFailureDialog]
    case MaxParticipantFailure => [ShowMaxParticipantFailureDialog, RoomViewEffect.Disconnected]
    case TokenError(err) => [RoomViewEffect.Disconnected, ShowTokenErrorDialog(err)]
  }

  // ---------------------------------------------------------------- lifecycle

  /** Lifecycle events leave exactly their layout visible; all others keep the layout. */
  lemma LifecycleLayout(env: Env, m: Machine, e: RoomEvent)
    ensures var m' := OnRoomEvent(env, m, e);
      match LayoutAfter(e)
      case Some(l) => Shows(m'.state, l) && ExactlyOneLayout(m'.state)
      case None => SameLayout(m.state, m'.state)
  {
  }

  /** Connecting: queue the Connecting effect, show only the connecting layout,
      keep title, roster and everything else. */
  lemma ConnectingEvent(env: Env, m: Machine)
    ensures var m' := OnRoomEvent(env, m, RoomEvent.Connecting);
      Shows(m'.state, ConnectingLayout) && SameExceptLayout(m.state, m'.state) &&
      m'.state.title == m.state.title && m'.roster == m.roster &&
      m'.effects == m.effects + [RoomViewEffect.Connecting] && m'.calls == m.calls
  {
  }

  /** Connected: title and layout set, every participant added in list order,
      derived fields recomputed, the Connected effect queued. */
  lemma ConnectedEvent(env: Env, m: Machine, roomName: string, participants: seq<Participant>, room: RoomHandle)
    ensures var m' := OnRoomEvent(env, m, RoomEvent.Connected(roomName, participants, room));
      Shows(m'.state, ConnectedLayout) && m'.state.title == roomName &&
      SameSettings(m.state, m'.state) &&
      m'.roster == Roster.AddAll(m.roster, Built(env, participants)) &&
      m'.state.participantThumbnails == Some(env.thumbnailsOf(m'.roster)) &&
      m'.state.primaryParticipant == env.primaryOf(m'.roster) &&
      m'.effects == m.effects + [RoomViewEffect.Connected(room)] && m'.calls == m.calls
  {
  }

  /** Seeding an empty roster from a Connected event: the roster is exactly the
      built records in list order, the first built as the local participant. */
  lemma ConnectedSeedsRoster(env: Env, m: Machine, roomName: string, participants: seq<Participant>, room: RoomHandle)
    requires m.roster == [] && Roster.UniqueSids(Built(env, participants))
    ensures var r := OnRoomEvent(env, m, RoomEvent.Connected(roomName, participants, room)).roster;
      |r| == |participants| &&
      (|r| > 0 ==> r[0] == env.buildLocalParticipant(participants[0], participants[0].identity)) &&
      (forall i :: 0 < i < |r| ==> r[i] == env.buildParticipant(participants[i]))
  {
    Roster.AddAllDistinct(Built(env, participants));
  }

  /** Disconnected: lobby shown, roster cleared, thumbnails and primary nulled,
      the Disconnected effect queued. */
  lemma DisconnectedEvent(env: Env, m: Machine)
    ensures var m' := OnRoomEvent(env, m, RoomEvent.Disconnected);
      Shows(m'.state, LobbyLayout) && m'.roster == [] &&
      m'.state.participantThumbnails == None && m'.state.primaryParticipant == None &&
      m'.state.title == m.state.title && SameSettings(m.state, m'.state) &&
      m'.effects == m.effects + [RoomViewEffect.Disconnected] && m'.calls == m.calls
  {
  }

  /** A session failure: lobby shown, roster cleared, the Disconnected effect
      and the failure's dialog queued; the published thumbnails and primary
      participant are left as they were. */
  lemma FailureEvent(env: Env, m: Machine, e: RoomEvent)
    requires IsFailure(e)
    ensures var m' := OnRoomEvent(env, m, e);
      Shows(m'.state, LobbyLayout) && m'.roster == [] &&
      m'.state.participantThumbnails == m.state.participantThumbnails &&
      m'.state.primaryParticipant == m.state.primaryParticipant &&
      SameExceptLayout(m.state, m'.state) && m'.state.title == m.state.title &&
      m'.effects == m.effects + FailureEffects(e) && m'.calls == m.calls
  {
  }

  // ------------------------------------------------------------------ intents

  /** CheckPermissions: the two flags take the permission answers, and
      CheckLocalMedia is queued exactly when both are granted. */
  lemma CheckPermissionsInput(env: Env, m: Machine, granted: Permission -> bool, channel: seq<RoomEvent>)
    ensures var m' := OnViewEvent(env, m, CheckPermissions, granted, channel);
      m'.state.isCameraEnabled == granted(Camera) && m'.state.isMicEnabled == granted(RecordAudio) &&
      m'.state.(isCameraEnabled := m.state.isCameraEnabled, isMicEnabled := m.state.isMicEnabled) == m.state &&
      m'.roster == m.roster && m'.calls == m.calls &&
      (m'.effects == m.effects + [RoomViewEffect.CheckLocalMedia] <==> granted(Camera) && granted(RecordAudio)) &&
      (!(granted(Camera) && granted(RecordAudio)) ==> m'.effects == m.effects)
  {
  }

  /** RefreshViewState republishes the state as it is; the audio intents and
      Disconnect only forward one call to a collaborator. */
  lemma ForwardingInputs(env: Env, m: Machine, e: RoomViewEvent, granted: Permission -> bool, channel: seq<RoomEvent>)
    requires e.RefreshViewState? || ForwardedCall(e).Some?
    ensures var m' := OnViewEvent(env, m, e, granted, channel);
      m'.state == m.state && m'.roster == m.roster && m'.effects == m.effects &&
      m'.calls == m.calls + (if e.RefreshViewState? then [] else [ForwardedCall(e).value])
  {
  }

  /** Pin, local video toggle and track removal intents are one roster step each. */
  lemma RosterInputs(env: Env, m: Machine, e: RoomViewEvent, granted: Permission -> bool, channel: seq<RoomEvent>)
    requires ViewEventOp(e).Some?
    ensures RosterStep(env, m, OnViewEvent(env, m, e, granted, channel), ViewEventOp(e).value)
  {
  }

  /** Dominant-speaker and participant events are one roster step each. */
  lemma RosterEvents(env: Env, m: Machine, e: RoomEvent)
    requires RoomEventOp(env, e).Some?
    ensures RosterStep(env, m, OnRoomEvent(env, m, e), RoomEventOp(env, e).value)
  {
  }

  /** VideoTrackRemoved nulls the video track of that participant and of no one else. */
  lemma VideoTrackRemovedInput(env: Env, m: Machine, sid: Sid, granted: Permission -> bool, channel: seq<RoomEvent>)
    ensures var r := OnViewEvent(env, m, VideoTrackRemoved(sid), granted, channel).roster;
      var before := Roster.AsMap(m.roster);
      Roster.AsMap(r) == if sid in before then before[sid := before[sid].(videoTrack := None)] else before
  {
    Roster.ModifyAsMap(m.roster, sid, Roster.SetVideoTrack(None));
  }

  /** ScreenTrackRemoved nulls the screen track of that participant and of no one else. */
  lemma ScreenTrackRemovedInput(env: Env, m: Machine, sid: Sid, granted: Permission -> bool, channel: seq<RoomEvent>)
    ensures var r := OnViewEvent(env, m, ScreenTrackRemoved(sid), granted, channel).roster;
      var before := Roster.AsMap(m.roster);
      Roster.AsMap(r) == if sid in before then before[sid := before[sid].(screenTrack := None)] else before
  {
    Roster.ModifyAsMap(m.roster, sid, Roster.SetScreenTrack(None));
  }

  /** ToggleLocalVideo sets that participant's video track to the given one and
      changes no other participant and no other field. */
  lemma ToggleLocalVideoInput(env: Env, m: Machine, sid: Sid, t: Option<VideoTrackViewState>,
                              granted: Permission -> bool, channel: seq<RoomEvent>)
    ensures var r := OnViewEvent(env, m, ToggleLocalVideo(sid, t), granted, channel).roster;
      var before := Roster.AsMap(m.roster);
      Roster.AsMap(r) == if sid in before then before[sid := before[sid].(videoTrack := t)] else before
  {
    Roster.ModifyAsMap(m.roster, sid, Roster.SetVideoTrack(t));
  }

  /** VideoTrackUpdated sets that participant's video track to the event's
      track, not switched off, or to none when the event carries none. */
  lemma VideoTrackUpdatedEvent(env: Env, m: Machine, sid: Sid, t: Option<VideoTrack>)
    ensures var r := OnRoomEvent(env, m, ParticipantEvent(VideoTrackUpdated(sid, t))).roster;
      var before := Roster.AsMap(m.roster);
      Roster.AsMap(r) == if sid in before then before[sid := before[sid].(videoTrack := TrackView(t))] else before
  {
    Roster.ModifyAsMap(m.roster, sid, Roster.SetVideoTrack(TrackView(t)));
  }

  /** TrackSwitchOff sets that participant's video track to the event's track
      with the event's switched-off flag. */
  lemma TrackSwitchOffEvent(env: Env, m: Machine, sid: Sid, t: VideoTrack, off: bool)
    ensures var r := OnRoomEvent(env, m, ParticipantEvent(TrackSwitchOff(sid, t, off))).roster;
      var before := Roster.AsMap(m.roster);
      Roster.AsMap(r) ==
        if sid in before then before[sid := before[sid].(videoTrack := Some(VideoTrackViewState(t, off)))] else before
  {
    Roster.ModifyAsMap(m.roster, sid, Roster.SetVideoTrack(Some(VideoTrackViewState(t, off))));
  }

  /** ScreenTrackUpdated sets that participant's screen track to the event's
      track, not switched off, or to none when the event carries none. */
  lemma ScreenTrackUpdatedEvent(env: Env, m: Machine, sid: Sid, t: Option<VideoTrack>)
    ensures var r := OnRoomEvent(env, m, ParticipantEvent(ScreenTrackUpdated(sid, t))).roster;
      var before := Roster.AsMap(m.roster);
      Roster.AsMap(r) == if sid in before then before[sid := before[sid].(screenTrack := TrackView(t))] else before
  {
    Roster.ModifyAsMap(m.roster, sid, Roster.SetScreenTrack(TrackView(t)));
  }

  /** MuteParticipant sets that participant's muted flag to the event's value. */
  lemma MuteParticipantEvent(env: Env, m: Machine, sid: Sid, mute: bool)
    ensures var r := OnRoomEvent(env, m, ParticipantEvent(MuteParticipant(sid, mute))).roster;
      var before := Roster.AsMap(m.roster);
      Roster.AsMap(r) == if sid in before then before[sid := before[sid].(isMuted := mute)] else before
  {
    Roster.ModifyAsMap(m.roster, sid, Roster.SetMuted(mute));
  }

  /** NetworkQualityLevelChange sets that participant's level to the event's level. */
  lemma NetworkQualityEvent(env: Env, m: Machine, sid: Sid, level: NetworkQualityLevel)
    ensures var r := OnRoomEvent(env, m, ParticipantEvent(NetworkQualityLevelChange(sid, level))).roster;
      var before := Roster.AsMap(m.roster);
      Roster.AsMap(r) == if sid in before then before[sid := before[sid].(networkQualityLevel := level)] else before
  {
    Roster.ModifyAsMap(m.roster, sid, Roster.SetNetworkQuality(level));
  }

  /** After a dominant-speaker change exactly the named participant is marked. */
  lemma DominantSpeakerEvent(env: Env, m: Machine, sid: Option<Sid>)
    requires Roster.UniqueSids(m.roster)
    ensures var r := OnRoomEvent(env, m, DominantSpeakerChanged(sid)).roster;
      Roster.AtMostOneDominant(r) &&
      forall i :: 0 <= i < |r| ==> (r[i].isDominantSpeaker <==> Some(r[i].sid) == sid)
  {
    Roster.DominantSpeakerExclusive(m.roster, sid);
  }

  /** A participant that connects and then disconnects leaves the roster as it
      was; the state ends with the derived fields recomputed from that roster. */
  lemma ParticipantRoundTrip(env: Env, m: Machine, p: Participant)
    requires env.buildParticipant(p).sid !in Roster.Sids(m.roster)
    ensures var m1 := OnRoomEvent(env, m, ParticipantEvent(ParticipantConnected(p)));
      var m2 := OnRoomEvent(env, m1, ParticipantEvent(ParticipantDisconnected(env.buildParticipant(p).sid)));
      m2 == Refresh(env, m)
  {
    var v := env.buildParticipant(p);
    var m1 := OnRoomEvent(env, m, ParticipantEvent(ParticipantConnected(p)));
    assert m1 == UpdateRoster(env, m, Roster.AddParticipant(v));
    var m2 := OnRoomEvent(env, m1, ParticipantEvent(ParticipantDisconnected(v.sid)));
    assert m2 == UpdateRoster(env, m1, Roster.RemoveParticipant(v.sid));
    Roster.AddThenRemove(m.roster, v);
    assert m2.roster == m.roster;
  }

  // --------------------------------------------------------------- invariants

  lemma RoomEventKeepsGood(env: Env, m: Machine, e: RoomEvent)
    requires Good(m)
    ensures Good(OnRoomEvent(env, m, e))
  {
  }

  /** Draining a channel keeps one layout visible and the roster keyed by sid. */
  lemma {:induction false} AfterEventsKeepsGood(env: Env, m: Machine, events: seq<RoomEvent>)
    requires Good(m)
    ensures Good(AfterEvents(env, m, events))
  {
    if events != [] {
      AfterEventsKeepsGood(env, m, events[..|events| - 1]);
      RoomEventKeepsGood(env, AfterEvents(env, m, events[..|events| - 1]), events[|events| - 1]);
    }
  }

  /** Every UI intent keeps the invariants (a Connect through its whole channel). */
  lemma ViewEventKeepsGood(env: Env, m: Machine, e: RoomViewEvent, granted: Permission -> bool, channel: seq<RoomEvent>)
    requires Good(m)
    ensures Good(OnViewEvent(env, m, e, granted, channel))
  {
    if e.Connect? {
      AfterEventsKeepsGood(env, m.(calls := m.calls + [RoomConnect(e.identity, e.roomName)]), channel);
    }
  }

  /** Every room event other than a session failure keeps the published
      participants in agreement with the roster. */
  lemma RoomEventKeepsSync(env: Env, m: Machine, e: RoomEvent)
    requires InSync(env, m) && !IsFailure(e)
    ensures InSync(env, OnRoomEvent(env, m, e))
  {
  }

  lemma {:induction false} AfterEventsKeepsSync(env: Env, m: Machine, events: seq<RoomEvent>)
    requires InSync(env, m)
    requires forall i :: 0 <= i < |events| ==> !IsFailure(events[i])
    ensures InSync(env, AfterEvents(env, m, events))
  {
    if events != [] {
      AfterEventsKeepsSync(env, m, events[..|events| - 1]);
      RoomEventKeepsSync(env, AfterEvents(env, m, events[..|events| - 1]), events[|events| - 1]);
    }
  }

  // --------------------------------------------------------------- event loop

  /** The channel is consumed strictly in order: draining `a + b` is draining
      `a`, then `b`. */
  lemma {:induction false} AfterEventsAppend(env: Env, m: Machine, a: seq<RoomEvent>, b: seq<RoomEvent>)
    ensures AfterEvents(env, m, a + b) == AfterEvents(env, AfterEvents(env, m, a), b)
  {
    if b == [] {
      assert a + b == a;
    } else {
      assert (a + b)[..|a + b| - 1] == a + b[..|b| - 1];
      AfterEventsAppend(env, m, a, b[..|b| - 1]);
    }
  }

  /** The first event of the channel is applied first. */
  lemma AfterEventsFirst(env: Env, m: Machine, e: RoomEvent, rest: seq<RoomEvent>)
    ensures AfterEvents(env, m, [e] + rest) == AfterEvents(env, OnRoomEvent(env, m, e), rest)
  {
    AfterEventsAppend(env, m, [e], rest);
    assert [e][..0] == [];
  }

  /** A Connect intent makes exactly one connect call on the room manager and
      then applies the channel's events in order, with no further call. */
  lemma ConnectInput(env: Env, m: Machine, identity: string, roomName: string,
                     granted: Permission -> bool, channel: seq<RoomEvent>)
    ensures var m' := OnViewEvent(env, m, Connect(identity, roomName), granted, channel);
      m'.calls == m.calls + [RoomConnect(identity, roomName)] &&
      m' == AfterEvents(env, m.(calls := m'.calls), channel)
  {
  }
}

/** The room view model as an object: the published view state, the roster it
    owns and the effect queue are fields that its handlers update in place,
    one input at a time. Every handler is proved to do what the matching
    function of RoomReducer says. */
module ViewModel {
  import opened RoomTypes
  import opened RoomReducer
  import Roster

  class RoomViewModel {
    /** Builders and roster derivations outside this model. */
    const env: Env
    /** The current published snapshot. */
    var state: RoomViewState
    /** The participant roster, keyed by sid, in insertion order. */
    var roster: Roster.Records
    /** One-shot effects queued for the UI, oldest first. */
    var effects: seq<RoomViewEffect>
    /** Calls made on the audio switch and the room manager, oldest first. */
    var calls: seq<Call>

    function Snapshot(): Machine
      reads this
    {
      Machine(state, roster, effects, calls)
    }

    /** The view model starts with the given state and an empty roster, and
        registers its listener with the audio switch. */
    constructor (env: Env, initialViewState: RoomViewState)
      ensures this.env == env
      ensures Snapshot() == Machine(initialViewState, [], [], [AudioStart])
    {
      this.env := env;
      state := initialViewState;
      roster := [];
      effects := [];
      calls := [AudioStart];
    }

    /** The audio switch's listener: replaces only the two audio fields. */
    method OnAudioDevicesChanged(audioDevices: seq<AudioDevice>, selectedDevice: Option<AudioDevice>)
      modifies this
      ensures state == old(state).(selectedDevice := selectedDevice, availableAudioDevices := audioDevices)
      ensures roster == old(roster) && effects == old(effects) && calls == old(calls)
      ensures Snapshot() == OnAudioDevices(old(Snapshot()), audioDevices, selectedDevice)
    {
      state := state.(selectedDevice := selectedDevice, availableAudioDevices := audioDevices);
    }

    /** Stops the audio switch, then shuts the room down. */
    method OnCleared()
      modifies this
      ensures calls == old(calls) + [AudioStop, RoomShutdown]
      ensures state == old(state) && roster == old(roster) && effects == old(effects)
      ensures Snapshot() == Cleared(old(Snapshot()))
    {
      calls := calls + [AudioStop];
      calls := calls + [RoomShutdown];
    }

    /** processInput. `granted` answers the permission queries; `channel` holds
        the room events the room manager delivers, if `viewEvent` is a Connect,
        before its channel closes. */
    method ProcessInput(viewEvent: RoomViewEvent, granted: Permission -> bool, channel: seq<RoomEvent>)
      modifies this
      ensures Snapshot() == OnViewEvent(env, old(Snapshot()), viewEvent, granted, channel)
    {
      match viewEvent
      case RefreshViewState =>
        state := state;
      case CheckPermissions =>
        CheckLocalMedia(granted);
      case SelectAudioDevice(device) =>
        calls := calls + [AudioSelectDevice(device)];
      case ActivateAudioDevice =>
        calls := calls + [AudioActivate];
      case DeactivateAudioDevice =>
        calls := calls + [AudioDeactivate];
      case Connect(identity, roomName) =>
        Connect(identity, roomName, channel);
      case PinParticipant(sid) =>
        roster := Roster.Apply(roster, Roster.ChangePinnedParticipant(sid));
        UpdateParticipantViewState();
      case ToggleLocalVideo(sid, track) =>
        roster := Roster.Apply(roster, Roster.UpdateParticipant(sid, Roster.SetVideoTrack(track)));
        UpdateParticipantViewState();
      case VideoTrackRemoved(sid) =>
        roster := Roster.Apply(roster, Roster.UpdateParticipant(sid, Roster.SetVideoTrack(None)));
        UpdateParticipantViewState();
      case ScreenTrackRemoved(sid) =>
        roster := Roster.Apply(roster, Roster.UpdateParticipant(sid, Roster.SetScreenTrack(None)));
        UpdateParticipantViewState();
      case Disconnect =>
        calls := calls + [RoomDisconnect];
    }

    /** Sets the two permission flags and queues CheckLocalMedia when both are granted. */
    method CheckLocalMedia(granted: Permission -> bool)
      modifies this
      ensures state == old(state).(isCameraEnabled := granted(Camera), isMicEnabled := granted(RecordAudio))
      ensures effects == old(effects) + (if granted(Camera) && granted(RecordAudio) then [RoomViewEffect.CheckLocalMedia] else [])
      ensures roster == old(roster) && calls == old(calls)
      ensures Snapshot() == RoomReducer.CheckLocalMedia(old(Snapshot()), granted(Camera), granted(RecordAudio))
    {
      var isCameraEnabled := granted(Camera);
      var isMicEnabled := granted(RecordAudio);
      state := state.(isCameraEnabled := isCameraEnabled, isMicEnabled := isMicEnabled);
      if isCameraEnabled && isMicEnabled {
        effects := effects + [RoomViewEffect.CheckLocalMedia];
      }
    }

    /** Connects, then consumes the room channel one event at a time, in
        order, until it is closed. */
    method Connect(identity: string, roomName: string, channel: seq<RoomEvent>)
      modifies this
      ensures calls == old(calls) + [RoomConnect(identity, roomName)]
      ensures Snapshot() == AfterEvents(env, old(Snapshot()).(calls := calls), channel)
    {
      calls := calls + [RoomConnect(identity, roomName)];
      ghost var start := Snapshot();
      var i := 0;
      while i < |channel|
        invariant 0 <= i <= |channel|
        invariant Snapshot() == AfterEvents(env, start, channel[..i])
      {
        ObserveRoomEvents(channel[i]);
        assert channel[..i + 1][..i] == channel[..i];
        i := i + 1;
      }
      assert channel[..|channel|] == channel;
    }

    /** observeRoomEvents */
    method ObserveRoomEvents(roomEvent: RoomEvent)
      modifies this
      ensures Snapshot() == OnRoomEvent(env, old(Snapshot()), roomEvent)
    {
      match roomEvent
      case Connecting =>
        ShowConnectingViewState();
      case Connected(roomName, participants, room) =>
        ShowConnectedViewState(roomName);
        CheckParticipants(participants);
        effects := effects + [RoomViewEffect.Connected(room)];
      case Disconnected =>
        ShowLobbyViewState();
        state := state.(participantThumbnails := None, primaryParticipant := None);
      case DominantSpeakerChanged(sid) =>
        roster := Roster.Apply(roster, Roster.ChangeDominantSpeaker(sid));
        UpdateParticipantViewState();
      case ConnectFailure =>
        ShowLobbyViewState();
        effects := effects + [ShowConnectFailureDialog];
      case MaxParticipantFailure =>
        effects := effects + [ShowMaxParticipantFailureDialog];
        ShowLobbyViewState();
      case TokenError(serviceError) =>
        ShowLobbyViewState();
        effects := effects + [ShowTokenErrorDialog(serviceError)];
      case ParticipantEvent(participantEvent) =>
        HandleParticipantEvent(participantEvent);
    }

    /** handleParticipantEvent */
    method HandleParticipantEvent(participantEvent: ParticipantEvent)
      modifies this
      ensures Snapshot() == OnParticipantEvent(env, old(Snapshot()), participantEvent)
    {
      match participantEvent
      case ParticipantConnected(participant) =>
        AddParticipant(participant);
      case VideoTrackUpdated(sid, videoTrack) =>
        roster := Roster.Apply(roster, Roster.UpdateParticipant(sid, Roster.SetVideoTrack(TrackView(videoTrack))));
        UpdateParticipantViewState();
      case TrackSwitchOff(sid, videoTrack, switchOff) =>
        roster := Roster.Apply(roster,
          Roster.UpdateParticipant(sid, Roster.SetVideoTrack(Some(VideoTrackViewState(videoTrack, switchOff)))));
        UpdateParticipantViewState();
      case ScreenTrackUpdated(sid, screenTrack) =>
        roster := Roster.Apply(roster, Roster.UpdateParticipant(sid, Roster.SetScreenTrack(TrackView(screenTrack))));
        UpdateParticipantViewState();
      case MuteParticipant(sid, mute) =>
        roster := Roster.Apply(roster, Roster.UpdateParticipant(sid, Roster.SetMuted(mute)));
        UpdateParticipantViewState();
      case NetworkQualityLevelChange(sid, level) =>
        roster := Roster.Apply(roster, Roster.UpdateParticipant(sid, Roster.SetNetworkQuality(level)));
        UpdateParticipantViewState();
      case ParticipantDisconnected(sid) =>
        roster := Roster.Apply(roster, Roster.RemoveParticipant(sid));
        UpdateParticipantViewState();
    }

    /** Adds a remote participant's record and republishes the derived fields. */
    method AddParticipant(participant: Participant)
      modifies this
      ensures roster == Roster.Apply(old(roster), Roster.AddParticipant(env.buildParticipant(participant)))
      ensures state == old(state).(participantThumbnails := Some(env.thumbnailsOf(roster)),
                                   primaryParticipant := env.primaryOf(roster))
      ensures effects == old(effects) && calls == old(calls)
    {
      var participantViewState := env.buildParticipant(participant);
      roster := Roster.Apply(roster, Roster.AddParticipant(participantViewState));
      UpdateParticipantViewState();
    }

    /** Queues Disconnected, shows only the lobby and clears the roster. */
    method ShowLobbyViewState()
      modifies this
      ensures Snapshot() == ShowLobby(old(Snapshot()))
    {
      effects := effects + [RoomViewEffect.Disconnected];
      state := ShowLayout(state, LobbyLayout);
      roster := Roster.Apply(roster, Roster.ClearParticipants);
    }

    /** Queues Connecting and shows only the connecting layout. */
    method ShowConnectingViewState()
      modifies this
      ensures Snapshot() == ShowConnecting(old(Snapshot()))
    {
      effects := effects + [RoomViewEffect.Connecting];
      state := ShowLayout(state, ConnectingLayout);
    }

    /** Sets the title and shows only the connected layout. */
    method ShowConnectedViewState(roomName: string)
      modifies this
      ensures Snapshot() == ShowConnected(old(Snapshot()), roomName)
    {
      state := ShowLayout(state, ConnectedLayout).(title := roomName);
    }

    /** Adds the participants of a Connected event in list order, the first one
        as the local participant, then republishes the derived fields. */
    method CheckParticipants(participants: seq<Participant>)
      modifies this
      ensures roster == Roster.AddAll(old(roster), Built(env, participants))
      ensures Snapshot() == RoomReducer.CheckParticipants(env, old(Snapshot()), participants)
    {
      for index := 0 to |participants|
        invariant roster == Roster.AddAll(old(roster), Built(env, participants)[..index])
        invariant state == old(state) && effects == old(effects) && calls == old(calls)
      {
        var participant := participants[index];
        var participantViewState := if index == 0
          then env.buildLocalParticipant(participant, participant.identity)
          else env.buildParticipant(participant);
        assert Built(env, participants)[..index + 1][..index] == Built(env, participants)[..index];
        roster := Roster.Apply(roster, Roster.AddParticipant(participantViewState));
      }
      assert Built(env, participants)[..|participants|] == Built(env, participants);
      UpdateParticipantViewState();
    }

    /** Republishes thumbnails and primary participant from the roster. */
    method UpdateParticipantViewState()
      modifies this
      ensures state == old(state).(participantThumbnails := Some(env.thumbnailsOf(roster)),
                                   primaryParticipant := env.primaryOf(roster))
      ensures roster == old(roster) && effects == old(effects) && calls == old(calls)
      ensures Snapshot() == Refresh(env, old(Snapshot()))
    {
      state := state.(participantThumbnails := Some(env.thumbnailsOf(roster)),
                      primaryParticipant := env.primaryOf(roster));
    }
  }
}

/** Data model of the room screen: the view state snapshot, the participant
    records, and the three closed unions the view model consumes and emits
    (room events from the call engine, view events from the UI, one-shot view
    effects), plus the calls it makes on its collaborators. */
module RoomTypes {

  datatype Option<+T> = None | Some(value: T)

  /** Session identifier of a participant, unique within a room. */
  type Sid = string

  /** A video track handle of the call engine; only its identity matters here. */
  datatype VideoTrack = VideoTrack(trackSid: string)

  /** A video track as the UI sees it: the track and whether the engine switched it off. */
  datatype VideoTrackViewState = VideoTrackViewState(videoTrack: VideoTrack, isSwitchedOff: bool)

  datatype NetworkQualityLevel = Unknown | Zero | One | Two | Three | Four | Five

  /** A participant of the call engine, as handed over in room events. */
  datatype Participant = Participant(sid: Sid, identity: string)

  /** One record of the participant roster. */
  datatype ParticipantViewState = ParticipantViewState(
    sid: Sid,
    identity: string,
    isLocal: bool,
    videoTrack: Option<VideoTrackViewState>,
    screenTrack: Option<VideoTrackViewState>,
    isMuted: bool,
    networkQualityLevel: NetworkQualityLevel,
    isDominantSpeaker: bool,
    isPinned: bool)

  datatype AudioDevice = AudioDevice(name: string)

  /** The connected room handle passed through to the UI. */
  datatype RoomHandle = RoomHandle(sid: string, name: string)

  /** The authentication error carried by a token failure. */
  datatype ServiceError = ServiceError(name: string)

  /** The immutable snapshot the UI renders; every transition replaces it with a copy. */
  datatype RoomViewState = RoomViewState(
    title: string,
    isLobbyLayoutVisible: bool,
    isConnectingLayoutVisible: bool,
    isConnectedLayoutVisible: bool,
    isCameraEnabled: bool,
    isMicEnabled: bool,
    selectedDevice: Option<AudioDevice>,
    availableAudioDevices: seq<AudioDevice>,
    participantThumbnails: Option<seq<ParticipantViewState>>,
    primaryParticipant: Option<ParticipantViewState>)

  /** Per-participant notifications of the call engine. */
  datatype ParticipantEvent =
    | ParticipantConnected(participant: Participant)
    | VideoTrackUpdated(sid: Sid, videoTrack: Option<VideoTrack>)
    | TrackSwitchOff(sid: Sid, switchedTrack: VideoTrack, switchOff: bool)
    | ScreenTrackUpdated(sid: Sid, screenTrack: Option<VideoTrack>)
    | MuteParticipant(sid: Sid, mute: bool)
    | NetworkQualityLevelChange(sid: Sid, networkQualityLevel: NetworkQualityLevel)
    | ParticipantDisconnected(sid: Sid)

  /** Notifications of the call engine, delivered over the room channel. */
  datatype RoomEvent =
    | Connecting
    | Connected(roomName: string, participants: seq<Participant>, room: RoomHandle)
    | Disconnected
    | DominantSpeakerChanged(newDominantSpeakerSid: Option<Sid>)
    | ConnectFailure
    | MaxParticipantFailure
    | TokenError(serviceError: Option<ServiceError>)
    | ParticipantEvent(participantEvent: ParticipantEvent)

  /** Intents issued by the UI. */
  datatype RoomViewEvent =
    | RefreshViewState
    | CheckPermissions
    | SelectAudioDevice(device: AudioDevice)
    | ActivateAudioDevice
    | DeactivateAudioDevice
    | Connect(identity: string, roomName: string)
    | PinParticipant(sid: Sid)
    | ToggleLocalVideo(sid: Sid, videoTrackViewState: Option<VideoTrackViewState>)
    | VideoTrackRemoved(sid: Sid)
    | ScreenTrackRemoved(sid: Sid)
    | Disconnect

  /** One-shot commands to the UI, queued and not part of the state. */
  datatype RoomViewEffect =
    | Connecting
    | Connected(room: RoomHandle)
    | Disconnected
    | CheckLocalMedia
    | ShowConnectFailureDialog
    | ShowMaxParticipantFailureDialog
    | ShowTokenErrorDialog(serviceError: Option<ServiceError>)

  /** The runtime permissions the view model asks about. */
  datatype Permission = Camera | RecordAudio

  /** Calls the view model makes on its collaborators: the audio switch and the room manager. */
  datatype Call =
    | AudioStart
    | AudioSelectDevice(device: AudioDevice)
    | AudioActivate
    | AudioDeactivate
    | AudioStop
    | RoomConnect(identity: string, roomName: string)
    | RoomDisconnect
    | RoomShutdown
}

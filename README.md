# Room view model of the Twilio Video Android app

This project models the view model behind the room screen of the app. It reads
two input streams and turns them into a published `RoomViewState` snapshot, a
participant roster and a queue of one-shot `RoomViewEffect`s. The two streams are:

- UI intents (`RoomViewEvent`, handled by `processInput`);
- call-engine notifications (`RoomEvent`, read from the room manager's channel
  by `observeRoomEvents` and `handleParticipantEvent`).

The model also covers the audio switch's device listener and the teardown in `onCleared`.

The model has five modules:

- `RoomTypes`: the state record and the closed unions of events, intents and
  effects. It also has a `Call` union that records the calls made on the audio
  switch and the room manager.
- `Roster`: the roster the view model owns. It is an insertion-ordered
  sequence of `ParticipantViewState` records keyed by sid. It has the add,
  remove, update, pin, dominant-speaker and clear operations. A map view
  (`AsMap`) is the reference for add, update and remove. Each update sets
  exactly one field of one record (`ApplyChange`), and the input and event
  lemmas state that field's new value in the map view. Pin and dominant
  speaker are stated record by record: only the mark changes. Removal is also
  shown to keep the order of the records that remain (`RemoveConcat`).
- `RoomReducer`: one function per handler, on a `Machine` value (state, roster,
  effects, calls). `OnViewEvent` is `processInput`, `OnRoomEvent` is
  `observeRoomEvents`, and `AfterEvents` is the channel loop.
- `RoomProperties`: lemmas about those functions. They cover the lifecycle
  transitions, which fields each input may change, the invariants every input
  keeps, and the order in which the channel is consumed.
- `ViewModel`: the class `RoomViewModel`. Its fields are `state`, `roster`,
  `effects` and `calls`, and its methods update them in place, following the
  Kotlin handlers. Each method is proved equal, on
  `Snapshot()`, to its `RoomReducer` function. `checkParticipants` is a `for`
  loop, and the channel drain in `connect` is a `while` loop over a finite
  sequence of room events.

Collaborators are parameters or records:

- The permission answers are a `granted: Permission -> bool` argument.
- The room channel is a `seq<RoomEvent>` argument. It closes after its last event.
- The audio switch and the room manager appear only as the `Call`s appended to `calls`.
- The record builders and the thumbnail and primary derivation are the
  function-valued fields of `Env`. Their code is not part of this model.

Some behaviours of the handlers may look unintended. In these places the model follows the code:

- `MaxParticipantFailure` queues `Disconnected` as well as its dialog, because it calls `showLobbyViewState`.
- The three session failures clear the roster but leave the published
  `participantThumbnails` and `primaryParticipant` as they were. Only
  `Disconnected` nulls them (`FailureEvent`, `DisconnectedEvent`).
- A second `onCleared` stops the audio switch and shuts the room down a second time.
- No lifecycle event checks the current layout. For example, a `Connected`
  event in the lobby still shows the connected layout.

## Model

| member | source | states |
|---|---|---|
| `Roster.ApplyChange` | app/src/main/java/com/twilio/video/app/ui/room/RoomViewModel.kt:179-203 | a per-participant update never changes the record's sid; a video-track, screen-track, mute or network-quality change sets exactly that field to the given value and leaves every other field of the record alone |
| `Roster.Modify` | app/src/main/java/com/twilio/video/app/ui/room/RoomViewModel.kt:104-116 | updating a participant keeps the roster's sids and their order |
| `Roster.Remove` | app/src/main/java/com/twilio/video/app/ui/room/RoomViewModel.kt:205-207 | removal drops exactly the records of that sid, keeps all others, and keeps the roster keyed by sid |
| `Roster.RemoveConcat` | app/src/main/java/com/twilio/video/app/ui/room/RoomViewModel.kt:205-207 | removal works piecewise on a split roster, so the surviving records keep their insertion order |
| `Roster.MarkPinned` | app/src/main/java/com/twilio/video/app/ui/room/RoomViewModel.kt:100-101 | a pin change keeps the roster's sids and order, and changes no field of any record other than its pinned mark |
| `Roster.MarkDominant` | app/src/main/java/com/twilio/video/app/ui/room/RoomViewModel.kt:152-153 | a dominant-speaker change keeps the roster's sids and order, and changes no field of any record other than its dominant-speaker mark |
| `Roster.Apply` | app/src/main/java/com/twilio/video/app/ui/room/RoomViewModel.kt:212-228 | every roster operation keeps the roster keyed by sid |
| `Roster.AddAll` | app/src/main/java/com/twilio/video/app/ui/room/RoomViewModel.kt:255-261 | adding a list of participants one by one keeps the roster keyed by sid |
| `Roster.ModifyAsMap` | app/src/main/java/com/twilio/video/app/ui/room/RoomViewModel.kt:179-203 | in the sid-to-record view, an update changes only the entry of its sid, and changes nothing when the sid is unknown |
| `Roster.RemoveAsMap` | app/src/main/java/com/twilio/video/app/ui/room/RoomViewModel.kt:205-207 | in the sid-to-record view, removal deletes exactly that sid |
| `Roster.AddAsMap` | app/src/main/java/com/twilio/video/app/ui/room/RoomViewModel.kt:212-216 | adding binds the sid to the new record; a new sid goes last in insertion order, and a known sid keeps its place |
| `Roster.UnknownSidIsNoOp` | app/src/main/java/com/twilio/video/app/ui/room/RoomViewModel.kt:176-210 | remove, update and pin on an unknown sid leave the roster unchanged |
| `Roster.AddThenRemove` | app/src/main/java/com/twilio/video/app/ui/room/RoomViewModel.kt:178-207 | adding a new participant and then removing its sid restores the roster |
| `Roster.DominantSpeakerExclusive` | app/src/main/java/com/twilio/video/app/ui/room/RoomViewModel.kt:152-155 | after a dominant-speaker change, a participant carries the mark exactly when it is the named sid, so at most one does |
| `Roster.PinExclusive` | app/src/main/java/com/twilio/video/app/ui/room/RoomViewModel.kt:100-103 | pinning a present sid makes it the only pinned participant; pinning an unknown sid changes nothing |
| `Roster.AddAllDistinct` | app/src/main/java/com/twilio/video/app/ui/room/RoomViewModel.kt:255-261 | seeding an empty roster with records of distinct sids gives exactly those records, in list order |
| `RoomReducer.ShowLayout` | app/src/main/java/com/twilio/video/app/ui/room/RoomViewModel.kt:218-253 | each layout change leaves exactly one layout visible and no other field changed |
| `RoomReducer.ShowLobby` | app/src/main/java/com/twilio/video/app/ui/room/RoomViewModel.kt:218-229 | showing the lobby queues Disconnected, shows only the lobby and empties the roster; the title and every non-layout field are unchanged |
| `RoomReducer.Refresh` | app/src/main/java/com/twilio/video/app/ui/room/RoomViewModel.kt:265-274 | republishing sets thumbnails and primary participant to the values derived from the roster and touches no other field |
| `RoomReducer.ShowConnecting` | app/src/main/java/com/twilio/video/app/ui/room/RoomViewModel.kt:231-241 | queues Connecting and shows only the connecting layout; title, roster, calls and every non-layout field are unchanged |
| `RoomReducer.ShowConnected` | app/src/main/java/com/twilio/video/app/ui/room/RoomViewModel.kt:243-253 | sets the title to the room name and shows only the connected layout; roster, effects, calls and every other field are unchanged |
| `RoomReducer.Built` | app/src/main/java/com/twilio/video/app/ui/room/RoomViewModel.kt:255-261 | one record per participant, in list order: index 0 built as the local participant with its own identity, the rest as remote participants |
| `RoomReducer.CheckParticipants` | app/src/main/java/com/twilio/video/app/ui/room/RoomViewModel.kt:255-263 | adds the built records one by one to the roster, then recomputes thumbnails and primary from the new roster; nothing else changes |
| `RoomReducer.TrackView` | app/src/main/java/com/twilio/video/app/ui/room/RoomViewModel.kt:179-194 | an engine track is present in the view exactly when present in the event, wraps that track, and is not switched off |
| `RoomReducer.OnParticipantEvent` | app/src/main/java/com/twilio/video/app/ui/room/RoomViewModel.kt:176-210 | every participant event changes only thumbnails and primary in the state, sets them from the new roster, and queues no effect and makes no call |
| `RoomReducer.OnRoomEvent` | app/src/main/java/com/twilio/video/app/ui/room/RoomViewModel.kt:133-174 | no room event calls a collaborator, and every room event keeps exactly one layout visible |
| `RoomReducer.AfterEvents` | app/src/main/java/com/twilio/video/app/ui/room/RoomViewModel.kt:277-288 | draining the channel makes no collaborator call |
| `RoomReducer.CheckLocalMedia` | app/src/main/java/com/twilio/video/app/ui/room/RoomViewModel.kt:121-131 | the permission flags take the two answers, CheckLocalMedia is queued if and only if both are granted, and nothing else changes |
| `RoomReducer.OnViewEvent` | app/src/main/java/com/twilio/video/app/ui/room/RoomViewModel.kt:84-119 | every UI intent keeps exactly one layout visible, and makes at most one collaborator call, appended after the earlier ones |
| `RoomReducer.Cleared` | app/src/main/java/com/twilio/video/app/ui/room/RoomViewModel.kt:77-81 | teardown stops the audio switch, then shuts the room down, and changes nothing else |
| `RoomReducer.OnAudioDevices` | app/src/main/java/com/twilio/video/app/ui/room/RoomViewModel.kt:64-73 | the device listener sets the selected and available audio devices to the given ones and changes nothing else |
| `RoomProperties.LifecycleLayout` | app/src/main/java/com/twilio/video/app/ui/room/RoomViewModel.kt:135-171 | each lifecycle event shows exactly its layout (connecting, connected or lobby); other events keep the layout flags |
| `RoomProperties.ConnectingEvent` | app/src/main/java/com/twilio/video/app/ui/room/RoomViewModel.kt:136-138 | Connecting queues the Connecting effect and shows only the connecting layout; title, roster and calls are unchanged |
| `RoomProperties.ConnectedEvent` | app/src/main/java/com/twilio/video/app/ui/room/RoomViewModel.kt:139-143 | Connected sets the title and shows only the connected layout. It adds the built records in list order, recomputes thumbnails and primary from the new roster, queues Connected(room), and keeps permissions and audio |
| `RoomProperties.ConnectedSeedsRoster` | app/src/main/java/com/twilio/video/app/ui/room/RoomViewModel.kt:255-263 | from an empty roster, Connected yields one record per participant in order: index 0 is built as the local participant with its own identity, the rest as remote participants |
| `RoomProperties.DisconnectedEvent` | app/src/main/java/com/twilio/video/app/ui/room/RoomViewModel.kt:144-151 | Disconnected shows the lobby, empties the roster, nulls thumbnails and primary, and queues Disconnected |
| `RoomProperties.FailureEvent` | app/src/main/java/com/twilio/video/app/ui/room/RoomViewModel.kt:156-171 | each session failure shows the lobby, empties the roster and queues Disconnected plus its own dialog (the token dialog carries the event's error); thumbnails and primary are left as they were |
| `RoomProperties.CheckPermissionsInput` | app/src/main/java/com/twilio/video/app/ui/room/RoomViewModel.kt:121-131 | the camera and mic flags take the two permission answers, CheckLocalMedia is queued if and only if both are granted, and nothing else changes |
| `RoomProperties.ForwardingInputs` | app/src/main/java/com/twilio/video/app/ui/room/RoomViewModel.kt:88-117 | RefreshViewState leaves everything as it is; the audio intents and Disconnect leave state, roster and effects unchanged and record exactly one forwarded call |
| `RoomProperties.RosterInputs` | app/src/main/java/com/twilio/video/app/ui/room/RoomViewModel.kt:100-116 | pin, toggle-video and track-removal intents apply exactly one roster operation and recompute thumbnails and primary; nothing else changes |
| `RoomProperties.RosterEvents` | app/src/main/java/com/twilio/video/app/ui/room/RoomViewModel.kt:152-210 | dominant-speaker and participant events apply exactly one roster operation and recompute thumbnails and primary; nothing else changes |
| `RoomProperties.VideoTrackRemovedInput` | app/src/main/java/com/twilio/video/app/ui/room/RoomViewModel.kt:109-112 | VideoTrackRemoved nulls that participant's video track and leaves every other record unchanged |
| `RoomProperties.ScreenTrackRemovedInput` | app/src/main/java/com/twilio/video/app/ui/room/RoomViewModel.kt:113-116 | ScreenTrackRemoved nulls that participant's screen track and leaves every other record unchanged |
| `RoomProperties.ToggleLocalVideoInput` | app/src/main/java/com/twilio/video/app/ui/room/RoomViewModel.kt:104-108 | ToggleLocalVideo sets that participant's video track to the given one; no other participant or field changes |
| `RoomProperties.VideoTrackUpdatedEvent` | app/src/main/java/com/twilio/video/app/ui/room/RoomViewModel.kt:179-183 | VideoTrackUpdated sets that participant's video track to the event's track, not switched off, or to none; nothing else changes |
| `RoomProperties.TrackSwitchOffEvent` | app/src/main/java/com/twilio/video/app/ui/room/RoomViewModel.kt:184-189 | TrackSwitchOff sets that participant's video track to the event's track with the event's switched-off flag; nothing else changes |
| `RoomProperties.ScreenTrackUpdatedEvent` | app/src/main/java/com/twilio/video/app/ui/room/RoomViewModel.kt:190-194 | ScreenTrackUpdated sets that participant's screen track to the event's track, not switched off, or to none; nothing else changes |
| `RoomProperties.MuteParticipantEvent` | app/src/main/java/com/twilio/video/app/ui/room/RoomViewModel.kt:195-199 | MuteParticipant sets that participant's muted flag to the event's value; nothing else changes |
| `RoomProperties.NetworkQualityEvent` | app/src/main/java/com/twilio/video/app/ui/room/RoomViewModel.kt:200-203 | NetworkQualityLevelChange sets that participant's level to the event's level; nothing else changes |
| `RoomProperties.DominantSpeakerEvent` | app/src/main/java/com/twilio/video/app/ui/room/RoomViewModel.kt:152-155 | after DominantSpeakerChanged, exactly the named participant is marked |
| `RoomProperties.ParticipantRoundTrip` | app/src/main/java/com/twilio/video/app/ui/room/RoomViewModel.kt:178-216 | ParticipantConnected followed by ParticipantDisconnected of the same sid restores the roster |
| `RoomProperties.RoomEventKeepsGood` | app/src/main/java/com/twilio/video/app/ui/room/RoomViewModel.kt:133-174 | every room event keeps exactly one layout visible and the roster keyed by sid |
| `RoomProperties.AfterEventsKeepsGood` | app/src/main/java/com/twilio/video/app/ui/room/RoomViewModel.kt:277-288 | draining any channel keeps both invariants |
| `RoomProperties.ViewEventKeepsGood` | app/src/main/java/com/twilio/video/app/ui/room/RoomViewModel.kt:84-119 | every UI intent keeps both invariants; for Connect this holds through the whole channel |
| `RoomProperties.RoomEventKeepsSync` | app/src/main/java/com/twilio/video/app/ui/room/RoomViewModel.kt:133-174 | every room event except the three failures keeps thumbnails and primary in agreement with the roster |
| `RoomProperties.AfterEventsKeepsSync` | app/src/main/java/com/twilio/video/app/ui/room/RoomViewModel.kt:277-288 | a channel without failures keeps thumbnails and primary in agreement with the roster |
| `RoomProperties.AfterEventsAppend` | app/src/main/java/com/twilio/video/app/ui/room/RoomViewModel.kt:282-286 | the channel is consumed strictly in order: draining a + b is draining a, then b |
| `RoomProperties.AfterEventsFirst` | app/src/main/java/com/twilio/video/app/ui/room/RoomViewModel.kt:282-286 | the first event of the channel is applied before the rest |
| `RoomProperties.ConnectInput` | app/src/main/java/com/twilio/video/app/ui/room/RoomViewModel.kt:97-99 | Connect makes exactly one connect call and then applies the channel's events in order, with no retry |
| `ViewModel.RoomViewModel.constructor` | app/src/main/java/com/twilio/video/app/ui/room/RoomViewModel.kt:55-74 | starts from the given state with an empty roster and no effects, and registers with the audio switch |
| `ViewModel.RoomViewModel.OnAudioDevicesChanged` | app/src/main/java/com/twilio/video/app/ui/room/RoomViewModel.kt:64-73 | replaces only `selectedDevice` and `availableAudioDevices` |
| `ViewModel.RoomViewModel.OnCleared` | app/src/main/java/com/twilio/video/app/ui/room/RoomViewModel.kt:77-81 | stops the audio switch, then shuts the room down, and changes nothing else |
| `ViewModel.RoomViewModel.ProcessInput` | app/src/main/java/com/twilio/video/app/ui/room/RoomViewModel.kt:84-119 | the new state, roster, effects and calls are those of `OnViewEvent` |
| `ViewModel.RoomViewModel.CheckLocalMedia` | app/src/main/java/com/twilio/video/app/ui/room/RoomViewModel.kt:121-131 | sets the permission flags from the answers and queues CheckLocalMedia only when both are granted |
| `ViewModel.RoomViewModel.Connect` | app/src/main/java/com/twilio/video/app/ui/room/RoomViewModel.kt:277-288 | records the connect call, then its loop applies every channel event in order until the channel is exhausted |
| `ViewModel.RoomViewModel.ObserveRoomEvents` | app/src/main/java/com/twilio/video/app/ui/room/RoomViewModel.kt:133-174 | the new state, roster, effects and calls are those of `OnRoomEvent` |
| `ViewModel.RoomViewModel.HandleParticipantEvent` | app/src/main/java/com/twilio/video/app/ui/room/RoomViewModel.kt:176-210 | the new state, roster, effects and calls are those of `OnParticipantEvent` |
| `ViewModel.RoomViewModel.AddParticipant` | app/src/main/java/com/twilio/video/app/ui/room/RoomViewModel.kt:212-216 | adds the built remote record and republishes the derived fields from the new roster |
| `ViewModel.RoomViewModel.ShowLobbyViewState` | app/src/main/java/com/twilio/video/app/ui/room/RoomViewModel.kt:218-229 | queues Disconnected, shows only the lobby and clears the roster |
| `ViewModel.RoomViewModel.ShowConnectingViewState` | app/src/main/java/com/twilio/video/app/ui/room/RoomViewModel.kt:231-241 | queues Connecting and shows only the connecting layout |
| `ViewModel.RoomViewModel.ShowConnectedViewState` | app/src/main/java/com/twilio/video/app/ui/room/RoomViewModel.kt:243-253 | sets the title and shows only the connected layout |
| `ViewModel.RoomViewModel.CheckParticipants` | app/src/main/java/com/twilio/video/app/ui/room/RoomViewModel.kt:255-263 | its loop adds the records built for the participants one by one in list order, index 0 as local, then republishes |
| `ViewModel.RoomViewModel.UpdateParticipantViewState` | app/src/main/java/com/twilio/video/app/ui/room/RoomViewModel.kt:265-274 | replaces only thumbnails and primary participant, with the values derived from the current roster |

## Left out

- `ParticipantManager`, `buildParticipantViewState` and
  `buildLocalParticipantViewState` are not part of this model. The builders
  and the derivation of `participantThumbnails` and `primaryParticipant` are
  arbitrary functions in `Env`. So no selection priority (pin, dominant
  speaker, video) is stated. The invariant "primary is present if and only if
  the thumbnails are non-empty" depends on that derivation and is not stated.
- `ParticipantManager` is not shown, so the behaviour of the roster
  operations is a modelling choice:
  - records are keyed by sid;
  - adding a known sid replaces its record in place;
  - remove, update and pin are no-ops for an unknown sid;
  - pin and dominant speaker are exclusive marks;
  - a dominant-speaker change naming nobody, or an unknown sid, clears the mark everywhere.
- Coroutine and Uniflow scheduling (`viewModelScope.launch`, `actionOn`,
  `action`, `sendEvent`) is not modelled. Inputs are applied one at a time, in
  order.
- Effect order within one handler follows the order of the calls in the text.
  The model does not capture how Uniflow may reorder the `Disconnected` effect
  against a failure dialog queued inside a `sendEvent` lambda.
- The `isActive` check of the channel loop is not modelled. A cancelled scope
  is modelled as a channel that ends early. The `receiveOrNull` null branch
  only logs, so it is left out.
- Logging (`Timber`) is left out. So is `RoomViewModelFactory`, which is
  Android `ViewModelProvider` plumbing.
- `TrackView`: an engine track becomes a `VideoTrackViewState` that is not
  switched off. `VideoTrackViewState`'s default is not part of this model.
- `ViewModel.RoomViewModel.constructor`: takes any initial state, because
  the defaults of `RoomViewState` are not part of this model. So the
  one-visible-layout invariant is stated as preserved (`Good`), not as
  established at construction.
- `ViewModel.RoomViewModel.constructor`: always starts from an empty roster.
  The Kotlin constructor accepts an injected `participantManager` (line 59),
  whose default is a fresh, empty manager; a pre-filled manager is not modelled.
- The permission names are the two `Permission` values, not the Android
  `Manifest` strings. The audio devices, tracks, room handle and service error
  are opaque records.
- `video/src/main/java/com/twilio/video/CameraCapturer.java` is not modelled.
  It wraps a foreign camera capturer.
- `sdk/src/com/twilio/signal/ConversationsClient.java` is not modelled. It is
  an interface with no bodies.
- `library/src/androidTest/java/com/twilio/video/base/BaseCameraCapturerTest.java`
  is not modelled. It is instrumentation-test scaffolding.
- `sdk/jni/hello.cpp` is not modelled. It is a native stub.

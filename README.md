# Video track renderer registry and track statistics

This project models three classes of the Twilio Video Android SDK's Java
library (`com.twilio.video`):

- `VideoTrack`: a wrapper around an engine-side video track. It keeps a
  registry that maps each application `VideoRenderer` to the engine-side
  adapter created for it. It also keeps an `isReleased` flag and an
  `isEnabled` flag. `addRenderer`, `removeRenderer` and `release` attach and
  detach adapters on the engine track. After release, `addRenderer` and
  `removeRenderer` are silent no-ops.
- `TrackStats` and `AudioTrackStats`: immutable statistics records whose
  constructors store their arguments and forward the inherited ones to
  `super`.

Modules:

- `Stats` (`stats.dfy`): the records, as datatypes. Java `int` and `long` are
  the newtypes `int32` and `int64`. The `double` timestamp is kept as its
  64 bits, because it is only stored. Each constructor is a total function.
- `RendererRegistry` (`renderer_registry.dfy`): the track's state as a value,
  `Registry<R, A>`. It holds the track id, the renderer-to-adapter map, the
  multiset of adapters attached to the engine track, and the two flags. There
  is one function per operation (`Attach`, `Detach`, `ReleaseAll`,
  `WithEnabled`) and a `Run` over traces of calls. The lemmas state what each
  call promises and what holds after any sequence of calls.
- `VideoTracks` (`video_track.dfy`): the class `VideoTrack<R>` with the
  source's fields. `engineAttached` is a ghost multiset that stands for the
  engine track's `addRenderer`/`removeRenderer` calls. Each method is proved
  to move `State()` exactly as the matching `RendererRegistry` function does.
  `Release` keeps the source's loop over the map's values: the loop is the
  helper method `DetachHeldAdapters`.

Re-adding a registered renderer has a proved consequence
(VideoTrack.java:60-64). The map entry is replaced, so `getRenderers()` still
lists the renderer once. But the first adapter stays attached to the engine
track. The registry no longer holds it, so no later `removeRenderer` or
`release` ever detaches it. `RendererRegistry.Leaked` names these adapters.
`AttachRegisters` shows that re-adding adds the old adapter to them.
`RunPreservesValid` shows that no sequence of calls ever removes one.
`ReAddLeavesFirstAdapterAttached` shows a concrete trace.

`bytesReceived` and `packetsReceived` are declared in `TrackStats`
(TrackStats.java:7,12), so `AudioTrackStats`, which extends it, carries them
too.

## Model

| member | source | states |
|---|---|---|
| `Stats.NewTrackStats` | library/src/main/java/com/twilio/video/TrackStats.java:15-21 | the first five arguments reach the base part unchanged and in order; `bytesReceived` and `packetsReceived` are stored as given; no requires, so every `int`/`long` value is accepted |
| `Stats.NewAudioTrackStats` | library/src/main/java/com/twilio/video/AudioTrackStats.java:14-27 | the first seven arguments are forwarded in order to the `TrackStats` constructor; `audioLevel` and `jitter` are stored as given, without any range check |
| `Stats.TrackStatsFieldsRoundTrip` | library/src/main/java/com/twilio/video/TrackStats.java:3-21 | every `TrackStats` value is exactly what the constructor builds from its own seven fields (a pure immutable record) |
| `Stats.AudioTrackStatsFieldsRoundTrip` | library/src/main/java/com/twilio/video/AudioTrackStats.java:3-27 | every `AudioTrackStats` value is exactly what the constructor builds from its nine fields |
| `VideoTracks.VideoTrack.constructor` | library/src/main/java/com/twilio/video/VideoTrack.java:30-44 | the track id is the engine track's id; the registry is empty; not released; enabled as given |
| `VideoTracks.VideoTrack.AddRenderer` | library/src/main/java/com/twilio/video/VideoTrack.java:51-68 | before release, a fresh adapter that forwards to `r` is registered under `r` and attached, as `Attach` says; after release, the state is unchanged |
| `VideoTracks.VideoTrack.RemoveRenderer` | library/src/main/java/com/twilio/video/VideoTrack.java:75-93 | the new state is `Detach` of the old: before release, `r`'s entry is removed and its adapter detached; otherwise nothing changes |
| `VideoTracks.Adapter.constructor` | library/src/main/java/com/twilio/video/VideoTrack.java:143-145 | the adapter that `createWebRtcVideoRenderer` (lines 122-124) builds for a renderer holds, and so forwards to, exactly that renderer |
| `VideoTracks.VideoTrack.GetTrackId` | library/src/main/java/com/twilio/video/VideoTrack.java:107-110 | answers the track id of the state, which the constructor takes from the engine track and `TrackIdIsFixed` shows no call changes |
| `VideoTracks.VideoTrack.IsEnabled` | library/src/main/java/com/twilio/video/VideoTrack.java:117-120 | answers the enabled flag of the state, which `EnabledIsLastSet` shows is the most recent `setEnabled` value or the constructor's |
| `VideoTracks.VideoTrack.GetRenderers` | library/src/main/java/com/twilio/video/VideoTrack.java:98-100 | the result lists every registered renderer exactly once and nothing else |
| `VideoTracks.VideoTrack.SetEnabled` | library/src/main/java/com/twilio/video/VideoTrack.java:126-128 | `isEnabled()` then answers the new value; no other part of the state changes, released or not |
| `VideoTracks.VideoTrack.Release` | library/src/main/java/com/twilio/video/VideoTrack.java:130-138 | the new state is `ReleaseAll` of the old: on a live track, every held adapter is detached, the registry is emptied and released is set; on a released track, nothing changes |
| `VideoTracks.VideoTrack.DetachHeldAdapters` | library/src/main/java/com/twilio/video/VideoTrack.java:132-134 | the loop detaches exactly the adapters held in the map, one occurrence each |
| `RendererRegistry.AttachRegisters` | library/src/main/java/com/twilio/video/VideoTrack.java:60-64 | on a live track: `r` becomes registered with the new adapter; exactly that adapter is attached; other entries and the flags are unchanged; the key set grows by `r` only, so re-adding does not duplicate it; a replaced adapter becomes leaked |
| `RendererRegistry.AttachDetachAfterRelease` | library/src/main/java/com/twilio/video/VideoTrack.java:60-92 | on a released track, `addRenderer` and `removeRenderer` leave the state exactly as it was |
| `RendererRegistry.DetachUnregisters` | library/src/main/java/com/twilio/video/VideoTrack.java:84-89 | on a live track, removing a registered `r` drops only its entry and detaches exactly its adapter; an unregistered `r` changes nothing; leaked adapters are never reached |
| `RendererRegistry.DetachUndoesAttach` | library/src/main/java/com/twilio/video/VideoTrack.java:60-89 | on a live track, removing a renderer just added (and not held before) restores the registry and the engine attachments |
| `RendererRegistry.ReleaseDetachesHeld` | library/src/main/java/com/twilio/video/VideoTrack.java:130-137 | on a live track, release detaches exactly the held adapters (new attachments plus held = old attachments), empties the registry and sets released; leaked adapters stay attached |
| `RendererRegistry.ReleaseIdempotent` | library/src/main/java/com/twilio/video/VideoTrack.java:130-131 | releasing twice is the same as releasing once; releasing a released track changes nothing |
| `RendererRegistry.WithEnabledSetsOnlyFlag` | library/src/main/java/com/twilio/video/VideoTrack.java:126-128 | `setEnabled(e)` sets the flag to `e` and every other part of the state is as before |
| `RendererRegistry.StepPreservesValid` | library/src/main/java/com/twilio/video/VideoTrack.java:51-138 | every call keeps the invariant: adapters are distinct per renderer, held adapters are attached, and a released track holds nothing; it never shrinks the leaked adapters, keeps the track id and never resets released |
| `RendererRegistry.RunPreservesValid` | library/src/main/java/com/twilio/video/VideoTrack.java:51-138 | after any trace of calls, each creating a new adapter, the invariant holds and every adapter that was leaked is still attached |
| `RendererRegistry.ReleasedIsFinal` | library/src/main/java/com/twilio/video/VideoTrack.java:60-137 | from a released track, any trace leaves the registry empty, released set and the engine attachments unchanged; only the enabled flag can change |
| `RendererRegistry.ReleasedIsMonotone` | library/src/main/java/com/twilio/video/VideoTrack.java:33-136 | once released, the track stays released under any trace of calls |
| `RendererRegistry.TrackIdIsFixed` | library/src/main/java/com/twilio/video/VideoTrack.java:30-110 | `getTrackId()` answers the id taken at construction after any trace of calls |
| `RendererRegistry.EnabledIsLastSet` | library/src/main/java/com/twilio/video/VideoTrack.java:117-128 | `isEnabled()` answers the value of the most recent `setEnabled`, or the constructor's value when there was none |
| `RendererRegistry.ReAddLeavesFirstAdapterAttached` | library/src/main/java/com/twilio/video/VideoTrack.java:60-64 | add `r`, add `r` again, remove `r`, release: the registry is empty, but the first adapter is still attached to the engine track |

## Left out

- Frame delivery is not modelled: `VideoRendererCallbackAdapter.renderFrame` and the `I420Frame` wrapping (VideoTrack.java:140-151). An adapter is modelled only as the renderer it forwards to.
- The engine track (`org.webrtc.VideoTrack`) is a foreign object. The model keeps only its id and, as ghost state, the adapters this track attached to it. Renderers that other code attaches to the engine track are not modelled.
- `synchronized` (VideoTrack.java:51, 75, 130) is not modelled. Each method is one atomic step, and calls are sequential.
- The warnings logged after release (VideoTrack.java:66, 91) are not modelled. They have no effect on state.
- The null check on the renderer (`Preconditions.checkNotNull`, VideoTrack.java:52, 76) is not modelled. The type parameter `R` stands for non-null renderer references, but Dafny does not enforce that: a null renderer, and the exception the source throws for it, are outside the model.
- The `webrtcVideoTrack != null` test (VideoTrack.java:87) is not a branch in the model. The constructor already dereferences the engine track (line 42), so the test always holds.
- VideoTracks.VideoTrack.GetRenderers: does not state the order of the list, because the source copies the key set of a `HashMap`, whose order is unspecified.
- RendererRegistry.RunPreservesValid: holds only for traces in which every `addRenderer` creates an adapter not yet attached. The class meets this by allocating a fresh adapter on each call.
- `BaseTrackStats` is not part of this model. Its five fields are inferred from the `super(...)` call at TrackStats.java:18, and its constructor is taken to store them.
- The statistics strings may be `null` in Java. The model uses plain strings.
- The rest of the repository is not part of this model: rooms, participants and track publications, the JNI bridges and the app layer.

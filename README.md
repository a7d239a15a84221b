# stageDJ core, modelled in Dafny

stageDJ is a browser toy in which performers ("roles") stand on a stage. Dropping an
outfit on a performer requests a swap. The swap is quantized to the next musical
boundary: the next bar, or the end of the loop the performer is playing. At that boundary
the performer's visual outfit is committed and its audio loop is crossfaded in.

This project models the parts of the program that decide *what happens and when*:

- **`TransportClock`** (`transport.dfy`): the `Transport` clock.
  - Bpm, start anchor, beat and bar lengths.
  - Snapshots, giving the beat within the bar and the bar number.
  - The next bar, beat and loop-cycle boundary.
- **`Scene`** (`scene_store.dfy`): the `SceneStore`, meaning the swap mode, the list of
  performer instances and the last error. It also has the upsert and remove operations
  on instances.
- **`Assets`** (`asset_manager.dfy`): the `AssetManager` catalog of roles, outfits and
  loops.
  - What `loadAll` does with the three catalog files.
  - Referential-integrity validation: the first violation found, roles first, then
    outfits.
  - The lookups and listings.
- **`Audio`** (`audio_engine.dfy`): the `AudioEngine` crossfade scheduler.
  - The Web Audio graph is modelled as data. Each gain parameter keeps the automation
    calls made on it, and each buffer source keeps its start and stop times.
  - The engine's whole state is an `EngineState` value. Each method is proved equal to a
    transition function on that value, and the lemmas state what the transition
    functions guarantee.
- **`Stage`** (`stage_renderer.dfy`): the non-drawing logic of `StageRenderer`.
  - The drop handler that requests a swap, and the per-tick commit pass.
  - Spawning or moving a performer, the mute tap, clamping to the stage, and picking the
    nearest performer under the cursor.
- **`Debug`** (`debug_overlay.dfy`): the swap-mode toggle button and the `escapeHtml`
  helper of the debug overlay.
- Shared pieces:
  - **`Types`**: the records of `src/core/state/types.ts`.
  - **`JsArrays`**: `findIndex` and `filter`.
  - **`JsMaps`**: a JavaScript `Map` with insertion order.
  - **`Wrappers`**: `Option` and `Outcome`.

JavaScript numbers are modelled as `real`. `Math.floor` and `Math.ceil` are modelled as
`.Floor`, and JavaScript `%` on the non-negative beat count as Dafny's `%`. The clocks are
passed in as parameters:
- `performance.now()` is `nowMs`;
- `ctx.currentTime` is `deviceNow`, plus the `DeviceStart` readings taken while the
  engine starts.

Also passed in as parameters:
- the result of fetching and decoding a loop file (`FetchResult`);
- the fresh id produced by `uuid()`;
- the renderer size.

Methods that `await` are modelled as running to completion in program order.

Three behaviours of the code that are easy to misread:

- **Time anchor.** On start and on resume, the audio engine anchors its wall-to-device
  time map at the transport's start time (`transport.getStartMs()`), paired with the
  device time at that moment, not at the current wall-clock instant
  (src/core/audio/AudioEngine.ts:44-45, 51-52). `Audio.StartAnchorsTransportStart`
  states the anchor as written.
- **Fetch and decode failures.** A failed fetch or decode of a loop is not reported.
  `scheduleOutfitChangeAt` neither awaits nor returns the promise of `scheduleSwapLoopAt`
  (src/core/audio/AudioEngine.ts:103), so the rejection never reaches the
  `.catch` in `handleDropOutfit`. The swap then changes nothing beyond creating the
  track (`Audio.FailedFetchChangesNothing`).
- **Last-write-wins.** It holds for the scene: the second request replaces the first
  (`Stage.LastRequestWins`). The code does not tag scheduled audio with a generation, so
  each accepted drop schedules its own audio change.

## Model

| member | source | states |
|---|---|---|
| Types.OrNull | src/core/assets/AssetManager.ts:84 | `x ?? null` collapses an absent field and `null` to "nothing", and keeps a present value |
| JsArrays.FindIndex | src/core/state/SceneStore.ts:27 | `findIndex` gives the first index whose element passes, with nothing before it passing, or -1 exactly when no element passes |
| JsArrays.Filter | src/core/state/SceneStore.ts:34 | `filter` returns only elements of the input that pass, includes every passing element, and is never longer than the input |
| JsArrays.FilterAppend | src/core/state/SceneStore.ts:34 | filtering distributes over concatenation, so the survivors keep their relative order |
| JsArrays.FilterAll | src/core/state/SceneStore.ts:34 | when every element passes, the filter returns the input unchanged |
| JsArrays.FilterNone | src/core/state/SceneStore.ts:34 | when no element passes, the filter returns the empty list |
| JsArrays.KeptPositions | src/core/assets/AssetManager.ts:44 | the positions `filter` keeps are increasing, each holds a passing element, and every passing position is among them |
| JsArrays.FilterAtKeptPositions | src/core/assets/AssetManager.ts:44 | `filter` returns the input read at the kept positions, in order |
| JsMaps.JsMap.Get | src/core/assets/AssetManager.ts:29-37 | `get` returns the stored entry for a known key and `undefined` for any other |
| JsMaps.JsMap.Set | src/core/assets/AssetManager.ts:22-24 | `set` stores the value under the key and leaves every other key as it was; a new key is appended to the enumeration order, and an existing key keeps its position |
| JsMaps.JsMap.Values | src/core/assets/AssetManager.ts:39-41 | `[...values()]` has one value per key, in key order |
| JsMaps.Empty | src/core/assets/AssetManager.ts:8-10 | a fresh `Map` has no keys and no entries |
| JsMaps.ValuesExactly | src/core/assets/AssetManager.ts:39-41 | a value is listed by `values()` exactly when some key maps to it |
| JsMaps.SetAll | src/core/assets/AssetManager.ts:22-24 | the loading loop keeps the map well formed: each key is listed once, and exactly the stored keys are listed |
| JsMaps.SetAllStep | src/core/assets/AssetManager.ts:22-24 | one more loop iteration is one more `set` of the next element under its key |
| JsMaps.SetEach | src/core/assets/AssetManager.ts:22-24 | the imperative `for … of` loop of `set` calls computes the same map as the specification `SetAll` |
| JsMaps.SetAllLastWins | src/core/assets/AssetManager.ts:22-24 | with duplicate keys in a catalog file, the entry kept is the last element carrying that key |
| JsMaps.SetAllKeepsOthers | src/core/assets/AssetManager.ts:22-24 | a key that no loaded element carries keeps its previous entry |
| TransportClock.Elapsed | src/core/transport/Transport.ts:47 | elapsed time is never negative, and equals `now - start` from the start on |
| TransportClock.NextBoundary | src/core/transport/Transport.ts:65-90 | the shared boundary formula; its contract is stated by `NextBoundaryBounds`, `NextBoundaryOnGrid`, `NextBoundaryWhenAligned`, `NextBoundaryBeforeStart` and `NextBoundaryMonotonic` |
| TransportClock.NextBoundaryBounds | src/core/transport/Transport.ts:65-90 | the next boundary is at or after both now and the start, strictly less than one period after now once the clock has started, and no later than any grid point at or after now (the earliest such point) |
| TransportClock.NextBoundaryOnGrid | src/core/transport/Transport.ts:65-90 | the next boundary is a whole number of periods after the start |
| TransportClock.NextBoundaryWhenAligned | src/core/transport/Transport.ts:65-90 | a time already on the grid is its own next boundary |
| TransportClock.NextBoundaryBeforeStart | src/core/transport/Transport.ts:65-90 | at or before the start, the next boundary is the start itself |
| TransportClock.NextBoundaryMonotonic | src/core/transport/Transport.ts:65-90 | a later now never gives an earlier boundary |
| TransportClock.BarIndexOf | src/core/transport/Transport.ts:51 | bar numbers start at 1 and go up by one every four beats |
| TransportClock.BeatInBarAdvances | src/core/transport/Transport.ts:49-50 | the beat within the bar runs 1, 2, 3, 4 and wraps back to 1, and the bar number goes up exactly when it wraps |
| TransportClock.Transport.constructor | src/core/transport/Transport.ts:16-19 | the clock starts with the given bpm, anchored at the construction instant |
| TransportClock.Transport.SetBpm | src/core/transport/Transport.ts:21-23 | changes the tempo and keeps the start anchor |
| TransportClock.Transport.Restart | src/core/transport/Transport.ts:32-34 | re-anchors the start at now and keeps the tempo |
| TransportClock.Transport.MsPerBeat | src/core/transport/Transport.ts:36-38 | a beat is positive, and one beat times the bpm is a minute |
| TransportClock.Transport.MsPerBar | src/core/transport/Transport.ts:40-42 | a bar is four beats |
| TransportClock.Transport.Snapshot | src/core/transport/Transport.ts:44-62 | a snapshot reports the tempo and now; its elapsed time is 0 or exactly `now - start`, never negative and never below `now - start`; the whole beats elapsed are `4 * (bar - 1) + (beat - 1)` and the bar number is one more than the whole bars elapsed; its bar is four of its beats, and a beat times the bpm is a minute |
| TransportClock.Transport.CycleMs | src/core/transport/Transport.ts:86 | a loop cycle of a positive number of bars has positive length |
| TransportClock.Transport.NextBarTime | src/core/transport/Transport.ts:65-70 | stated by `NextBarTimeBounds`, `AlignedReturnsNow`, `BeforeStartReturnsStart` and `OneBarLoopIsBar` |
| TransportClock.Transport.NextBeatTime | src/core/transport/Transport.ts:73-78 | stated by `NextBeatTimeBounds`, `AlignedReturnsNow` and `BeforeStartReturnsStart` |
| TransportClock.Transport.NextLoopBoundaryTime | src/core/transport/Transport.ts:84-90 | stated by `NextLoopBoundaryOnGrid`, `OneBarLoopIsBar`, `AlignedReturnsNow` and `BeforeStartReturnsStart` |
| TransportClock.BarIndexMonotonic | src/core/transport/Transport.ts:44-62 | the bar number never decreases as time goes on |
| TransportClock.NextBarTimeBounds | src/core/transport/Transport.ts:65-70 | `nextBarTime` is at or after both now and the start, less than one bar after now once started, and on the bar grid |
| TransportClock.NextBeatTimeBounds | src/core/transport/Transport.ts:73-78 | `nextBeatTime` is at or after both now and the start, less than one beat after now once started, and on the beat grid |
| TransportClock.NextLoopBoundaryOnGrid | src/core/transport/Transport.ts:84-90 | the loop boundary is at or after now, a whole number of cycles after the start, and also a bar boundary |
| TransportClock.OneBarLoopIsBar | src/core/transport/Transport.ts:84-90 | a one-bar loop cycle gives the same boundary as the next bar |
| TransportClock.AlignedReturnsNow | src/core/transport/Transport.ts:65-90 | exactly on a loop boundary, the next loop, bar and beat boundaries are all now |
| TransportClock.BeforeStartReturnsStart | src/core/transport/Transport.ts:65-90 | before the start, every next boundary is the start |
| TransportClock.Example120Bpm | src/core/transport/Transport.ts:36-62 | at 120 bpm a beat is 500 ms and a bar 2000 ms, and 2500 ms after the start is beat 2 of bar 2 |
| Scene.IndexOfId | src/core/state/SceneStore.ts:27 | gives the first position holding the id, with nothing before it holding it, or -1 exactly when the id is absent |
| Scene.Upserted | src/core/state/SceneStore.ts:26-31 | the list grows by at most one and holds the upserted instance; `UpsertExisting`, `UpsertNew`, `UpsertThenFind` and `UpsertKeepsDistinct` state the rest |
| Scene.Without | src/core/state/SceneStore.ts:33-36 | never longer than the list, and every survivor is an old entry with another id; `WithoutRemoves`, `WithoutAt`, `WithoutAbsent` and `WithoutKeepsDistinct` state the rest |
| Scene.UpsertExisting | src/core/state/SceneStore.ts:26-31 | upserting a known id replaces exactly its entry in place: same length, every other entry kept |
| Scene.UpsertNew | src/core/state/SceneStore.ts:26-31 | upserting an unknown id appends the instance and keeps everything before it |
| Scene.UpsertThenFind | src/core/state/SceneStore.ts:26-31 | after an upsert, looking the id up finds exactly the upserted value |
| Scene.UpsertKeepsDistinct | src/core/state/SceneStore.ts:26-31 | upsert never creates a second entry for one instance id |
| Scene.WithoutRemoves | src/core/state/SceneStore.ts:33-36 | after removal no entry has the id, and every entry with another id survives |
| Scene.WithoutAt | src/core/state/SceneStore.ts:33-36 | removing an id held once deletes that one entry and keeps the others in order |
| Scene.WithoutAbsent | src/core/state/SceneStore.ts:33-36 | removing an id nobody has changes nothing |
| Scene.WithoutKeepsDistinct | src/core/state/SceneStore.ts:33-36 | removal keeps instance ids unique |
| Scene.SceneStore.constructor | src/core/state/SceneStore.ts:6 | the store starts in loop mode with no instances and no error |
| Scene.SceneStore.GetState | src/core/state/SceneStore.ts:9-11 | the snapshot holds the mode, the instances and the last error as stored |
| Scene.SceneStore.SetSwapMode | src/core/state/SceneStore.ts:21-24 | sets the mode and nothing else |
| Scene.SceneStore.UpsertInstance | src/core/state/SceneStore.ts:26-31 | the instances become the upsert of the old list (replace by id, else append); mode and error are unchanged |
| Scene.SceneStore.RemoveInstance | src/core/state/SceneStore.ts:33-36 | the instances become the old list without the id; mode and error are unchanged |
| Scene.SceneStore.SetError | src/core/state/SceneStore.ts:38-41 | sets the last error (a message or `null`) and nothing else |
| Assets.FirstRoleViolationAt | src/core/assets/AssetManager.ts:74-78 | if the first role with a violation is at position i, the role check reports exactly that role's error |
| Assets.RoleViolation | src/core/assets/AssetManager.ts:74-78 | a role has no violation exactly when its default outfit exists and belongs to it |
| Assets.OutfitViolation | src/core/assets/AssetManager.ts:80-94 | stated by `OutfitViolationIffUnsound`: rejected exactly when the role is missing, or the non-null loop is missing or of another category |
| Assets.FirstOutfitViolationAt | src/core/assets/AssetManager.ts:80-94 | if the first outfit with a violation is at position i, the outfit check reports exactly that outfit's error |
| Assets.OutfitViolationIffUnsound | src/core/assets/AssetManager.ts:80-94 | an outfit is rejected exactly when its role is missing, or its non-null loop is missing or of another category |
| Assets.NoRoleViolation | src/core/assets/AssetManager.ts:74-78 | the role check passes exactly when no role has a violation |
| Assets.NoOutfitViolation | src/core/assets/AssetManager.ts:80-94 | the outfit check passes exactly when no outfit has a violation |
| Assets.RolePassIffIntegrity | src/core/assets/AssetManager.ts:74-78 | the role loop passes exactly when every role's default outfit exists and belongs to it |
| Assets.OutfitPassIffIntegrity | src/core/assets/AssetManager.ts:80-94 | the outfit loop passes exactly when every outfit's role exists and its loop, if any, exists with the role's category |
| Assets.ValidateIffIntegrity | src/core/assets/AssetManager.ts:72-95 | `validate` throws nothing exactly when the catalog has full referential integrity |
| Assets.OutfitsForRole | src/core/assets/AssetManager.ts:43-45 | the listing holds exactly the catalogued outfits of that role; its i-th entry is the outfit stored under the i-th key of that role in catalog order, so each is listed once |
| Assets.AssetManager.constructor | src/core/assets/AssetManager.ts:7-11 | the catalog starts empty with project bpm 140 |
| Assets.AssetManager.LoadAll | src/core/assets/AssetManager.ts:13-27 | the project bpm is the loops file's bpm, or 140 when absent; each catalog becomes the old map with the file's entries set in order; the result is what validation of the loaded catalog yields |
| Assets.AssetManager.Validate | src/core/assets/AssetManager.ts:72-95 | reports the first role violation, else the first outfit violation, else success |
| Assets.AssetManager.ValidateRoles | src/core/assets/AssetManager.ts:74-78 | the role loop stops at the first role whose default outfit is missing or belongs to another role |
| Assets.AssetManager.ValidateOutfits | src/core/assets/AssetManager.ts:80-94 | the outfit loop stops at the first outfit with a missing role, a missing loop or a category mismatch |
| Assets.AssetManager.GetRole | src/core/assets/AssetManager.ts:29-31 | the stored role for a catalogued id, nothing for any other |
| Assets.AssetManager.GetOutfit | src/core/assets/AssetManager.ts:32-34 | the stored outfit for a catalogued id, nothing for any other |
| Assets.AssetManager.GetLoop | src/core/assets/AssetManager.ts:35-37 | the stored loop for a catalogued id, nothing for any other |
| Assets.AssetManager.ListRoles | src/core/assets/AssetManager.ts:39-41 | one role per catalogued key, in key order |
| Assets.AssetManager.ListOutfitsForRole | src/core/assets/AssetManager.ts:43-45 | only outfits of that role from the catalog, and every one of them |
| Audio.WithTrack | src/core/audio/AudioEngine.ts:57-70 | once started, the instance always has a track afterwards |
| Audio.StopSource | src/core/audio/AudioEngine.ts:121-127 | stopping a source keeps the list of sources the same length |
| Audio.StartedKeepsWellFormed | src/core/audio/AudioEngine.ts:36-54 | after `ensureStarted` the context is running, master and time map exist, and tracks, sources and cache are untouched |
| Audio.WithTrackKeepsWellFormed | src/core/audio/AudioEngine.ts:57-70 | creating a track keeps the engine consistent |
| Audio.SetMutedKeepsWellFormed | src/core/audio/AudioEngine.ts:72-82 | a mute change keeps the engine consistent |
| Audio.StopKeepsWellFormed | src/core/audio/AudioEngine.ts:107-134 | a scheduled stop keeps the engine consistent |
| Audio.SwapWithBufferKeepsWellFormed | src/core/audio/AudioEngine.ts:147-201 | the crossfade commit keeps the engine consistent, records the new loop as current, and leaves context and cache alone |
| Audio.SwapKeepsWellFormed | src/core/audio/AudioEngine.ts:137-202 | a loop swap keeps the engine consistent |
| Audio.OutfitChangeKeepsWellFormed | src/core/audio/AudioEngine.ts:85-104 | an outfit change keeps the engine consistent |
| Audio.AudioSecMapping | src/core/audio/AudioEngine.ts:222-229 | once anchored, the wall-to-device map is strictly increasing, sends the wall anchor to the device anchor, and converts milliseconds to seconds |
| Audio.AudioSecFallback | src/core/audio/AudioEngine.ts:223-226 | without an anchor, the map falls back to the device's current time, or to 0 with no context |
| Audio.AudioSecOf | src/core/audio/AudioEngine.ts:222-229 | the wall-to-device map; stated by `AudioSecMapping` and `AudioSecFallback` |
| Audio.StartedSpec | src/core/audio/AudioEngine.ts:36-54 | the start transition; stated by `StartedKeepsWellFormed`, `StartAnchorsTransportStart`, `StartWhenRunningIsNoOp` and `ResumeReanchors` |
| Audio.SetMutedSpec | src/core/audio/AudioEngine.ts:72-82 | the mute transition; stated by `SetMutedIgnoredBeforeStart`, `SetMutedEffect`, `MuteThenUnmute`, `SetMutedOnlyGrows` and `SetMutedKeepsWellFormed` |
| Audio.StopSpec | src/core/audio/AudioEngine.ts:107-134 | the stop transition; stated by `StopEffect`, `StopOnlyGrows` and `StopKeepsWellFormed` |
| Audio.GetBufferSpec | src/core/audio/AudioEngine.ts:204-220 | the buffer lookup; stated by `GetBufferCached`, `GetBufferUnknown` and `GetBufferLoads` |
| Audio.SwapWithBuffer | src/core/audio/AudioEngine.ts:147-201 | the crossfade commit; stated by `SwapNewLoopEffect`, `SwapWithBufferOnlyAppends` and `SwapWithBufferKeepsWellFormed` |
| Audio.SwapLoopSpec | src/core/audio/AudioEngine.ts:137-202 | the loop swap; stated by `SwapSameLoopIsNoOp`, `FailedFetchChangesNothing`, `SwapPlaysLoop`, `SwapOnlyGrows` and `SwapKeepsWellFormed` |
| Audio.OutfitChangeSpec | src/core/audio/AudioEngine.ts:85-104 | the outfit change; stated by `OutfitChangeUnknownOutfit`, `OutfitChangeWithoutLoopStops`, `OutfitChangeWithLoopPlaysIt`, `OutfitChangeOnlyGrows` and `OutfitChangeKeepsWellFormed` |
| Audio.StartAnchorsTransportStart | src/core/audio/AudioEngine.ts:36-54 | the first start leaves a running context with master level 0.9, and the transport start maps to the device time at creation, or after the resume when the new context starts suspended |
| Audio.StartWhenRunningIsNoOp | src/core/audio/AudioEngine.ts:36-54 | an engine whose context still reports running is left exactly as it was |
| Audio.ResumeReanchors | src/core/audio/AudioEngine.ts:48-53 | a context found suspended after creation is resumed and the time map re-anchored: the transport start maps to the device time after the resume, and master, tracks, sources and cache are untouched |
| Audio.EnsureTrackOnce | src/core/audio/AudioEngine.ts:57-70 | a track is created at most once, at unity gain with no source, no loop and unmuted |
| Audio.SetMutedIgnoredBeforeStart | src/core/audio/AudioEngine.ts:73 | before start, `setMuted` changes nothing |
| Audio.SetMutedEffect | src/core/audio/AudioEngine.ts:72-82 | records the flag and appends cancel, hold-the-live-value and a 30 ms ramp to 0 (muted) or 1; no other track, source or the cache changes |
| Audio.MuteThenUnmute | src/core/audio/AudioEngine.ts:72-82 | mute then unmute leaves the track unmuted, its last event a ramp back to exactly 1 |
| Audio.StopEffect | src/core/audio/AudioEngine.ts:107-134 | fades the track to 0 by the boundary, stops its source 10 ms after the boundary, forgets source and loop, and restores gain (0 when muted) 120 ms after the boundary |
| Audio.GetBufferCached | src/core/audio/AudioEngine.ts:207-208 | a cached buffer is returned whatever a fetch would do, and nothing changes |
| Audio.GetBufferUnknown | src/core/audio/AudioEngine.ts:210-211 | a loop that is neither cached nor catalogued yields `null` and changes nothing |
| Audio.GetBufferLoads | src/core/audio/AudioEngine.ts:213-219 | a successful decode caches the buffer under its loop id and returns it; a failed fetch or decode rejects and caches nothing |
| Audio.SwapSameLoopIsNoOp | src/core/audio/AudioEngine.ts:142 | swapping to the loop already playing creates no source and no gain event |
| Audio.SwapNewLoopEffect | src/core/audio/AudioEngine.ts:147-201 | a new loop becomes a looping source that starts at the later of now + 10 ms and the boundary, fades in from 0.0001 over 60 ms, and becomes the track's current source and loop; an old source is stopped 10 ms after the boundary with the track faded out and restored; with no old source, the track gain is set to its mute-respecting level |
| Audio.FailedFetchChangesNothing | src/core/audio/AudioEngine.ts:137-145 | a failed fetch of an uncached loop leaves everything but track creation untouched |
| Audio.OutfitChangeUnknownOutfit | src/core/audio/AudioEngine.ts:92-93 | an unknown outfit does nothing beyond starting the engine |
| Audio.OutfitChangeWithoutLoopStops | src/core/audio/AudioEngine.ts:95-100 | an outfit whose loop is absent or `null` stops the track: no current source or loop afterwards |
| Audio.SwapPlaysLoop | src/core/audio/AudioEngine.ts:137-202 | with the buffer cached or decodable, the track ends up playing the requested loop |
| Audio.OutfitChangeWithLoopPlaysIt | src/core/audio/AudioEngine.ts:85-104 | an outfit with a catalogued, loadable loop ends with the track playing that loop |
| Audio.SetMutedOnlyGrows | src/core/audio/AudioEngine.ts:72-82 | a mute change evicts no cached buffer and only appends automation |
| Audio.StopOnlyGrows | src/core/audio/AudioEngine.ts:107-134 | a stop evicts no cached buffer and only appends automation |
| Audio.SwapWithBufferOnlyAppends | src/core/audio/AudioEngine.ts:166-201 | the crossfade keeps every existing source's buffer, start time and fade automation, only appends to track gains, and adds one source |
| Audio.SwapOnlyGrows | src/core/audio/AudioEngine.ts:137-202 | a swap evicts no cached buffer and rewrites no past automation |
| Audio.OutfitChangeOnlyGrows | src/core/audio/AudioEngine.ts:85-104 | an outfit change evicts no cached buffer and rewrites no past automation |
| Audio.AudioEngine.constructor | src/core/audio/AudioEngine.ts:17-33 | the engine starts with no context, no tracks, no sources, an empty cache and no time map |
| Audio.AudioEngine.EnsureStarted | src/core/audio/AudioEngine.ts:36-54 | the new state is the start transition of the old one (create on first call, resume and re-anchor whenever the context reports suspended), and the engine stays consistent |
| Audio.AudioEngine.EnsureTrack | src/core/audio/AudioEngine.ts:57-70 | fails with "AudioEngine not started" exactly when there is no context, changing nothing; otherwise it gets or creates the track |
| Audio.AudioEngine.SetMuted | src/core/audio/AudioEngine.ts:72-82 | the new state is the mute transition of the old one |
| Audio.AudioEngine.ScheduleOutfitChangeAt | src/core/audio/AudioEngine.ts:85-104 | the new state is the outfit-change transition of the old one, over the loaded catalog |
| Audio.AudioEngine.ScheduleStopAt | src/core/audio/AudioEngine.ts:107-134 | the new state is the stop transition of the old one |
| Audio.AudioEngine.ScheduleSwapLoopAt | src/core/audio/AudioEngine.ts:137-202 | the new state is the swap transition of the old one |
| Audio.AudioEngine.CommitSwap | src/core/audio/AudioEngine.ts:147-201 | the new state is the crossfade commit of the old one, and the engine stays consistent |
| Audio.AudioEngine.GetBuffer | src/core/audio/AudioEngine.ts:204-220 | the result and the new state are the buffer-lookup transition of the old state |
| Stage.ClampToStage | src/stage/StageRenderer.ts:275-280 | the clamped point lies 60 px inside the sides and 90 px inside the top and bottom when the stage is large enough, and sits on the lower margin otherwise |
| Stage.ClampKeepsInside | src/stage/StageRenderer.ts:275-280 | a point inside the margins is not moved, so clamping is idempotent |
| Stage.StageHeight | src/stage/StageRenderer.ts:141-147 | the stage is the renderer height less the whole-pixel tray of 18%: at least 82% of the height and less than one pixel more |
| Stage.CommitOne | src/stage/StageRenderer.ts:105-115 | a due swap installs its outfit and the performer performs; nothing is due afterwards; a performer with nothing due is unchanged; id, role, position and mute flag never change |
| Stage.FindNearestInstance | src/stage/StageRenderer.ts:351-367 | `null` exactly when no performer lies within the radius; otherwise a performer within the radius that no performer beats, with no later one as close (ties go to the later entry) |
| Stage.CurrentBars | src/stage/StageRenderer.ts:424-427 | the loop length used for quantization is always 1, 2, 4 or 8 bars |
| Stage.SwapTimeDependsOnOutfitOnly | src/stage/StageRenderer.ts:420-430 | the chosen boundary depends on the performer only through its current outfit |
| Stage.CommitDue | src/stage/StageRenderer.ts:101-119 | a commit pass keeps the number of instances |
| Stage.CommitDueEffect | src/stage/StageRenderer.ts:101-119 | a pass commits each due swap (outfit installed, pending cleared, performing) and leaves the others untouched; ids, roles, positions and mute flags never change |
| Stage.CommitDueIdempotent | src/stage/StageRenderer.ts:101-119 | after a pass nothing is due, so a second pass at the same instant changes nothing |
| Stage.CommitDueLater | src/stage/StageRenderer.ts:101-119 | passes at t1 and then t2 >= t1 equal one pass at t2, so each swap commits once |
| Stage.CommitDueKeepsDistinct | src/stage/StageRenderer.ts:101-119 | a pass keeps instance ids unique |
| Stage.DropUnknownInstance | src/stage/StageRenderer.ts:397-399 | a drop on an unknown performer changes nothing |
| Stage.DropUnknownOutfit | src/stage/StageRenderer.ts:401-402 | an unknown outfit records "Unknown outfitId: …" and changes no instance and not the mode |
| Stage.DropRoleMismatch | src/stage/StageRenderer.ts:404-407 | an outfit of another role records the mismatch message and changes no instance |
| Stage.DropAccepted | src/stage/StageRenderer.ts:409-433 | an accepted drop puts only that performer into transition towards the outfit, at the chosen boundary, in the current mode; it keeps its current outfit until the commit, and the error is cleared |
| Stage.DropBoundary | src/stage/StageRenderer.ts:420-430 | bar mode waits for the next bar; loop mode waits for the end of the current loop's cycle, so a performer with a catalogued loop waits that loop's bars, and one without a playable loop (neutral, an uncatalogued outfit, an absent, null or empty loop id, or an uncatalogued loop) waits one bar, the next bar |
| Stage.LastRequestWins | src/stage/StageRenderer.ts:409-433 | a second accepted drop before the commit leaves no trace of the first request |
| Stage.DropThenCommit | src/stage/StageRenderer.ts:409-433 | an accepted request is committed by the first pass at or after its boundary, and not by any earlier one |
| Stage.Dropped | src/stage/StageRenderer.ts:396-439 | the drop transition; stated by `DropUnknownInstance`, `DropUnknownOutfit`, `DropRoleMismatch`, `DropAccepted`, `DropBoundary`, `LastRequestWins` and `DropThenCommit` |
| Stage.PlaceUnknownRole | src/stage/StageRenderer.ts:250-251 | an unknown role records "Unknown roleId: …" and changes no instance |
| Stage.PlaceExistingMoves | src/stage/StageRenderer.ts:253-260 | a role already on stage has its first performer moved to the clamped point, with nothing else changed |
| Stage.PlaceNewAppends | src/stage/StageRenderer.ts:262-272 | a role not yet on stage gets a new idle, neutral, unmuted performer with nothing pending, at the clamped point and appended |
| Stage.Placed | src/stage/StageRenderer.ts:249-273 | the spawn-or-move transition; stated by `PlaceUnknownRole`, `PlaceExistingMoves` and `PlaceNewAppends` |
| Stage.MuteToggled | src/stage/StageRenderer.ts:523-536 | only the first performer with that id has its mute flag flipped; mode, error and length are kept (and `ToggleMuteAgrees`) |
| Stage.ToggleMuteAgrees | src/stage/StageRenderer.ts:523-536 | tapping twice restores the scene, and after a tap the scene's mute flag and the audio track's flag agree |
| Stage.StageRenderer.constructor | src/stage/StageRenderer.ts:42-50 | the renderer is wired to one store, catalog, clock and audio engine that share the catalog and clock |
| Stage.StageRenderer.ProcessPendingSwaps | src/stage/StageRenderer.ts:101-119 | the loop over instances leaves exactly the commit pass of the old list; mode and error are unchanged |
| Stage.StageRenderer.HandleDropOutfit | src/stage/StageRenderer.ts:396-439 | the scene becomes the drop transition of the old scene; the audio changes by the outfit-change transition at the chosen boundary exactly when the drop is accepted |
| Stage.StageRenderer.RequestSwap | src/stage/StageRenderer.ts:409-433 | marks the instance as transitioning with its pending swap at the chosen boundary, and clears the error |
| Stage.StageRenderer.ChooseSwapTime | src/stage/StageRenderer.ts:418-430 | returns the next bar or loop boundary for the instance as it stands |
| Stage.StageRenderer.CreateOrMoveRoleInstance | src/stage/StageRenderer.ts:249-273 | the scene becomes the spawn-or-move transition, clamped to the stage height left above the tray |
| Stage.StageRenderer.ToggleMute | src/stage/StageRenderer.ts:523-536 | flips the performer's stored mute flag, then starts audio and applies the flag to that performer's track |
| Debug.Entity | src/core/debug/DebugOverlay.ts:83-91 | each of the five special characters becomes an `&…;` entity, and any other character stands for itself |
| Debug.EscapeTable | src/core/debug/DebugOverlay.ts:83-91 | the replacement table: `&` to `&amp;`, `<` to `&lt;`, `>` to `&gt;`, `"` to `&quot;`, `'` to `&#039;`, and a one-character text escapes to its entity |
| Debug.EscapeHtml | src/core/debug/DebugOverlay.ts:83-91 | stated by `EscapeAppend`, `EscapeRemovesMarkup`, `EscapeLength`, `EscapeIdentity` and `UnescapeEscape` |
| Debug.EscapeAppend | src/core/debug/DebugOverlay.ts:83-91 | escaping distributes over concatenation |
| Debug.EscapeRemovesMarkup | src/core/debug/DebugOverlay.ts:83-91 | the escaped text contains no `<`, `>`, `"` or `'` |
| Debug.EscapeLength | src/core/debug/DebugOverlay.ts:83-91 | escaping never shortens, and keeps the length exactly when nothing needs escaping |
| Debug.EscapeIdentity | src/core/debug/DebugOverlay.ts:83-91 | text without special characters is copied unchanged |
| Debug.DecodeOne | src/core/debug/DebugOverlay.ts:83-91 | the entity decoder always consumes at least one and at most the available characters |
| Debug.UnescapeEscape | src/core/debug/DebugOverlay.ts:83-91 | escaping loses nothing: decoding the escaped text gives back the original |
| Debug.ToggledMode | src/core/debug/DebugOverlay.ts:44-47 | the toggle always changes the mode |
| Debug.ToggleTwice | src/core/debug/DebugOverlay.ts:44-47 | toggling twice restores the mode |
| Debug.DebugOverlay.constructor | src/core/debug/DebugOverlay.ts:44-47 | the overlay is bound to its store |
| Debug.DebugOverlay.OnToggleClick | src/core/debug/DebugOverlay.ts:44-47 | a click switches the store between bar and loop mode and changes nothing else |

## Left out

- Drawing with PIXI is not modelled, because it only presents state and the model covers what it shows. This covers the stage and tray backgrounds, sprites, labels, badges, the idle animation, the target halo, `pulseAccent` and `pulseReject`.
- Dragging from the tray is not modelled; only its outcome, a call to the drop handler with the nearest performer, is. Sprite hit-testing is `Stage.FindNearestInstance`, with `dragTargetRadiusPx` (140) passed as a parameter.
- `spawnDefaultBandLineup` and `layoutInstances` are not modelled. They compute screen positions and call `createOrMoveRoleInstance`, which is modelled.
- `SceneStore.subscribe`, `emit` and listeners are left out: there are no observers in the model. `structuredClone` copies are modelled by value semantics, since every snapshot is a value.
- The HTTP and JSON side of `fetchJson` is left out. Catalog loading takes the three parsed files as parameters, and the model does not include the fetch, parse and empty-body errors.
- Fetching and decoding a loop file is one `FetchResult` parameter. The URL normalisation (`"/" + file without leading slashes`) and the bytes of a decoded buffer are not modelled.
- The Web Audio node graph is modelled as data: gain nodes, `connect` and the destination. A gain of `Math.pow(10, gainDb / 20)` is the uninterpreted level `Decibels(gainDb)`, because the model has no real exponentiation. `param.value` read at the time of a call is the level `Live`.
- `AudioBufferSourceNode.stop` throwing is not modelled: the caught and ignored error has no effect on the state.
- Async interleaving is left out: an `await` runs to completion before the next operation. Two overlapping swaps for one track, with a fetch pending, are therefore not covered.
- Audio.AudioEngine.EnsureStarted: `resume()` always succeeds; a rejected resume is not modelled. Whether the context reports `"suspended"` is a parameter of each call.
- The "Audio schedule failed" and "Audio mute failed" error paths of the stage are not modelled, because in this model nothing they catch is ever raised. The swap promise is not chained (src/core/audio/AudioEngine.ts:103), and start-up and `setMuted` cannot fail once started.
- Tempo and loop length are assumed positive. `Transport` requires `bpm > 0` and the loop-boundary functions require `cycleBars > 0`; the source does not check either, and division by zero there yields `Infinity`/`NaN`.
- `main.ts` wiring is not modelled. It builds the `StageRenderer` without its fifth argument, the audio engine (src/main.ts:27), although the constructor declares one (src/stage/StageRenderer.ts:42). The model's renderer is always given an engine.
- The debug overlay's DOM rendering (`renderStatic`, list formatting) is not modelled. Only the toggle handler and `escapeHtml` are.
- `Transport.getBpm` and `getStartMs` are not separate members: they are the fields `bpm` and `startMs`.
- `RoleDef.maxInstances`, `energy` and the visual and animation fields are carried as data but not used by any modelled operation.

/**
 * The crossfade scheduler (src/core/audio/AudioEngine.ts). The Web Audio graph is modelled
 * as data: each `AudioParam` is its initial value plus the automation calls made on it, in
 * order; each `AudioBufferSourceNode` is a record of its buffer, its own fade-gain parameter
 * and its start and stop times. The device clock `ctx.currentTime` and the outcome of
 * fetching and decoding a loop file are parameters.
 *
 * `EngineState` is the engine's whole state as a value; every method of `AudioEngine` is
 * specified by a function from the old `EngineState` to the new one, and the lemmas below
 * state what those functions guarantee.
 */
module Audio {
  import opened Wrappers
  import opened Types
  import opened TransportClock
  import opened Assets

  /** The level an automation event moves to. */
  datatype Level =
    | Fixed(v: real)       // a literal value
    | Live                 // `param.value` read when the call is made: known only to the audio thread
    | Decibels(db: real)   // `Math.pow(10, db / 20)`, left uninterpreted

  datatype ParamEvent =
    | Cancel(cancelTime: real)
    | SetAt(level: Level, startTime: real)
    | RampTo(level: Level, endTime: real)

  /** An `AudioParam`: the value assigned when its node was created, then every automation call. */
  datatype AudioParam = AudioParam(value: real, events: seq<ParamEvent>) {
    function CancelScheduledValues(t: real): AudioParam {
      this.(events := events + [Cancel(t)])
    }
    function SetValueAtTime(l: Level, t: real): AudioParam {
      this.(events := events + [SetAt(l, t)])
    }
    function LinearRampToValueAtTime(l: Level, t: real): AudioParam {
      this.(events := events + [RampTo(l, t)])
    }
  }

  /** Decoded audio data; only its identity matters here. */
  datatype AudioBuffer = AudioBuffer(loopAssetId: Id, frames: nat)

  /** A looping buffer source, routed through its own fade gain into the track of `track`. */
  datatype SourceNode = SourceNode(
    buffer: AudioBuffer,
    loop: bool,
    track: Id,
    fadeGain: AudioParam,
    startAt: real,
    stopAt: Option<real>)

  /** Per-instance track; `currentSource` indexes the engine's list of created sources. */
  datatype TrackState = TrackState(
    gain: AudioParam,
    currentSource: Option<nat>,
    currentLoopAssetId: Option<Id>,
    muted: bool)

  datatype ContextState = Running | Suspended

  datatype EngineState = EngineState(
    ctx: Option<ContextState>,
    master: Option<AudioParam>,
    bufferCache: map<Id, AudioBuffer>,
    tracks: map<Id, TrackState>,
    sources: seq<SourceNode>,
    perfStartMs: Option<real>,
    audioStartSec: Option<real>)

  /**
   * What the device reports while `ensureStarted` runs: whether `ctx.state` reads
   * `"suspended"` (for a new context, or one the browser has suspended since), the device
   * time when a context is created, and the device time after a resume.
   */
  datatype DeviceStart = DeviceStart(suspendedNow: bool, timeAtCreate: real, timeAfterResume: real)

  /** What fetching and decoding a loop file yields. */
  datatype FetchResult = Decoded(buffer: AudioBuffer) | HttpError(status: int) | DecodeError

  /** What `getBuffer` settles with: a buffer, `null`, or a rejection. */
  datatype BufferLookup = Got(buffer: AudioBuffer) | NoBuffer | Rejected

  const MasterLevel: real := 0.9
  const Fade: real := 0.06
  const StopDelay: real := 0.01
  const RestoreDelay: real := 0.12
  const MuteRamp: real := 0.03
  const StartLead: real := 0.01
  const FadeInFloor: real := 0.0001

  function Max(a: real, b: real): real {
    if a >= b then a else b
  }

  /** The track gain to return to: silent when muted, unity otherwise. */
  function RestoreTarget(muted: bool): real {
    if muted then 0.0 else 1.0
  }

  const NewTrack: TrackState := TrackState(AudioParam(1.0, []), None, None, false)

  const InitialState: EngineState := EngineState(None, None, map[], map[], [], None, None)

  /** Context and master exist together, the time map exists once started, and every current source exists. */
  ghost predicate WellFormed(e: EngineState) {
    && (e.ctx.Some? <==> e.master.Some?)
    && (e.ctx.Some? <==> e.perfStartMs.Some? && e.audioStartSec.Some?)
    && (forall id :: id in e.tracks && e.tracks[id].currentSource.Some? ==>
          e.tracks[id].currentSource.value < |e.sources|)
  }

  /** `perfMsToAudioSec`: wall-clock milliseconds to device seconds through the stored anchor pair. */
  function AudioSecOf(hasCtx: bool, perfStartMs: Option<real>, audioStartSec: Option<real>,
                      perfMs: real, deviceNow: real): real
  {
    if !hasCtx || perfStartMs.None? || audioStartSec.None? then
      (if hasCtx then deviceNow else 0.0)
    else audioStartSec.value + (perfMs - perfStartMs.value) / 1000.0
  }

  function ToAudioSec(e: EngineState, perfMs: real, deviceNow: real): real {
    AudioSecOf(e.ctx.Some?, e.perfStartMs, e.audioStartSec, perfMs, deviceNow)
  }

  /**
   * `ensureStarted`: create the context if there is none (mapping the transport start to its
   * clock), then read its state and, when suspended, resume it and map the transport start anew.
   */
  function StartedSpec(e: EngineState, transportStartMs: real, d: DeviceStart): EngineState {
    var created :=
      if e.ctx.None? then
        e.(master := Some(AudioParam(MasterLevel, [])),
           perfStartMs := Some(transportStartMs),
           audioStartSec := Some(d.timeAtCreate))
      else e;
    var observed := created.(ctx := Some(if d.suspendedNow then Suspended else Running));
    if observed.ctx == Some(Suspended) then
      observed.(ctx := Some(Running), perfStartMs := Some(transportStartMs), audioStartSec := Some(d.timeAfterResume))
    else observed
  }

  /** `ensureTrack` once started: the existing track, or a fresh one at unity gain. */
  function WithTrack(e: EngineState, id: Id): (r: EngineState)
    ensures id in r.tracks
  {
    if id in e.tracks then e else e.(tracks := e.tracks[id := NewTrack])
  }

  function MutedTrack(t: TrackState, muted: bool, now: real): TrackState {
    t.(muted := muted,
       gain := t.gain.CancelScheduledValues(now)
                     .SetValueAtTime(Live, now)
                     .LinearRampToValueAtTime(Fixed(RestoreTarget(muted)), now + MuteRamp))
  }

  /** `setMuted`: ignored before start; otherwise a 30 ms ramp from the live value to the new target. */
  function SetMutedSpec(e: EngineState, id: Id, muted: bool, now: real): EngineState {
    if e.ctx.None? then e
    else
      var e1 := WithTrack(e, id);
      e1.(tracks := e1.tracks[id := MutedTrack(e1.tracks[id], muted, now)])
  }

  function StopSource(sources: seq<SourceNode>, i: nat, at: real): (r: seq<SourceNode>)
    requires i < |sources|
    ensures |r| == |sources|
  {
    sources[i := sources[i].(stopAt := Some(at))]
  }

  /** The track-gain events of a crossfade out: fade to silence at the boundary, then restore. */
  function FadeOutAndRestore(g: AudioParam, now: real, atSec: real, muted: bool): AudioParam {
    g.CancelScheduledValues(now)
     .SetValueAtTime(Live, now)
     .LinearRampToValueAtTime(Fixed(0.0), Max(now, atSec - Fade) + Fade)
     .LinearRampToValueAtTime(Fixed(RestoreTarget(muted)), atSec + RestoreDelay)
  }

  /** `scheduleStopAt`: fade the track out at the boundary, stop its source, forget its loop. */
  function StopSpec(e: EngineState, id: Id, atPerfMs: real, now: real): EngineState
    requires WellFormed(e)
  {
    if e.ctx.None? then e
    else
      var e1 := WithTrack(e, id);
      var t := e1.tracks[id];
      var atSec := ToAudioSec(e1, atPerfMs, now);
      var sources := if t.currentSource.Some? then StopSource(e1.sources, t.currentSource.value, atSec + StopDelay)
                     else e1.sources;
      e1.(tracks := e1.tracks[id := t.(gain := FadeOutAndRestore(t.gain, now, atSec, t.muted),
                                      currentSource := None, currentLoopAssetId := None)],
          sources := sources)
  }

  /** `getBuffer`: the cached buffer, else fetch and decode a known loop and cache it. */
  function GetBufferSpec(e: EngineState, loops: map<Id, LoopAssetDef>, loopId: Id, fetch: FetchResult): (EngineState, BufferLookup) {
    if e.ctx.None? then (e, NoBuffer)
    else if loopId in e.bufferCache then (e, Got(e.bufferCache[loopId]))
    else if loopId !in loops then (e, NoBuffer)
    else
      match fetch
      case Decoded(buf) => (e.(bufferCache := e.bufferCache[loopId := buf]), Got(buf))
      case HttpError(_) => (e, Rejected)
      case DecodeError => (e, Rejected)
  }

  /** The new source of a loop swap: starts at the boundary (or just after now) and fades in over 60 ms. */
  function NewSource(buf: AudioBuffer, id: Id, startAt: real, gainDb: real): SourceNode {
    SourceNode(buf, true, id,
               AudioParam(FadeInFloor, []).SetValueAtTime(Fixed(FadeInFloor), startAt)
                                          .LinearRampToValueAtTime(Decibels(gainDb), startAt + Fade),
               startAt, None)
  }

  /** The loop-swap commit once the buffer is at hand. */
  function SwapWithBuffer(e: EngineState, loops: map<Id, LoopAssetDef>, id: Id, loopId: Id,
                          buf: AudioBuffer, atPerfMs: real, now: real): EngineState
    requires WellFormed(e) && id in e.tracks
  {
    var t := e.tracks[id];
    var atSec := ToAudioSec(e, atPerfMs, now);
    var gainDb := if loopId in loops then loops[loopId].gainDb else 0.0;
    var gain := if t.currentSource.Some? then FadeOutAndRestore(t.gain, now, atSec, t.muted)
                else t.gain.SetValueAtTime(Fixed(RestoreTarget(t.muted)), now);
    var kept := if t.currentSource.Some? then StopSource(e.sources, t.currentSource.value, atSec + StopDelay)
                else e.sources;
    var src := NewSource(buf, id, Max(now + StartLead, atSec), gainDb);
    e.(tracks := e.tracks[id := t.(gain := gain, currentSource := Some(|kept|), currentLoopAssetId := Some(loopId))],
       sources := kept + [src])
  }

  /**
   * `scheduleSwapLoopAt`: nothing when the track already plays that loop; otherwise get the
   * buffer and crossfade. A rejected fetch leaves the state as it was (the rejection is never
   * observed, since the caller neither awaits nor returns this promise).
   */
  function SwapLoopSpec(e: EngineState, loops: map<Id, LoopAssetDef>, id: Id, loopId: Id,
                        atPerfMs: real, now: real, fetch: FetchResult): EngineState
    requires WellFormed(e)
  {
    if e.ctx.None? then e
    else
      var e1 := WithTrack(e, id);
      if e1.tracks[id].currentLoopAssetId == Some(loopId) then e1
      else
        var (e2, lookup) := GetBufferSpec(e1, loops, loopId, fetch);
        if !lookup.Got? then e2
        else SwapWithBuffer(e2, loops, id, loopId, lookup.buffer, atPerfMs, now)
  }

  /** `scheduleOutfitChangeAt`: start the engine, then stop (no loop) or swap (a loop) at the boundary. */
  function OutfitChangeSpec(e: EngineState, outfits: map<Id, OutfitDef>, loops: map<Id, LoopAssetDef>,
                            transportStartMs: real, boot: DeviceStart,
                            id: Id, outfitId: Id, atPerfMs: real, now: real, fetch: FetchResult): EngineState
    requires WellFormed(e)
  {
    StartedKeepsWellFormed(e, transportStartMs, boot);
    var e1 := StartedSpec(e, transportStartMs, boot);
    if outfitId !in outfits then e1
    else
      match OrNull(outfits[outfitId].loopAssetId)
      case None => StopSpec(e1, id, atPerfMs, now)
      case Some(loopId) => SwapLoopSpec(e1, loops, id, loopId, atPerfMs, now, fetch)
  }

  // ---------------------------------------------------------------------------------------
  // Well-formedness is an invariant of every operation
  // ---------------------------------------------------------------------------------------

  lemma StartedKeepsWellFormed(e: EngineState, transportStartMs: real, d: DeviceStart)
    requires WellFormed(e)
    ensures WellFormed(StartedSpec(e, transportStartMs, d))
    ensures StartedSpec(e, transportStartMs, d).ctx == Some(Running)
    ensures StartedSpec(e, transportStartMs, d).tracks == e.tracks
    ensures StartedSpec(e, transportStartMs, d).sources == e.sources
    ensures StartedSpec(e, transportStartMs, d).bufferCache == e.bufferCache
  {
  }

  lemma WithTrackKeepsWellFormed(e: EngineState, id: Id)
    requires WellFormed(e)
    ensures WellFormed(WithTrack(e, id))
  {
  }

  lemma SetMutedKeepsWellFormed(e: EngineState, id: Id, muted: bool, now: real)
    requires WellFormed(e)
    ensures WellFormed(SetMutedSpec(e, id, muted, now))
  {
  }

  lemma StopKeepsWellFormed(e: EngineState, id: Id, atPerfMs: real, now: real)
    requires WellFormed(e)
    ensures WellFormed(StopSpec(e, id, atPerfMs, now))
  {
  }

  lemma SwapWithBufferKeepsWellFormed(e: EngineState, loops: map<Id, LoopAssetDef>, id: Id, loopId: Id,
                                      buf: AudioBuffer, atPerfMs: real, now: real)
    requires WellFormed(e) && id in e.tracks
    ensures var r := SwapWithBuffer(e, loops, id, loopId, buf, atPerfMs, now);
            && WellFormed(r)
            && r.tracks[id].currentLoopAssetId == Some(loopId)
            && r.ctx == e.ctx && r.bufferCache == e.bufferCache
  {
  }

  lemma SwapKeepsWellFormed(e: EngineState, loops: map<Id, LoopAssetDef>, id: Id, loopId: Id,
                            atPerfMs: real, now: real, fetch: FetchResult)
    requires WellFormed(e)
    ensures WellFormed(SwapLoopSpec(e, loops, id, loopId, atPerfMs, now, fetch))
  {
    if e.ctx.Some? {
      var e1 := WithTrack(e, id);
      if e1.tracks[id].currentLoopAssetId != Some(loopId) {
        var (e2, lookup) := GetBufferSpec(e1, loops, loopId, fetch);
        assert WellFormed(e2);
        if lookup.Got? {
          SwapWithBufferKeepsWellFormed(e2, loops, id, loopId, lookup.buffer, atPerfMs, now);
        }
      }
    }
  }

  lemma OutfitChangeKeepsWellFormed(e: EngineState, outfits: map<Id, OutfitDef>, loops: map<Id, LoopAssetDef>,
                                    transportStartMs: real, boot: DeviceStart,
                                    id: Id, outfitId: Id, atPerfMs: real, now: real, fetch: FetchResult)
    requires WellFormed(e)
    ensures WellFormed(OutfitChangeSpec(e, outfits, loops, transportStartMs, boot, id, outfitId, atPerfMs, now, fetch))
  {
    StartedKeepsWellFormed(e, transportStartMs, boot);
    var e1 := StartedSpec(e, transportStartMs, boot);
    StopKeepsWellFormed(e1, id, atPerfMs, now);
    if outfitId in outfits && OrNull(outfits[outfitId].loopAssetId).Some? {
      SwapKeepsWellFormed(e1, loops, id, OrNull(outfits[outfitId].loopAssetId).value, atPerfMs, now, fetch);
    }
  }

  // ---------------------------------------------------------------------------------------
  // Properties of the transition functions
  // ---------------------------------------------------------------------------------------

  /** The wall-to-device map is strictly increasing once anchored, and sends the wall anchor to the device anchor. */
  lemma AudioSecMapping(e: EngineState, p1: real, p2: real, deviceNow: real)
    requires e.ctx.Some? && e.perfStartMs.Some? && e.audioStartSec.Some?
    ensures p1 < p2 ==> ToAudioSec(e, p1, deviceNow) < ToAudioSec(e, p2, deviceNow)
    ensures ToAudioSec(e, e.perfStartMs.value, deviceNow) == e.audioStartSec.value
    ensures ToAudioSec(e, p2, deviceNow) - ToAudioSec(e, p1, deviceNow) == (p2 - p1) / 1000.0
  {
  }

  /** Unanchored, the map falls back to the device time, or to 0 without a context. */
  lemma AudioSecFallback(e: EngineState, p: real, deviceNow: real)
    requires e.ctx.None? || e.perfStartMs.None? || e.audioStartSec.None?
    ensures ToAudioSec(e, p, deviceNow) == if e.ctx.Some? then deviceNow else 0.0
  {
  }

  /**
   * After `ensureStarted` the context is running and the transport's start instant maps to the
   * device time read when the context was created or, if it had to be resumed, after resuming.
   */
  lemma StartAnchorsTransportStart(e: EngineState, transportStartMs: real, d: DeviceStart, deviceNow: real)
    requires e.ctx.None?
    ensures StartedSpec(e, transportStartMs, d).ctx == Some(Running)
    ensures StartedSpec(e, transportStartMs, d).master == Some(AudioParam(0.9, []))
    ensures ToAudioSec(StartedSpec(e, transportStartMs, d), transportStartMs, deviceNow)
            == if d.suspendedNow then d.timeAfterResume else d.timeAtCreate
  {
  }

  /** A context that is found running is left exactly as it is. */
  lemma StartWhenRunningIsNoOp(e: EngineState, transportStartMs: real, d: DeviceStart)
    requires e.ctx == Some(Running) && !d.suspendedNow
    ensures StartedSpec(e, transportStartMs, d) == e
  {
  }

  /**
   * A context that the browser has suspended since it was created is resumed, and the time map
   * is anchored anew: the transport start now maps to the device time read after the resume.
   * Master, tracks, sources and cache are untouched.
   */
  lemma ResumeReanchors(e: EngineState, transportStartMs: real, d: DeviceStart, deviceNow: real)
    requires e.ctx.Some? && d.suspendedNow
    ensures StartedSpec(e, transportStartMs, d)
            == e.(ctx := Some(Running), perfStartMs := Some(transportStartMs), audioStartSec := Some(d.timeAfterResume))
    ensures ToAudioSec(StartedSpec(e, transportStartMs, d), transportStartMs, deviceNow) == d.timeAfterResume
  {
  }

  /** `ensureTrack` creates a track at most once, at unity gain with no source, no loop, unmuted. */
  lemma EnsureTrackOnce(e: EngineState, id: Id)
    ensures id in e.tracks ==> WithTrack(e, id) == e
    ensures id !in e.tracks ==>
              && WithTrack(e, id).tracks == e.tracks[id := TrackState(AudioParam(1.0, []), None, None, false)]
              && WithTrack(e, id).sources == e.sources
    ensures WithTrack(WithTrack(e, id), id) == WithTrack(e, id)
  {
  }

  lemma SetMutedIgnoredBeforeStart(e: EngineState, id: Id, muted: bool, now: real)
    requires e.ctx.None?
    ensures SetMutedSpec(e, id, muted, now) == e
  {
  }

  /** `setMuted` records the flag and ramps from the live value to 0 or 1 over 30 ms; nothing else changes. */
  lemma SetMutedEffect(e: EngineState, id: Id, muted: bool, now: real)
    requires e.ctx.Some?
    ensures var t0 := WithTrack(e, id).tracks[id];
            var r := SetMutedSpec(e, id, muted, now);
            && r.tracks[id].muted == muted
            && r.tracks[id].gain.events
               == t0.gain.events + [Cancel(now), SetAt(Live, now), RampTo(Fixed(if muted then 0.0 else 1.0), now + 0.03)]
            && r.tracks[id].currentSource == t0.currentSource
            && r.tracks[id].currentLoopAssetId == t0.currentLoopAssetId
            && (forall other :: other in e.tracks && other != id ==> other in r.tracks && r.tracks[other] == e.tracks[other])
            && r.sources == e.sources && r.bufferCache == e.bufferCache
  {
  }

  /** Muting and then unmuting leaves the track unmuted, with a last ramp back to unity. */
  lemma MuteThenUnmute(e: EngineState, id: Id, t1: real, t2: real)
    requires e.ctx.Some?
    ensures var r := SetMutedSpec(SetMutedSpec(e, id, true, t1), id, false, t2);
            && !r.tracks[id].muted
            && |r.tracks[id].gain.events| >= 6
            && r.tracks[id].gain.events[|r.tracks[id].gain.events| - 1] == RampTo(Fixed(1.0), t2 + 0.03)
            && r.tracks[id].gain.events[|r.tracks[id].gain.events| - 4] == RampTo(Fixed(0.0), t1 + 0.03)
            && r.sources == e.sources
  {
    SetMutedEffect(e, id, true, t1);
    SetMutedEffect(SetMutedSpec(e, id, true, t1), id, false, t2);
  }

  /**
   * `scheduleStopAt`: the track forgets its source and loop, its gain fades to silence ending at
   * `max(now, at - 0.06) + 0.06` and is restored to 0 or 1 at `at + 0.12`, and the old source
   * (if any) stops at `at + 0.01`; all other sources are untouched.
   */
  lemma StopEffect(e: EngineState, id: Id, atPerfMs: real, now: real)
    requires WellFormed(e) && e.ctx.Some?
    ensures var t0 := WithTrack(e, id).tracks[id];
            var at := ToAudioSec(e, atPerfMs, now);
            var r := StopSpec(e, id, atPerfMs, now);
            && r.tracks[id].currentSource.None?
            && r.tracks[id].currentLoopAssetId.None?
            && r.tracks[id].muted == t0.muted
            && r.tracks[id].gain.events
               == t0.gain.events + [Cancel(now), SetAt(Live, now), RampTo(Fixed(0.0), Max(now, at - 0.06) + 0.06),
                                    RampTo(Fixed(if t0.muted then 0.0 else 1.0), at + 0.12)]
            && |r.sources| == |e.sources|
            && (t0.currentSource.Some? ==> r.sources[t0.currentSource.value].stopAt == Some(at + 0.01))
            && (forall j :: 0 <= j < |e.sources| && Some(j) != t0.currentSource ==> r.sources[j] == e.sources[j])
            && (forall other :: other in e.tracks && other != id ==> other in r.tracks && r.tracks[other] == e.tracks[other])
  {
  }

  /** `getBuffer` answers from the cache whenever it can, whatever a fetch would have done. */
  lemma GetBufferCached(e: EngineState, loops: map<Id, LoopAssetDef>, loopId: Id, fetch: FetchResult)
    requires e.ctx.Some? && loopId in e.bufferCache
    ensures GetBufferSpec(e, loops, loopId, fetch) == (e, Got(e.bufferCache[loopId]))
  {
  }

  /** An id that is neither cached nor in the catalog yields `null` and changes nothing. */
  lemma GetBufferUnknown(e: EngineState, loops: map<Id, LoopAssetDef>, loopId: Id, fetch: FetchResult)
    requires loopId !in e.bufferCache && loopId !in loops
    ensures GetBufferSpec(e, loops, loopId, fetch) == (e, NoBuffer)
  {
  }

  /** A load caches the decoded buffer under its id; a failed fetch or decode rejects and caches nothing. */
  lemma GetBufferLoads(e: EngineState, loops: map<Id, LoopAssetDef>, loopId: Id, fetch: FetchResult)
    requires e.ctx.Some? && loopId !in e.bufferCache && loopId in loops
    ensures fetch.Decoded? ==>
              GetBufferSpec(e, loops, loopId, fetch) == (e.(bufferCache := e.bufferCache[loopId := fetch.buffer]), Got(fetch.buffer))
    ensures !fetch.Decoded? ==> GetBufferSpec(e, loops, loopId, fetch) == (e, Rejected)
  {
  }

  /** The cache of `e2` keeps every entry of `e1`. */
  ghost predicate CacheKept(e1: EngineState, e2: EngineState) {
    forall k :: k in e1.bufferCache ==> k in e2.bufferCache && e2.bufferCache[k] == e1.bufferCache[k]
  }

  /**
   * Automation is append-only: every existing track survives and its gain events are only
   * extended, and every created source survives with its buffer, start and fade gain intact.
   */
  ghost predicate OnlyAppends(e1: EngineState, e2: EngineState) {
    && (forall id :: id in e1.tracks ==> id in e2.tracks && e1.tracks[id].gain.events <= e2.tracks[id].gain.events)
    && |e1.sources| <= |e2.sources|
    && (forall j :: 0 <= j < |e1.sources| ==>
          && e2.sources[j].buffer == e1.sources[j].buffer
          && e2.sources[j].startAt == e1.sources[j].startAt
          && e2.sources[j].fadeGain == e1.sources[j].fadeGain)
  }

  /** Repeating a swap to the loop the track already plays adds no source and no gain event. */
  lemma SwapSameLoopIsNoOp(e: EngineState, loops: map<Id, LoopAssetDef>, id: Id, loopId: Id,
                           atPerfMs: real, now: real, fetch: FetchResult)
    requires WellFormed(e) && e.ctx.Some?
    requires id in e.tracks && e.tracks[id].currentLoopAssetId == Some(loopId)
    ensures SwapLoopSpec(e, loops, id, loopId, atPerfMs, now, fetch) == e
  {
  }

  /**
   * A swap to a new loop whose buffer is at hand starts a new looping source at
   * `max(now + 0.01, at)` whose fade gain goes from 0.0001 to the loop's level over 60 ms,
   * makes it the track's current source and loop, and either stops the old source at
   * `at + 0.01` while the track gain dips and is restored, or, with nothing playing, sets the
   * track gain to its mute-respecting level at once.
   */
  lemma SwapNewLoopEffect(e: EngineState, loops: map<Id, LoopAssetDef>, id: Id, loopId: Id,
                          atPerfMs: real, now: real, fetch: FetchResult, buf: AudioBuffer)
    requires WellFormed(e) && e.ctx.Some?
    requires WithTrack(e, id).tracks[id].currentLoopAssetId != Some(loopId)
    requires GetBufferSpec(WithTrack(e, id), loops, loopId, fetch).1 == Got(buf)
    ensures var t0 := WithTrack(e, id).tracks[id];
            var at := ToAudioSec(e, atPerfMs, now);
            var startAt := Max(now + 0.01, at);
            var n := |e.sources|;
            var r := SwapLoopSpec(e, loops, id, loopId, atPerfMs, now, fetch);
            && |r.sources| == n + 1
            && r.sources[n].buffer == buf && r.sources[n].loop && r.sources[n].track == id
            && r.sources[n].startAt == startAt && r.sources[n].stopAt.None?
            && r.sources[n].fadeGain.value == 0.0001
            && r.sources[n].fadeGain.events
               == [SetAt(Fixed(0.0001), startAt),
                   RampTo(Decibels(if loopId in loops then loops[loopId].gainDb else 0.0), startAt + 0.06)]
            && r.tracks[id].currentSource == Some(n)
            && r.tracks[id].currentLoopAssetId == Some(loopId)
            && r.tracks[id].muted == t0.muted
            && (t0.currentSource.Some? ==>
                  && r.sources[t0.currentSource.value].stopAt == Some(at + 0.01)
                  && r.tracks[id].gain.events
                     == t0.gain.events + [Cancel(now), SetAt(Live, now), RampTo(Fixed(0.0), Max(now, at - 0.06) + 0.06),
                                          RampTo(Fixed(if t0.muted then 0.0 else 1.0), at + 0.12)])
            && (t0.currentSource.None? ==>
                  r.tracks[id].gain.events == t0.gain.events + [SetAt(Fixed(if t0.muted then 0.0 else 1.0), now)])
            && (forall j :: 0 <= j < n && Some(j) != t0.currentSource ==> r.sources[j] == e.sources[j])
  {
  }

  /**
   * A failed fetch or decode of a new loop leaves the engine as it was apart from the track
   * `ensureTrack` created: the old loop keeps playing, and since the caller neither awaits nor
   * returns the swap, the rejection reaches no error handler.
   */
  lemma FailedFetchChangesNothing(e: EngineState, loops: map<Id, LoopAssetDef>, id: Id, loopId: Id,
                                  atPerfMs: real, now: real, fetch: FetchResult)
    requires WellFormed(e) && e.ctx.Some? && !fetch.Decoded?
    requires loopId !in e.bufferCache && loopId in loops
    ensures SwapLoopSpec(e, loops, id, loopId, atPerfMs, now, fetch) == WithTrack(e, id)
  {
  }

  /** An unknown outfit leaves everything but the engine start untouched. */
  lemma OutfitChangeUnknownOutfit(e: EngineState, outfits: map<Id, OutfitDef>, loops: map<Id, LoopAssetDef>,
                                  transportStartMs: real, boot: DeviceStart,
                                  id: Id, outfitId: Id, atPerfMs: real, now: real, fetch: FetchResult)
    requires WellFormed(e) && outfitId !in outfits
    ensures var r := OutfitChangeSpec(e, outfits, loops, transportStartMs, boot, id, outfitId, atPerfMs, now, fetch);
            r == StartedSpec(e, transportStartMs, boot) && r.tracks == e.tracks && r.sources == e.sources
  {
    StartedKeepsWellFormed(e, transportStartMs, boot);
  }

  /** An outfit whose loop is absent or `null` takes the stop path: the track is silent afterwards. */
  lemma OutfitChangeWithoutLoopStops(e: EngineState, outfits: map<Id, OutfitDef>, loops: map<Id, LoopAssetDef>,
                                     transportStartMs: real, boot: DeviceStart,
                                     id: Id, outfitId: Id, atPerfMs: real, now: real, fetch: FetchResult)
    requires WellFormed(e) && outfitId in outfits
    requires outfits[outfitId].loopAssetId.Undefined? || outfits[outfitId].loopAssetId.Null?
    ensures var r := OutfitChangeSpec(e, outfits, loops, transportStartMs, boot, id, outfitId, atPerfMs, now, fetch);
            && r == StopSpec(StartedSpec(e, transportStartMs, boot), id, atPerfMs, now)
            && id in r.tracks && r.tracks[id].currentSource.None? && r.tracks[id].currentLoopAssetId.None?
  {
    StartedKeepsWellFormed(e, transportStartMs, boot);
  }

  /** A started engine asked for a loop whose buffer is cached or decodes ends with the track playing it. */
  lemma SwapPlaysLoop(e: EngineState, loops: map<Id, LoopAssetDef>, id: Id, loopId: Id,
                      atPerfMs: real, now: real, fetch: FetchResult)
    requires WellFormed(e) && e.ctx.Some?
    requires loopId in e.bufferCache || (loopId in loops && fetch.Decoded?)
    ensures var r := SwapLoopSpec(e, loops, id, loopId, atPerfMs, now, fetch);
            id in r.tracks && r.tracks[id].currentLoopAssetId == Some(loopId)
  {
    var e2 := WithTrack(e, id);
    if e2.tracks[id].currentLoopAssetId != Some(loopId) {
      var (e3, lookup) := GetBufferSpec(e2, loops, loopId, fetch);
      assert lookup.Got?;
      SwapWithBufferKeepsWellFormed(e3, loops, id, loopId, lookup.buffer, atPerfMs, now);
    }
  }

  /** An outfit with a catalogued loop whose buffer is cached or decodes ends with the track playing that loop. */
  lemma OutfitChangeWithLoopPlaysIt(e: EngineState, outfits: map<Id, OutfitDef>, loops: map<Id, LoopAssetDef>,
                                    transportStartMs: real, boot: DeviceStart,
                                    id: Id, outfitId: Id, atPerfMs: real, now: real, fetch: FetchResult)
    requires WellFormed(e) && outfitId in outfits && outfits[outfitId].loopAssetId.Present?
    requires var l := outfits[outfitId].loopAssetId.value;
             l in e.bufferCache || (l in loops && fetch.Decoded?)
    ensures var r := OutfitChangeSpec(e, outfits, loops, transportStartMs, boot, id, outfitId, atPerfMs, now, fetch);
            && r == SwapLoopSpec(StartedSpec(e, transportStartMs, boot), loops, id, outfits[outfitId].loopAssetId.value,
                                 atPerfMs, now, fetch)
            && id in r.tracks && r.tracks[id].currentLoopAssetId == Some(outfits[outfitId].loopAssetId.value)
  {
    StartedKeepsWellFormed(e, transportStartMs, boot);
    var loopId := outfits[outfitId].loopAssetId.value;
    assert OrNull(outfits[outfitId].loopAssetId) == Some(loopId);
    var r := OutfitChangeSpec(e, outfits, loops, transportStartMs, boot, id, outfitId, atPerfMs, now, fetch);
    var r' := SwapLoopSpec(StartedSpec(e, transportStartMs, boot), loops, id, loopId, atPerfMs, now, fetch);
    assert r == r';
    SwapPlaysLoop(StartedSpec(e, transportStartMs, boot), loops, id, loopId, atPerfMs, now, fetch);
    assert r'.tracks[id].currentLoopAssetId == Some(loopId);
  }

  lemma SetMutedOnlyGrows(e: EngineState, id: Id, muted: bool, now: real)
    ensures CacheKept(e, SetMutedSpec(e, id, muted, now)) && OnlyAppends(e, SetMutedSpec(e, id, muted, now))
  {
  }

  lemma StopOnlyGrows(e: EngineState, id: Id, atPerfMs: real, now: real)
    requires WellFormed(e)
    ensures CacheKept(e, StopSpec(e, id, atPerfMs, now)) && OnlyAppends(e, StopSpec(e, id, atPerfMs, now))
  {
  }

  lemma SwapWithBufferOnlyAppends(e: EngineState, loops: map<Id, LoopAssetDef>, id: Id, loopId: Id,
                                  buf: AudioBuffer, atPerfMs: real, now: real)
    requires WellFormed(e) && id in e.tracks
    ensures var r := SwapWithBuffer(e, loops, id, loopId, buf, atPerfMs, now);
            r.bufferCache == e.bufferCache && OnlyAppends(e, r)
  {
    var r := SwapWithBuffer(e, loops, id, loopId, buf, atPerfMs, now);
    var t := e.tracks[id];
    assert t.gain.events <= r.tracks[id].gain.events;
    forall j | 0 <= j < |e.sources|
      ensures r.sources[j].buffer == e.sources[j].buffer && r.sources[j].startAt == e.sources[j].startAt
      ensures r.sources[j].fadeGain == e.sources[j].fadeGain
    {
    }
  }

  lemma SwapOnlyGrows(e: EngineState, loops: map<Id, LoopAssetDef>, id: Id, loopId: Id,
                      atPerfMs: real, now: real, fetch: FetchResult)
    requires WellFormed(e)
    ensures var r := SwapLoopSpec(e, loops, id, loopId, atPerfMs, now, fetch);
            CacheKept(e, r) && OnlyAppends(e, r)
  {
    if e.ctx.Some? {
      var e1 := WithTrack(e, id);
      if e1.tracks[id].currentLoopAssetId != Some(loopId) {
        var (e2, lookup) := GetBufferSpec(e1, loops, loopId, fetch);
        assert e2.tracks == e1.tracks && e2.sources == e.sources;
        assert CacheKept(e, e2);
        if lookup.Got? {
          SwapWithBufferOnlyAppends(e2, loops, id, loopId, lookup.buffer, atPerfMs, now);
        }
      }
    }
  }

  /** No operation evicts a cached buffer, and none removes or rewrites past automation. */
  lemma OutfitChangeOnlyGrows(e: EngineState, outfits: map<Id, OutfitDef>, loops: map<Id, LoopAssetDef>,
                              transportStartMs: real, boot: DeviceStart,
                              id: Id, outfitId: Id, atPerfMs: real, now: real, fetch: FetchResult)
    requires WellFormed(e)
    ensures var r := OutfitChangeSpec(e, outfits, loops, transportStartMs, boot, id, outfitId, atPerfMs, now, fetch);
            CacheKept(e, r) && OnlyAppends(e, r)
  {
    StartedKeepsWellFormed(e, transportStartMs, boot);
    var e1 := StartedSpec(e, transportStartMs, boot);
    if outfitId in outfits {
      match OrNull(outfits[outfitId].loopAssetId)
      case None =>
        StopOnlyGrows(e1, id, atPerfMs, now);
      case Some(loopId) =>
        SwapOnlyGrows(e1, loops, id, loopId, atPerfMs, now, fetch);
    }
  }

  // ---------------------------------------------------------------------------------------
  // The engine object
  // ---------------------------------------------------------------------------------------

  class AudioEngine {
    const assets: AssetManager
    const transport: Transport

    var ctx: Option<ContextState>
    var master: Option<AudioParam>
    var bufferCache: map<Id, AudioBuffer>
    var tracks: map<Id, TrackState>
    var sources: seq<SourceNode>
    var perfStartMs: Option<real>
    var audioStartSec: Option<real>

    /** The engine's whole state as a value. */
    function State(): EngineState
      reads this
    {
      EngineState(ctx, master, bufferCache, tracks, sources, perfStartMs, audioStartSec)
    }

    ghost predicate Valid()
      reads this
    {
      WellFormed(State())
    }

    constructor(assets: AssetManager, transport: Transport)
      ensures Valid()
      ensures this.assets == assets && this.transport == transport
      ensures State() == InitialState
    {
      this.assets := assets;
      this.transport := transport;
      ctx, master := None, None;
      bufferCache, tracks, sources := map[], map[], [];
      perfStartMs, audioStartSec := None, None;
    }

    /** `ensureStarted`, with the device's readings as a parameter and `resume` always succeeding. */
    method EnsureStarted(d: DeviceStart)
      requires Valid()
      modifies this
      ensures Valid()
      ensures State() == StartedSpec(old(State()), transport.startMs, d)
    {
      StartedKeepsWellFormed(State(), transport.startMs, d);
      if ctx.None? {
        master := Some(AudioParam(MasterLevel, []));
        perfStartMs := Some(transport.startMs);
        audioStartSec := Some(d.timeAtCreate);
      }
      // `this.ctx.state`, as the device reports it now
      ctx := Some(if d.suspendedNow then Suspended else Running);
      if ctx == Some(Suspended) {
        ctx := Some(Running);
        perfStartMs := Some(transport.startMs);
        audioStartSec := Some(d.timeAfterResume);
      }
    }

    /** `ensureTrack`: the thrown error becomes a `Fail`. */
    method EnsureTrack(instanceId: Id) returns (r: Outcome<string>)
      requires Valid()
      modifies this
      ensures Valid()
      ensures r.Fail? <==> old(ctx).None?
      ensures r.Fail? ==> r.error == "AudioEngine not started" && State() == old(State())
      ensures r.Pass? ==> State() == WithTrack(old(State()), instanceId)
    {
      if ctx.None? || master.None? {
        return Fail("AudioEngine not started");
      }
      if instanceId !in tracks {
        tracks := tracks[instanceId := TrackState(AudioParam(1.0, []), None, None, false)];
      }
      return Pass;
    }

    method SetMuted(instanceId: Id, muted: bool, deviceNow: real)
      requires Valid()
      modifies this
      ensures Valid()
      ensures State() == SetMutedSpec(old(State()), instanceId, muted, deviceNow)
    {
      SetMutedKeepsWellFormed(State(), instanceId, muted, deviceNow);
      if ctx.None? {
        return;
      }
      var started := EnsureTrack(instanceId);
      var t := tracks[instanceId].(muted := muted);
      var now := deviceNow;
      var target := RestoreTarget(muted);
      var g := t.gain.CancelScheduledValues(now);
      g := g.SetValueAtTime(Live, now);
      g := g.LinearRampToValueAtTime(Fixed(target), now + MuteRamp);
      tracks := tracks[instanceId := t.(gain := g)];
    }

    method ScheduleOutfitChangeAt(instanceId: Id, newOutfitId: Id, atPerfMs: real,
                                  boot: DeviceStart, deviceNow: real, fetch: FetchResult)
      requires Valid()
      modifies this
      ensures Valid()
      ensures State() == OutfitChangeSpec(old(State()), assets.outfitsById.entries, assets.loopsById.entries,
                                          transport.startMs, boot, instanceId, newOutfitId, atPerfMs, deviceNow, fetch)
    {
      EnsureStarted(boot);
      var outfit := assets.GetOutfit(newOutfitId);
      if outfit.None? {
        return;
      }
      var loopAssetId := OrNull(outfit.value.loopAssetId);
      if loopAssetId.None? {
        ScheduleStopAt(instanceId, atPerfMs, deviceNow);
        return;
      }
      ScheduleSwapLoopAt(instanceId, loopAssetId.value, atPerfMs, deviceNow, fetch);
    }

    method ScheduleStopAt(instanceId: Id, atPerfMs: real, deviceNow: real)
      requires Valid()
      modifies this
      ensures Valid()
      ensures State() == StopSpec(old(State()), instanceId, atPerfMs, deviceNow)
    {
      StopKeepsWellFormed(State(), instanceId, atPerfMs, deviceNow);
      if ctx.None? {
        return;
      }
      var started := EnsureTrack(instanceId);
      var t := tracks[instanceId];
      var atSec := ToAudioSec(State(), atPerfMs, deviceNow);
      var now := deviceNow;
      var start := Max(now, atSec - Fade);
      var g := t.gain.CancelScheduledValues(now);
      g := g.SetValueAtTime(Live, now);
      g := g.LinearRampToValueAtTime(Fixed(0.0), start + Fade);
      if t.currentSource.Some? {
        sources := StopSource(sources, t.currentSource.value, atSec + StopDelay);
      }
      t := t.(currentSource := None, currentLoopAssetId := None);
      g := g.LinearRampToValueAtTime(Fixed(RestoreTarget(t.muted)), atSec + RestoreDelay);
      tracks := tracks[instanceId := t.(gain := g)];
    }

    method ScheduleSwapLoopAt(instanceId: Id, loopAssetId: Id, atPerfMs: real, deviceNow: real, fetch: FetchResult)
      requires Valid()
      modifies this
      ensures Valid()
      ensures State() == SwapLoopSpec(old(State()), assets.loopsById.entries, instanceId, loopAssetId,
                                      atPerfMs, deviceNow, fetch)
    {
      SwapKeepsWellFormed(State(), assets.loopsById.entries, instanceId, loopAssetId, atPerfMs, deviceNow, fetch);
      if ctx.None? {
        return;
      }
      var started := EnsureTrack(instanceId);
      if tracks[instanceId].currentLoopAssetId == Some(loopAssetId) {
        return;
      }
      var buffer := GetBuffer(loopAssetId, fetch);
      if !buffer.Got? {
        return;
      }
      CommitSwap(instanceId, loopAssetId, buffer.buffer, atPerfMs, deviceNow);
    }

    /** The part of `scheduleSwapLoopAt` after the buffer has arrived: crossfade to a new source. */
    method CommitSwap(instanceId: Id, loopAssetId: Id, buffer: AudioBuffer, atPerfMs: real, deviceNow: real)
      requires Valid() && instanceId in tracks
      modifies this
      ensures Valid()
      ensures State() == SwapWithBuffer(old(State()), assets.loopsById.entries, instanceId, loopAssetId,
                                        buffer, atPerfMs, deviceNow)
    {
      SwapWithBufferKeepsWellFormed(State(), assets.loopsById.entries, instanceId, loopAssetId, buffer, atPerfMs, deviceNow);
      var t := tracks[instanceId];
      var atSec := ToAudioSec(State(), atPerfMs, deviceNow);
      var now := deviceNow;
      var loopDef := assets.GetLoop(loopAssetId);
      var gainDb := if loopDef.Some? then loopDef.value.gainDb else 0.0;
      var fadeStart := Max(now, atSec - Fade);
      var g := t.gain;
      if t.currentSource.Some? {
        g := g.CancelScheduledValues(now);
        g := g.SetValueAtTime(Live, now);
        g := g.LinearRampToValueAtTime(Fixed(0.0), fadeStart + Fade);
        sources := StopSource(sources, t.currentSource.value, atSec + StopDelay);
        g := g.LinearRampToValueAtTime(Fixed(RestoreTarget(t.muted)), atSec + RestoreDelay);
      } else {
        g := g.SetValueAtTime(Fixed(RestoreTarget(t.muted)), now);
      }
      var startAt := Max(now + StartLead, atSec);
      var src := NewSource(buffer, instanceId, startAt, gainDb);
      tracks := tracks[instanceId := t.(gain := g, currentSource := Some(|sources|), currentLoopAssetId := Some(loopAssetId))];
      sources := sources + [src];
    }

    /** `getBuffer`, with the fetch-and-decode outcome as a parameter and a rejection as `Rejected`. */
    method GetBuffer(loopAssetId: Id, fetch: FetchResult) returns (r: BufferLookup)
      requires Valid()
      modifies this
      ensures Valid()
      ensures (State(), r) == GetBufferSpec(old(State()), assets.loopsById.entries, loopAssetId, fetch)
    {
      if ctx.None? {
        return NoBuffer;
      }
      if loopAssetId in bufferCache {
        return Got(bufferCache[loopAssetId]);
      }
      var loop := assets.GetLoop(loopAssetId);
      if loop.None? {
        return NoBuffer;
      }
      match fetch
      case Decoded(buf) =>
        bufferCache := bufferCache[loopAssetId := buf];
        return Got(buf);
      case HttpError(_) =>
        return Rejected;
      case DecodeError =>
        return Rejected;
    }
  }
}

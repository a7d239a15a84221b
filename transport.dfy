/**
 * The musical clock (src/core/transport/Transport.ts): a tempo and a start instant on the
 * wall clock, from which the bar/beat position and the next quantization boundaries follow.
 * Times are milliseconds of `performance.now()`, modelled as reals.
 */
module TransportClock {

  const BeatsPerBar: int := 4

  /** `Math.ceil`, through `Math.floor`. */
  function Ceil(x: real): int {
    -((-x).Floor)
  }

  lemma CeilBounds(x: real)
    ensures x <= Ceil(x) as real < x + 1.0
    ensures x >= 0.0 ==> Ceil(x) >= 0
  {
  }

  /** `Math.max(0, nowMs - startMs)`. */
  function Elapsed(startMs: real, nowMs: real): (e: real)
    ensures e >= 0.0
    ensures e >= nowMs - startMs
    ensures e == 0.0 || e == nowMs - startMs
  {
    if 0.0 >= nowMs - startMs then 0.0 else nowMs - startMs
  }

  /** `Math.ceil(elapsed / unit)`: how many whole units after the start the boundary lies. */
  function BoundaryCount(startMs: real, unit: real, nowMs: real): (k: nat)
    requires unit > 0.0
  {
    CeilBounds(Elapsed(startMs, nowMs) / unit);
    Ceil(Elapsed(startMs, nowMs) / unit)
  }

  /** The instant `k` whole units after the start. */
  function GridPoint(startMs: real, unit: real, k: nat): real {
    startMs + (k as real) * unit
  }

  /**
   * `startMs + Math.ceil(elapsed / unit) * unit`: the formula shared by `nextBarTime`,
   * `nextBeatTime` and `nextLoopBoundaryTime`, which differ only in `unit`.
   */
  function NextBoundary(startMs: real, unit: real, nowMs: real): real
    requires unit > 0.0
  {
    GridPoint(startMs, unit, BoundaryCount(startMs, unit, nowMs))
  }

  /** The sign of a product with a positive factor. */
  lemma MulPositive(a: real, u: real)
    requires u > 0.0
    ensures a * u >= 0.0 <==> a >= 0.0
    ensures a * u < 0.0 <==> a < 0.0
  {
  }

  /** For u > 0, k*u >= e exactly when k >= e/u, and k*u < e + u exactly when k < e/u + 1. */
  lemma ScaleByUnit(e: real, u: real, k: real)
    requires u > 0.0
    ensures k * u >= e <==> k >= e / u
    ensures k * u < e + u <==> k < e / u + 1.0
  {
    assert (e / u) * u == e;
    assert (k - e / u) * u == k * u - e;
    MulPositive(k - e / u, u);
    assert (k - e / u - 1.0) * u == k * u - (e + u);
    MulPositive(k - e / u - 1.0, u);
  }

  /** Counting whole units and whole groups of `c` units lands on the same instants. */
  lemma GridRescale(startMs: real, m: real, c: nat, k: nat)
    ensures GridPoint(startMs, m * c as real, k) == GridPoint(startMs, m, k * c)
  {
    assert ((k * c) as real) == (k as real) * (c as real);
    assert (k as real) * (m * c as real) == ((k as real) * (c as real)) * m;
  }

  /**
   * The next boundary is a grid point at or after both `nowMs` and `startMs`, less than one
   * unit after the later of the two, and no grid point in between is skipped.
   */
  lemma NextBoundaryBounds(startMs: real, unit: real, nowMs: real)
    requires unit > 0.0
    ensures NextBoundary(startMs, unit, nowMs) >= nowMs
    ensures NextBoundary(startMs, unit, nowMs) >= startMs
    ensures nowMs >= startMs ==> NextBoundary(startMs, unit, nowMs) - nowMs < unit
    ensures forall k: nat :: GridPoint(startMs, unit, k) >= nowMs ==>
              NextBoundary(startMs, unit, nowMs) <= GridPoint(startMs, unit, k)
  {
    var e := Elapsed(startMs, nowMs);
    var c := BoundaryCount(startMs, unit, nowMs);
    CeilBounds(e / unit);
    ScaleByUnit(e, unit, c as real);
    MulPositive(c as real, unit);
    forall k: nat | GridPoint(startMs, unit, k) >= nowMs
      ensures NextBoundary(startMs, unit, nowMs) <= GridPoint(startMs, unit, k)
    {
      ScaleByUnit(e, unit, k as real);
      MulPositive(k as real, unit);
      assert (k as real) * unit >= e;
      assert k >= c;
      MulPositive(k as real - c as real, unit);
      assert (k as real - c as real) * unit == (k as real) * unit - (c as real) * unit;
    }
  }

  /** The next boundary lies a whole, non-negative number of units after the start. */
  lemma NextBoundaryOnGrid(startMs: real, unit: real, nowMs: real)
    requires unit > 0.0
    ensures exists k: nat :: NextBoundary(startMs, unit, nowMs) == GridPoint(startMs, unit, k)
  {
    var k := BoundaryCount(startMs, unit, nowMs);
    assert NextBoundary(startMs, unit, nowMs) == GridPoint(startMs, unit, k);
  }

  /** When the elapsed time is already a whole number of units, the "next" boundary is now. */
  lemma {:induction false} NextBoundaryWhenAligned(startMs: real, unit: real, nowMs: real, k: nat)
    requires unit > 0.0
    requires nowMs == GridPoint(startMs, unit, k)
    ensures NextBoundary(startMs, unit, nowMs) == nowMs
  {
    MulPositive(k as real, unit);
    var e := Elapsed(startMs, nowMs);
    assert e == (k as real) * unit;
    assert e / unit == k as real;
    assert Ceil(e / unit) == k;
  }

  /** Before (or at) the start the elapsed time is clamped to zero, so the boundary is the start. */
  lemma NextBoundaryBeforeStart(startMs: real, unit: real, nowMs: real)
    requires unit > 0.0
    requires nowMs <= startMs
    ensures NextBoundary(startMs, unit, nowMs) == startMs
  {
    assert Elapsed(startMs, nowMs) / unit == 0.0;
  }

  /** Later requests never get an earlier boundary. */
  lemma NextBoundaryMonotonic(startMs: real, unit: real, t1: real, t2: real)
    requires unit > 0.0
    requires t1 <= t2
    ensures NextBoundary(startMs, unit, t1) <= NextBoundary(startMs, unit, t2)
  {
    NextBoundaryBounds(startMs, unit, t1);
    NextBoundaryBounds(startMs, unit, t2);
    var k := BoundaryCount(startMs, unit, t2);
    assert NextBoundary(startMs, unit, t2) == GridPoint(startMs, unit, k);
  }

  /** The position part of a snapshot: beat in bar 1..4, bar number from 1. */
  type BeatInBar = b: int | 1 <= b <= 4 witness 1

  datatype TransportSnapshot = TransportSnapshot(
    bpm: real,
    msPerBeat: real,
    msPerBar: real,
    nowMs: real,
    elapsedMs: real,
    beatInBar: BeatInBar,
    barIndex: int)

  /** `Math.floor(elapsed / msPerBeat)`: beats completed since the start, from 0. */
  function BeatIndex0(elapsedMs: real, msPerBeat: real): (n: nat)
    requires elapsedMs >= 0.0 && msPerBeat > 0.0
  {
    assert elapsedMs / msPerBeat >= 0.0;
    (elapsedMs / msPerBeat).Floor
  }

  /** `(beatIndex0 % 4) + 1`. */
  function BeatInBarOf(beatIndex0: nat): BeatInBar {
    beatIndex0 % BeatsPerBar + 1
  }

  /** `Math.floor(beatIndex0 / 4) + 1`, on reals as JavaScript computes it. */
  function BarIndexOf(beatIndex0: nat): (bar: int)
    ensures bar >= 1
    ensures bar == beatIndex0 / BeatsPerBar + 1
  {
    var q := beatIndex0 / BeatsPerBar;
    assert q as real <= (beatIndex0 as real) / 4.0 < q as real + 1.0;
    ((beatIndex0 as real) / 4.0).Floor + 1
  }

  /** One beat later, the beat in bar advances 1, 2, 3, 4, 1, ... */
  lemma BeatInBarAdvances(n: nat)
    ensures BeatInBarOf(n + 1) == if BeatInBarOf(n) == 4 then 1 else BeatInBarOf(n) + 1
    ensures BarIndexOf(n + 1) == if BeatInBarOf(n) == 4 then BarIndexOf(n) + 1 else BarIndexOf(n)
  {
  }

  /** A quarter of a non-negative number floors to the quarter of its floor. */
  lemma FloorOfQuarter(x: real)
    requires x >= 0.0
    ensures (x / 4.0).Floor == x.Floor / 4
  {
    var q := x.Floor / 4;
    assert 4 * q <= x.Floor < 4 * q + 4;
    assert (4 * q) as real <= x < (4 * q + 4) as real;
    assert q as real <= x / 4.0 < q as real + 1.0;
  }

  /** Floor of a quotient by a positive divisor is monotonic in the dividend. */
  lemma FloorDivMonotonic(a: real, b: real, d: real)
    requires d > 0.0 && a <= b
    ensures (a / d).Floor <= (b / d).Floor
  {
    assert a / d <= b / d by {
      assert (b / d - a / d) * d == b - a;
    }
  }

  class Transport {
    var bpm: real
    var startMs: real

    ghost predicate Valid()
      reads this
    {
      bpm > 0.0
    }

    /** `new Transport(bpm)`; `startNowMs` is `performance.now()` at construction. */
    constructor (bpm: real, startNowMs: real)
      requires bpm > 0.0
      ensures Valid()
      ensures this.bpm == bpm && startMs == startNowMs
    {
      this.bpm := bpm;
      startMs := startNowMs;
    }

    method SetBpm(bpm: real)
      requires Valid() && bpm > 0.0
      modifies this
      ensures Valid()
      ensures this.bpm == bpm && startMs == old(startMs)
    {
      this.bpm := bpm;
    }

    /** Re-anchors the start at `nowMs` (`performance.now()`). */
    method Restart(nowMs: real)
      requires Valid()
      modifies this
      ensures Valid()
      ensures startMs == nowMs && bpm == old(bpm)
    {
      startMs := nowMs;
    }

    function MsPerBeat(): (ms: real)
      reads this
      requires Valid()
      ensures ms > 0.0
      ensures ms * bpm == 60000.0
    {
      60000.0 / bpm
    }

    function MsPerBar(): (ms: real)
      reads this
      requires Valid()
      ensures ms > 0.0
      ensures ms == 4.0 * MsPerBeat()
    {
      MsPerBeat() * BeatsPerBar as real
    }

    function Snapshot(nowMs: real): (s: TransportSnapshot)
      reads this
      requires Valid()
      ensures s.elapsedMs >= 0.0 && s.elapsedMs >= nowMs - startMs
      ensures s.elapsedMs == 0.0 || s.elapsedMs == nowMs - startMs
      ensures s.barIndex >= 1
      ensures s.nowMs == nowMs && s.bpm == bpm
      ensures s.msPerBar == 4.0 * s.msPerBeat && s.msPerBeat * bpm == 60000.0
      ensures 4 * (s.barIndex - 1) + (s.beatInBar - 1) == (s.elapsedMs / s.msPerBeat).Floor
      ensures s.barIndex == (s.elapsedMs / s.msPerBar).Floor + 1
    {
      var msPerBeat := MsPerBeat();
      var elapsedMs := Elapsed(startMs, nowMs);
      var beatIndex0 := BeatIndex0(elapsedMs, msPerBeat);
      FloorOfQuarter(elapsedMs / msPerBeat);
      assert elapsedMs / MsPerBar() == (elapsedMs / msPerBeat) / 4.0;
      TransportSnapshot(bpm, msPerBeat, MsPerBar(), nowMs, elapsedMs,
                        BeatInBarOf(beatIndex0), BarIndexOf(beatIndex0))
    }

    function NextBarTime(nowMs: real): real
      reads this
      requires Valid()
    {
      NextBoundary(startMs, MsPerBar(), nowMs)
    }

    function NextBeatTime(nowMs: real): real
      reads this
      requires Valid()
    {
      NextBoundary(startMs, MsPerBeat(), nowMs)
    }

    /** `msPerBar * cycleBars`: the length of one loop cycle. */
    function CycleMs(cycleBars: int): (ms: real)
      reads this
      requires Valid() && cycleBars > 0
      ensures ms > 0.0
    {
      MulPositive(cycleBars as real, MsPerBar());
      MsPerBar() * cycleBars as real
    }

    /** End of the current loop cycle of `cycleBars` bars, on the grid anchored at the start. */
    function NextLoopBoundaryTime(cycleBars: int, nowMs: real): real
      reads this
      requires Valid() && cycleBars > 0
    {
      NextBoundary(startMs, CycleMs(cycleBars), nowMs)
    }
  }

  /** A snapshot's bar number never decreases as time goes on. */
  lemma BarIndexMonotonic(t: Transport, t1: real, t2: real)
    requires t.Valid() && t1 <= t2
    ensures t.Snapshot(t1).barIndex <= t.Snapshot(t2).barIndex
  {
    var e1, e2 := Elapsed(t.startMs, t1), Elapsed(t.startMs, t2);
    FloorDivMonotonic(e1, e2, t.MsPerBeat());
    var n1, n2 := BeatIndex0(e1, t.MsPerBeat()), BeatIndex0(e2, t.MsPerBeat());
    assert n1 <= n2;
    assert n1 / BeatsPerBar <= n2 / BeatsPerBar;
  }

  /** `nextBarTime` is at or after now and the start, within one bar, and on the bar grid. */
  lemma NextBarTimeBounds(t: Transport, nowMs: real)
    requires t.Valid()
    ensures t.NextBarTime(nowMs) >= nowMs && t.NextBarTime(nowMs) >= t.startMs
    ensures nowMs >= t.startMs ==> t.NextBarTime(nowMs) - nowMs < t.MsPerBar()
    ensures exists k: nat :: t.NextBarTime(nowMs) == GridPoint(t.startMs, t.MsPerBar(), k)
  {
    NextBoundaryBounds(t.startMs, t.MsPerBar(), nowMs);
    NextBoundaryOnGrid(t.startMs, t.MsPerBar(), nowMs);
  }

  /** `nextBeatTime` is at or after now and the start, within one beat, and on the beat grid. */
  lemma NextBeatTimeBounds(t: Transport, nowMs: real)
    requires t.Valid()
    ensures t.NextBeatTime(nowMs) >= nowMs && t.NextBeatTime(nowMs) >= t.startMs
    ensures nowMs >= t.startMs ==> t.NextBeatTime(nowMs) - nowMs < t.MsPerBeat()
    ensures exists k: nat :: t.NextBeatTime(nowMs) == GridPoint(t.startMs, t.MsPerBeat(), k)
  {
    NextBoundaryBounds(t.startMs, t.MsPerBeat(), nowMs);
    NextBoundaryOnGrid(t.startMs, t.MsPerBeat(), nowMs);
  }

  /** A loop boundary is a whole number of cycles after the start, and is also a bar boundary. */
  lemma NextLoopBoundaryOnGrid(t: Transport, cycleBars: int, nowMs: real)
    requires t.Valid() && cycleBars > 0
    ensures t.NextLoopBoundaryTime(cycleBars, nowMs) >= nowMs
    ensures exists k: nat :: t.NextLoopBoundaryTime(cycleBars, nowMs) == GridPoint(t.startMs, t.CycleMs(cycleBars), k)
    ensures exists k: nat :: t.NextLoopBoundaryTime(cycleBars, nowMs) == GridPoint(t.startMs, t.MsPerBar(), k)
  {
    var cycle := t.CycleMs(cycleBars);
    NextBoundaryBounds(t.startMs, cycle, nowMs);
    var k := BoundaryCount(t.startMs, cycle, nowMs);
    assert t.NextLoopBoundaryTime(cycleBars, nowMs) == GridPoint(t.startMs, cycle, k);
    GridRescale(t.startMs, t.MsPerBar(), cycleBars, k);
  }

  /** A one-bar loop cycle is exactly the bar grid. */
  lemma OneBarLoopIsBar(t: Transport, nowMs: real)
    requires t.Valid()
    ensures t.NextLoopBoundaryTime(1, nowMs) == t.NextBarTime(nowMs)
  {
    assert t.CycleMs(1) == t.MsPerBar();
  }

  /** Exactly on a loop boundary, all three "next" functions answer with now itself. */
  lemma AlignedReturnsNow(t: Transport, nowMs: real, k: nat, cycleBars: int)
    requires t.Valid() && cycleBars > 0
    requires nowMs == GridPoint(t.startMs, t.CycleMs(cycleBars), k)
    ensures t.NextLoopBoundaryTime(cycleBars, nowMs) == nowMs
    ensures t.NextBarTime(nowMs) == nowMs
    ensures t.NextBeatTime(nowMs) == nowMs
  {
    NextBoundaryWhenAligned(t.startMs, t.CycleMs(cycleBars), nowMs, k);
    var bars := k * cycleBars;
    GridRescale(t.startMs, t.MsPerBar(), cycleBars, k);
    assert nowMs == GridPoint(t.startMs, t.MsPerBar(), bars);
    NextBoundaryWhenAligned(t.startMs, t.MsPerBar(), nowMs, bars);
    GridRescale(t.startMs, t.MsPerBeat(), 4, bars);
    assert t.MsPerBeat() * 4 as real == t.MsPerBar();
    assert nowMs == GridPoint(t.startMs, t.MsPerBeat(), bars * 4);
    NextBoundaryWhenAligned(t.startMs, t.MsPerBeat(), nowMs, bars * 4);
  }

  /** At or before the start, every "next" function answers with the start itself. */
  lemma BeforeStartReturnsStart(t: Transport, nowMs: real, cycleBars: int)
    requires t.Valid() && cycleBars > 0
    requires nowMs <= t.startMs
    ensures t.NextBarTime(nowMs) == t.startMs
    ensures t.NextBeatTime(nowMs) == t.startMs
    ensures t.NextLoopBoundaryTime(cycleBars, nowMs) == t.startMs
  {
    NextBoundaryBeforeStart(t.startMs, t.MsPerBar(), nowMs);
    NextBoundaryBeforeStart(t.startMs, t.MsPerBeat(), nowMs);
    NextBoundaryBeforeStart(t.startMs, t.CycleMs(cycleBars), nowMs);
  }

  /** At 120 bpm a beat is 500 ms and a bar 2000 ms; 2500 ms in is beat 2 of bar 2. */
  lemma Example120Bpm(t: Transport)
    requires t.Valid() && t.bpm == 120.0
    ensures t.MsPerBeat() == 500.0 && t.MsPerBar() == 2000.0
    ensures t.Snapshot(t.startMs + 2500.0).barIndex == 2
    ensures t.Snapshot(t.startMs + 2500.0).beatInBar == 2
  {
    assert BeatIndex0(2500.0, 500.0) == 5;
  }
}

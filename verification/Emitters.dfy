/** internal/loadgen/schedule.go: turning a phase into the arrival times handed to the workers.
    Emitting stops at the end of the phase or, when `room` is given, once that many slots have
    been taken and the context is cancelled. */
module Emitters {
  import opened Basics
  import opened Phases

  const MAX_RATE: int := SECOND

  /** Nanoseconds between two requests at a whole rate. */
  function Interval(rps: int): (d: Duration)
    requires 0 < rps
    ensures 0 <= d && (0 < d <==> rps <= MAX_RATE)
    ensures d * rps <= SECOND < (d + 1) * rps
  {
    SECOND / rps
  }

  /** What gets through before the context is cancelled. */
  function Cut(room: Option<nat>, s: seq<Time>): seq<Time> {
    if room.Some? && room.value < |s| then s[..room.value] else s
  }

  predicate Taken(room: Option<nat>, out: seq<Time>) {
    room.Some? && |out| >= room.value
  }

  // ----- Constant

  /** The points at, at + interval, ... before end. */
  function Grid(at: Time, end: Time, interval: Duration): seq<Time>
    requires 0 < interval || end <= at
    decreases end - at
  {
    if end <= at then [] else [at] + Grid(at + interval, end, interval)
  }

  /** Strictly increasing, all inside [start, end). */
  predicate Arrivals(s: seq<Time>, start: Time, end: Time) {
    && (forall k :: 0 <= k < |s| ==> start <= s[k] < end)
    && (forall k :: 0 <= k < |s| - 1 ==> s[k] < s[k + 1])
  }

  lemma {:induction false} GridArrives(at: Time, end: Time, interval: Duration)
    requires 0 < interval || end <= at
    ensures Arrivals(Grid(at, end, interval), at, end)
    ensures at < end ==> Grid(at, end, interval) != [] && Grid(at, end, interval)[0] == at
    decreases end - at
  {
    if at < end {
      GridArrives(at + interval, end, interval);
    }
  }

  lemma MulMonotone(a: int, b: int, c: int)
    requires a <= b && 0 <= c
    ensures a * c <= b * c
  {
  }

  lemma OneMoreTime(k: int, interval: Duration)
    ensures (k + 1) * interval == k * interval + interval
  {
  }

  /** The k-th arrival of a constant rate. */
  lemma {:induction false} GridPoint(at: Time, end: Time, interval: Duration, k: nat)
    requires 0 < interval && k < |Grid(at, end, interval)|
    ensures Grid(at, end, interval)[k] == at + k * interval
    decreases k
  {
    if 0 < k {
      GridPoint(at + interval, end, interval, k - 1);
      OneMoreTime(k - 1, interval);
    }
  }

  /** None is missing before the end. */
  lemma {:induction false} GridReachesEnd(at: Time, end: Time, interval: Duration)
    requires 0 < interval
    ensures end <= at + |Grid(at, end, interval)| * interval
    decreases end - at
  {
    if at < end {
      GridReachesEnd(at + interval, end, interval);
      OneMoreTime(|Grid(at + interval, end, interval)|, interval);
    }
  }

  // ----- how many requests a constant rate makes

  /** Arrival k is never behind its exact time, start + k seconds / rps, and at most k nanoseconds
      before it. Multiplied by rps, so that the exact time is a whole number. */
  predicate OnTime(s: seq<Time>, start: Time, rps: int) {
    forall k :: 0 <= k < |s| ==> rps * (s[k] - start) <= k * SECOND <= rps * (s[k] - start + k)
  }

  /** From the j-th on, rps arrivals fall into second m after the start. */
  predicate Fills(s: seq<Time>, start: Time, m: nat, rps: int, j: nat) {
    && 0 <= rps && j + rps <= |s|
    && forall k :: j <= k < j + rps ==> start + m * SECOND <= s[k] < start + m * SECOND + SECOND
  }

  ghost predicate FullSecond(s: seq<Time>, start: Time, m: nat, rps: int) {
    exists j: nat :: Fills(s, start, m, rps, j)
  }

  /** At least rps arrivals in every whole second. */
  ghost predicate FullSeconds(s: seq<Time>, start: Time, end: Time, rps: int) {
    forall m: nat :: start + m * SECOND + SECOND <= end ==> FullSecond(s, start, m, rps)
  }

  lemma ArrivalTime(start: Time, end: Time, rps: int, k: nat)
    requires 0 < rps <= MAX_RATE && k < |Grid(start, end, Interval(rps))|
    ensures var offset := Grid(start, end, Interval(rps))[k] - start;
            rps * offset <= k * SECOND <= rps * (offset + k)
  {
    var interval := Interval(rps);
    GridPoint(start, end, interval, k);
    MulMonotone(interval * rps, SECOND, k);
    MulMonotone(SECOND, (interval + 1) * rps, k);
    Reassociate(rps, k, interval);
    Reassociate(rps, k, interval + 1);
    OneMoreTime(interval, k);
  }

  lemma Reassociate(a: int, b: int, c: int)
    ensures a * (b * c) == c * a * b
  {
  }

  /** The grid point j + i lies in second m when j is the first that is not before it. */
  lemma InSecond(start: Time, end: Time, rps: int, m: nat, j: nat, k: nat)
    requires 0 < rps <= MAX_RATE && start + m * SECOND + SECOND <= end
    requires m * SECOND <= j * Interval(rps) < m * SECOND + Interval(rps) && j <= k < j + rps
    ensures var g := Grid(start, end, Interval(rps));
            k < |g| && start + m * SECOND <= g[k] < start + m * SECOND + SECOND
  {
    var interval := Interval(rps);
    LastOfSecond(j, rps, interval);
    MulMonotone(j, k, interval);
    MulMonotone(k, j + rps - 1, interval);
    BeforeEnd(start, end, interval, k);
    GridPoint(start, end, interval, k);
  }

  lemma SecondIsFull(start: Time, end: Time, rps: int, m: nat)
    requires 0 < rps <= MAX_RATE && start + m * SECOND + SECOND <= end
    ensures FullSecond(Grid(start, end, Interval(rps)), start, m, rps)
  {
    var j := (m * SECOND + Interval(rps) - 1) / Interval(rps);
    Ceiling(m * SECOND, Interval(rps));
    forall k | j <= k < j + rps
      ensures var g := Grid(start, end, Interval(rps));
              k < |g| && start + m * SECOND <= g[k] < start + m * SECOND + SECOND
    {
      InSecond(start, end, rps, m, j, k);
    }
    InSecond(start, end, rps, m, j, j + rps - 1);
    assert Fills(Grid(start, end, Interval(rps)), start, m, rps, j);
  }

  lemma BeforeEnd(start: Time, end: Time, interval: Duration, k: nat)
    requires 0 < interval && start + k * interval < end
    ensures k < |Grid(start, end, interval)|
  {
    GridReachesEnd(start, end, interval);
    if |Grid(start, end, interval)| <= k {
      MulMonotone(|Grid(start, end, interval)|, k, interval);
      assert false;
    }
  }

  lemma Ceiling(x: nat, d: int)
    requires 0 < d
    ensures var q := (x + d - 1) / d; 0 <= q && x <= q * d < x + d
  {
    var q := (x + d - 1) / d;
    assert x + d - 1 == q * d + (x + d - 1) % d;
  }

  lemma LastOfSecond(j: nat, rps: int, interval: Duration)
    requires interval * rps <= SECOND
    ensures (j + rps - 1) * interval <= j * interval + SECOND - interval
  {
  }

  /** A constant rate makes the requests it says: each when it is due, rps in every second. */
  lemma GridKeepsRate(start: Time, end: Time, rps: int)
    requires 0 < rps <= MAX_RATE
    ensures OnTime(Grid(start, end, Interval(rps)), start, rps)
    ensures FullSeconds(Grid(start, end, Interval(rps)), start, end, rps)
  {
    forall k | 0 <= k < |Grid(start, end, Interval(rps))|
      ensures var offset := Grid(start, end, Interval(rps))[k] - start;
              rps * offset <= k * SECOND <= rps * (offset + k)
    {
      ArrivalTime(start, end, rps, k);
    }
    forall m: nat | start + m * SECOND + SECOND <= end
      ensures FullSecond(Grid(start, end, Interval(rps)), start, m, rps)
    {
      SecondIsFull(start, end, rps, m);
    }
  }

  lemma CutKeepsRate(room: Option<nat>, start: Time, end: Time, rps: int)
    requires 0 < rps <= MAX_RATE
    ensures OnTime(Cut(room, Grid(start, end, Interval(rps))), start, rps)
    ensures FullSeconds(Cut(None, Grid(start, end, Interval(rps))), start, end, rps)
  {
    GridKeepsRate(start, end, rps);
  }

  lemma CutIsPrefix(room: Option<nat>, out: seq<Time>, rest: seq<Time>)
    requires room.Some? ==> |out| <= room.value
    requires Taken(room, out) || rest == []
    ensures Cut(room, out + rest) == out
  {
  }

  lemma OneMoreOut(out: seq<Time>, at: Time, rest: seq<Time>)
    ensures out + ([at] + rest) == (out + [at]) + rest
  {
  }

  method EmitConstant(start: Time, end: Time, rps: int, room: Option<nat>) returns (out: seq<Time>)
    requires 0 < rps <= MAX_RATE
    ensures OnTime(out, start, rps)
    ensures room.None? ==> FullSeconds(out, start, end, rps)
    ensures out == Cut(room, Grid(start, end, Interval(rps)))
  {
    var interval := Interval(rps);
    var i := 0;
    var at := start;
    out := [];
    while at < end && !Taken(room, out)
      invariant at == start + i * interval
      invariant room.Some? ==> |out| <= room.value
      invariant out + Grid(at, end, interval) == Grid(start, end, interval)
      decreases end - at
    {
      OneMoreOut(out, at, Grid(at + interval, end, interval));
      assert start + (i + 1) * interval == at + interval;
      out := out + [at];
      i := i + 1;
      at := start + i * interval;
    }
    CutIsPrefix(room, out, Grid(at, end, interval));
    CutKeepsRate(room, start, end, rps);
  }

  // ----- Step

  /** The rate of plateau s. */
  function StepRate(p: Phase, s: nat): int {
    if p.startRPS + s * p.stepRPS < 1 then 1 else p.startRPS + s * p.stepRPS
  }

  function SegmentStart(start: Time, p: Phase, s: nat): Time {
    start + s * p.stepEvery
  }

  function SegmentEnd(start: Time, p: Phase, s: nat): Time {
    if start + p.duration < SegmentStart(start, p, s) + p.stepEvery then start + p.duration
    else SegmentStart(start, p, s) + p.stepEvery
  }

  predicate StepPhase(p: Phase) {
    Valid(p) && p.pattern.Step? && PeakRPS(p) <= MAX_RATE
  }

  /** A plateau that begins before the phase ends runs at no more than the peak rate. */
  lemma PlateauBelowPeak(start: Time, p: Phase, s: nat)
    requires Valid(p) && p.pattern.Step? && SegmentStart(start, p, s) < start + p.duration
    ensures s <= p.duration / p.stepEvery && StepRate(p, s) <= PeakRPS(p)
  {
    var climbs := p.duration / p.stepEvery;
    if climbs < s {
      MulMonotone(climbs + 1, s, p.stepEvery);
      assert false;
    }
    MulMonotone(s, climbs, p.stepRPS);
  }

  function Plateau(start: Time, p: Phase, s: nat): seq<Time>
    requires StepPhase(p)
  {
    if SegmentStart(start, p, s) >= SegmentEnd(start, p, s) then []
    else
      PlateauBelowPeak(start, p, s);
      Grid(SegmentStart(start, p, s), SegmentEnd(start, p, s), Interval(StepRate(p, s)))
  }

  /** The grids of the first n plateaus, one after the other. */
  function Plateaus(start: Time, p: Phase, n: nat): seq<Time>
    requires StepPhase(p)
  {
    if n == 0 then [] else Plateaus(start, p, n - 1) + Plateau(start, p, n - 1)
  }

  function StepCount(p: Phase): nat
    requires Valid(p) && p.pattern.Step?
  {
    (p.duration + p.stepEvery - 1) / p.stepEvery + 1
  }

  /** One plateau: emit the grid behind what is out already, unless the room runs out. */
  method EmitSegment(segStart: Time, segEnd: Time, interval: Duration, room: Option<nat>, before: seq<Time>)
    returns (out: seq<Time>, stopped: bool)
    requires 0 < interval || segEnd <= segStart
    requires room.Some? ==> |before| <= room.value
    ensures out == Cut(room, before + Grid(segStart, segEnd, interval))
    ensures if stopped then room.Some? && |out| == room.value else out == before + Grid(segStart, segEnd, interval)
  {
    out := before;
    var at := segStart;
    while at < segEnd
      invariant room.Some? ==> |out| <= room.value
      invariant 0 < interval || segEnd <= at
      invariant out + Grid(at, segEnd, interval) == before + Grid(segStart, segEnd, interval)
      decreases segEnd - at
    {
      if Taken(room, out) {
        CutIsPrefix(room, out, Grid(at, segEnd, interval));
        return out, true;
      }
      OneMoreOut(out, at, Grid(at + interval, segEnd, interval));
      out := out + [at];
      at := at + interval;
    }
    stopped := false;
  }

  /** When plateau s is over. */
  function PlateauOver(start: Time, p: Phase, s: nat): Time {
    if p.duration < s * p.stepEvery + p.stepEvery then start + p.duration else start + s * p.stepEvery + p.stepEvery
  }

  /** These arrivals hold the rate of plateau s, startRPS + s * stepRPS, from its start,
      s * stepEvery into the phase, until it is over. */
  ghost predicate HoldsRate(s: seq<Time>, start: Time, p: Phase, n: nat) {
    && Arrivals(s, start + n * p.stepEvery, PlateauOver(start, p, n))
    && OnTime(s, start + n * p.stepEvery, p.startRPS + n * p.stepRPS)
    && FullSeconds(s, start + n * p.stepEvery, PlateauOver(start, p, n), p.startRPS + n * p.stepRPS)
  }

  /** Plateau n is there, as a part of the whole. */
  ghost predicate Holds(out: seq<Time>, start: Time, p: Phase, n: nat) {
    exists a: nat, b: nat :: a < b <= |out| && HoldsRate(out[a..b], start, p, n)
  }

  lemma PlateauHoldsRate(start: Time, p: Phase, n: nat)
    requires StepPhase(p) && n * p.stepEvery < p.duration
    ensures Plateau(start, p, n) != [] && HoldsRate(Plateau(start, p, n), start, p, n)
  {
    PlateauBelowPeak(start, p, n);
    PlateauArrives(start, p, n);
    RatesClimb(p, n, n);
    GridKeepsRate(SegmentStart(start, p, n), SegmentEnd(start, p, n), StepRate(p, n));
  }

  lemma StepCountReachesEnd(p: Phase, n: nat)
    requires Valid(p) && p.pattern.Step? && n * p.stepEvery < p.duration
    ensures n < StepCount(p)
  {
    Ceiling(p.duration, p.stepEvery);
    if StepCount(p) <= n {
      MulMonotone(StepCount(p), n, p.stepEvery);
      assert false;
    }
  }

  /** Every plateau that begins before the end of the phase is held. */
  lemma StepHolds(start: Time, p: Phase, n: nat)
    requires StepPhase(p) && n * p.stepEvery < p.duration
    ensures Holds(Plateaus(start, p, StepCount(p)), start, p, n)
  {
    StepCountReachesEnd(p, n);
    PlateausArePrefix(start, p, n + 1, StepCount(p));
    PlateauIsPart(Plateaus(start, p, StepCount(p)), Plateaus(start, p, n), start, p, n);
  }

  lemma PlateauIsPart(all: seq<Time>, before: seq<Time>, start: Time, p: Phase, n: nat)
    requires StepPhase(p) && n * p.stepEvery < p.duration
    requires before + Plateau(start, p, n) <= all
    ensures Holds(all, start, p, n)
  {
    var a, b := |before|, |before| + |Plateau(start, p, n)|;
    assert all[a..b] == Plateau(start, p, n) by { PartOf(all, before, Plateau(start, p, n)); }
    PlateauHoldsRate(start, p, n);
    assert a < b && HoldsRate(all[a..b], start, p, n);
  }

  lemma PartOf(all: seq<Time>, before: seq<Time>, part: seq<Time>)
    requires before + part <= all
    ensures |before| + |part| <= |all| && all[|before|..|before| + |part|] == part
  {
    assert all[..|before| + |part|] == before + part;
    assert all[|before|..|before| + |part|] == all[..|before| + |part|][|before|..];
  }

  method EmitStep(start: Time, p: Phase, room: Option<nat>) returns (out: seq<Time>)
    requires StepPhase(p)
    ensures room.None? ==> forall n: nat :: n * p.stepEvery < p.duration ==> Holds(out, start, p, n)
    ensures out == Cut(room, Plateaus(start, p, StepCount(p)))
  {
    forall n: nat | n * p.stepEvery < p.duration
      ensures Holds(Plateaus(start, p, StepCount(p)), start, p, n)
    {
      StepHolds(start, p, n);
    }
    var steps := StepCount(p);
    out := [];
    for s := 0 to steps
      invariant room.Some? ==> |out| <= room.value
      invariant out == Plateaus(start, p, s)
    {
      var segStart := start + s * p.stepEvery;
      var segRate := p.startRPS + s * p.stepRPS;
      if segRate < 1 { segRate := 1; }
      var interval := Interval(segRate);
      var segEnd := segStart + p.stepEvery;
      if start + p.duration < segEnd { segEnd := start + p.duration; }
      if segStart < segEnd { PlateauBelowPeak(start, p, s); }
      assert Plateau(start, p, s) == Grid(segStart, segEnd, interval);
      var stopped;
      out, stopped := EmitSegment(segStart, segEnd, interval, room, out);
      if stopped {
        PlateausArePrefix(start, p, s + 1, steps);
        CutShort(room, out, Plateaus(start, p, s + 1), Plateaus(start, p, steps));
        return;
      }
    }
  }

  lemma {:induction false} PlateausArePrefix(start: Time, p: Phase, m: nat, n: nat)
    requires StepPhase(p) && m <= n
    ensures Plateaus(start, p, m) <= Plateaus(start, p, n)
    decreases n
  {
    if m < n { PlateausArePrefix(start, p, m, n - 1); }
  }

  lemma CutShort(room: Option<nat>, out: seq<Time>, soFar: seq<Time>, all: seq<Time>)
    requires room.Some? && |out| == room.value && out == Cut(room, soFar) && soFar <= all
    ensures out == Cut(room, all)
  {
  }

  lemma PlateauArrives(start: Time, p: Phase, s: nat)
    requires StepPhase(p)
    ensures Arrivals(Plateau(start, p, s), SegmentStart(start, p, s), SegmentEnd(start, p, s))
  {
    if SegmentStart(start, p, s) < SegmentEnd(start, p, s) {
      PlateauBelowPeak(start, p, s);
      GridArrives(SegmentStart(start, p, s), SegmentEnd(start, p, s), Interval(StepRate(p, s)));
    }
  }

  lemma ArrivalsConcat(a: seq<Time>, b: seq<Time>, start: Time, mid: Time, end: Time)
    requires Arrivals(a, start, mid) && Arrivals(b, mid, end) && start <= mid <= end
    ensures Arrivals(a + b, start, end)
  {
  }

  /** Where the first n plateaus end. */
  function Reach(start: Time, p: Phase, n: nat): Time {
    if start + p.duration < SegmentStart(start, p, n) then start + p.duration else SegmentStart(start, p, n)
  }

  lemma {:induction false} PlateausArrive(start: Time, p: Phase, n: nat)
    requires StepPhase(p)
    ensures start <= Reach(start, p, n) && Arrivals(Plateaus(start, p, n), start, Reach(start, p, n))
    decreases n
  {
    if n != 0 {
      PlateausArrive(start, p, n - 1);
      assert SegmentStart(start, p, n - 1) + p.stepEvery == SegmentStart(start, p, n) by {
        assert (n - 1) * p.stepEvery + p.stepEvery == n * p.stepEvery;
      }
      PlateauArrives(start, p, n - 1);
      ArrivalsConcat(Plateaus(start, p, n - 1), Plateau(start, p, n - 1),
                     start, Reach(start, p, n - 1), Reach(start, p, n));
    }
  }

  /** Plateaus past the end are empty, so any step count that reaches the end gives the same
      arrivals: neither the extra step nor a rounding of the quotient shows. */
  lemma {:induction false} ExtraStepsAreEmpty(start: Time, p: Phase, m: nat, n: nat)
    requires StepPhase(p) && m <= n && p.duration <= m * p.stepEvery
    ensures Plateaus(start, p, n) == Plateaus(start, p, m)
    decreases n
  {
    if m < n {
      ExtraStepsAreEmpty(start, p, m, n - 1);
      MulMonotone(m, n - 1, p.stepEvery);
    }
  }

  /** One step less than the peak when the last climb falls on the end of the phase. */
  function HighestHeld(p: Phase): int
    requires StepPhase(p)
  {
    if p.duration % p.stepEvery == 0 then PeakRPS(p) - p.stepRPS else PeakRPS(p)
  }

  lemma RatesClimb(p: Phase, s: nat, t: nat)
    requires StepPhase(p) && s <= t
    ensures StepRate(p, s) == p.startRPS + s * p.stepRPS && StepRate(p, s) <= StepRate(p, t)
  {
    MulMonotone(0, s, p.stepRPS);
    MulMonotone(s, t, p.stepRPS);
  }

  /** The last plateau: it is held, and nothing begins after it. */
  lemma LastPlateau(start: Time, p: Phase, n: nat)
    requires StepPhase(p) && n * p.stepEvery < p.duration <= (n + 1) * p.stepEvery
    ensures Plateau(start, p, n) != []
    ensures forall s: nat :: Plateau(start, p, s) != [] ==> s <= n
  {
    PlateauBelowPeak(start, p, n);
    forall s: nat | Plateau(start, p, s) != []
      ensures s <= n
    {
      if n < s {
        MulMonotone(n + 1, s, p.stepEvery);
        assert false;
      }
    }
  }

  /** The highest rate a Step phase holds: a plateau runs at it, and none above. */
  lemma HighestIsHeld(start: Time, p: Phase)
    requires StepPhase(p)
    ensures exists s: nat :: Plateau(start, p, s) != [] && StepRate(p, s) == HighestHeld(p)
    ensures forall s: nat :: Plateau(start, p, s) != [] ==> StepRate(p, s) <= HighestHeld(p)
  {
    var climbs := p.duration / p.stepEvery;
    assert p.duration == climbs * p.stepEvery + p.duration % p.stepEvery;
    OneMoreTime(climbs - 1, p.stepEvery);
    OneMoreTime(climbs, p.stepEvery);
    OneMoreTime(climbs - 1, p.stepRPS);
    var n := if p.duration % p.stepEvery == 0 then climbs - 1 else climbs;
    LastPlateau(start, p, n);
    RatesClimb(p, n, n);
    assert Plateau(start, p, n) != [] && StepRate(p, n) == HighestHeld(p);
    forall s: nat | Plateau(start, p, s) != []
      ensures StepRate(p, s) <= HighestHeld(p)
    {
      RatesClimb(p, s, n);
    }
  }

  /** The peak the pool is sized for is a rate actually held exactly when the last climb does
      not fall on the end of the phase. */
  lemma PeakIsReached(start: Time, p: Phase)
    requires StepPhase(p)
    ensures (exists s: nat :: Plateau(start, p, s) != [] && StepRate(p, s) == PeakRPS(p)) <==> p.duration % p.stepEvery != 0
  {
    HighestIsHeld(start, p);
  }

  /** Ten seconds from 10 rps, five more every five seconds: sized for 20, never above 15. */
  lemma PeakIsMissed(start: Time) returns (p: Phase)
    ensures StepPhase(p) && PeakRPS(p) == 20
    ensures forall s: nat :: Plateau(start, p, s) != [] ==> StepRate(p, s) <= 15
  {
    p := Phase("Measure", Pattern.Step, 10 * SECOND, 10, 0, 5, 5 * SECOND, true);
    HighestIsHeld(start, p);
  }

  // ----- Ramp

  predicate RampPhase(p: Phase) {
    Valid(p) && p.pattern.Ramp?
  }

  /** The interpolated rate at an offset, times the duration: startRPS + offset/duration * (endRPS - startRPS). */
  function ScaledRate(p: Phase, offset: Duration): int {
    p.startRPS * p.duration + offset * (p.endRPS - p.startRPS)
  }

  /** It is startRPS at the start, endRPS at the end, and changes evenly in between: equal times bring
      equal changes. */
  lemma RateIsAffine(p: Phase, x: Duration, y: Duration, d: Duration)
    ensures ScaledRate(p, 0) == p.startRPS * p.duration && ScaledRate(p, p.duration) == p.endRPS * p.duration
    ensures ScaledRate(p, x + d) - ScaledRate(p, x) == ScaledRate(p, y + d) - ScaledRate(p, y)
    ensures ScaledRate(p, x) == p.startRPS * (p.duration - x) + p.endRPS * x
  {
    Interpolation(p.startRPS, p.endRPS, p.duration - x, x);
    Difference(p, x, d);
    Difference(p, y, d);
  }

  lemma Difference(p: Phase, x: Duration, d: Duration)
    ensures ScaledRate(p, x + d) - ScaledRate(p, x) == d * (p.endRPS - p.startRPS)
  {
    assert (x + d) * (p.endRPS - p.startRPS) == x * (p.endRPS - p.startRPS) + d * (p.endRPS - p.startRPS);
  }

  lemma Weighted(first: int, second: int, peak: int, x: int, y: int)
    requires 1 <= first <= peak && 1 <= second <= peak && 0 <= x && 0 <= y
    ensures x + y <= first * x + second * y <= peak * (x + y)
  {
    MulMonotone(1, first, x);
    MulMonotone(1, second, y);
    MulMonotone(first, peak, x);
    MulMonotone(second, peak, y);
  }

  lemma Interpolation(first: int, second: int, x: int, y: int)
    ensures first * (x + y) + y * (second - first) == first * x + second * y
  {
  }

  /** A ramp's rate stays between one request per second and the peak. */
  lemma RateBetween(p: Phase, offset: Duration)
    requires RampPhase(p) && 0 <= offset <= p.duration
    ensures p.duration <= ScaledRate(p, offset) <= PeakRPS(p) * p.duration
  {
    Interpolation(p.startRPS, p.endRPS, p.duration - offset, offset);
    Weighted(p.startRPS, p.endRPS, PeakRPS(p), p.duration - offset, offset);
  }

  lemma RateRises(p: Phase, x: Duration, y: Duration)
    requires x <= y
    ensures p.startRPS <= p.endRPS ==> ScaledRate(p, x) <= ScaledRate(p, y)
    ensures p.endRPS <= p.startRPS ==> ScaledRate(p, y) <= ScaledRate(p, x)
  {
    if p.startRPS <= p.endRPS { MulMonotone(x, y, p.endRPS - p.startRPS); }
    if p.endRPS <= p.startRPS {
      MulMonotone(x, y, p.startRPS - p.endRPS);
      assert x * (p.endRPS - p.startRPS) == -(x * (p.startRPS - p.endRPS));
      assert y * (p.endRPS - p.startRPS) == -(y * (p.startRPS - p.endRPS));
    }
  }

  /** The gap after an arrival at this offset, with the floor of one request per second and the
      fallback to a microsecond when the rate is too high for nanoseconds. */
  function RampGap(p: Phase, offset: Duration): (gap: Duration)
    requires 0 < p.duration
    ensures 0 < gap
  {
    var scaled := if ScaledRate(p, offset) < p.duration then p.duration else ScaledRate(p, offset);
    var interval := SECOND * p.duration / scaled;
    if interval <= 0 then 1000 else interval
  }

  function RampFrom(p: Phase, offset: Duration): seq<Duration>
    requires 0 < p.duration
    decreases p.duration - offset
  {
    if p.duration <= offset then [] else [offset] + RampFrom(p, offset + RampGap(p, offset))
  }

  function Shifted(start: Time, offsets: seq<Duration>): (r: seq<Time>)
    ensures |r| == |offsets| && forall k :: 0 <= k < |r| ==> r[k] == start + offsets[k]
  {
    seq(|offsets|, k requires 0 <= k < |offsets| => start + offsets[k])
  }

  /** From offset x to offset y at the rate of x, which is startRPS and endRPS weighted by how much of
      the phase is left and gone: the gap is a second by that rate, rounded down, or a microsecond
      where that would be nothing. */
  predicate Spaced(p: Phase, x: Duration, y: Duration) {
    var scaled := p.startRPS * (p.duration - x) + p.endRPS * x;
    if SECOND * p.duration < scaled then y - x == 1000
    else (y - x) * scaled <= SECOND * p.duration < (y - x + 1) * scaled
  }

  predicate SpacedAt(p: Phase, s: seq<Duration>, k: nat)
    requires k + 1 < |s|
  {
    Spaced(p, s[k], s[k + 1])
  }

  lemma Quotient(a: int, b: int)
    requires 0 <= a && 0 < b
    ensures a / b * b <= a < (a / b + 1) * b && (a / b == 0 <==> a < b) && 0 <= a / b
  {
    assert a == a / b * b + a % b;
    if 0 < a / b { MulMonotone(1, a / b, b); }
  }

  lemma GapIsSpaced(p: Phase, x: Duration)
    requires RampPhase(p) && 0 <= x <= p.duration
    ensures Spaced(p, x, x + RampGap(p, x))
  {
    Interpolation(p.startRPS, p.endRPS, p.duration - x, x);
    RateBetween(p, x);
    Quotient(SECOND * p.duration, ScaledRate(p, x));
  }

  /** The next request after this one would come after the end. */
  ghost predicate EndsAfter(p: Phase, x: Duration) {
    exists y :: Spaced(p, x, y) && p.duration <= y
  }

  /** A ramp: the first request at once, then each as its rate has it, until the next would come
      after the end. */
  ghost predicate FollowsRamp(p: Phase, s: seq<Duration>) {
    && s != [] && s[0] == 0
    && (forall k: nat :: k + 1 < |s| ==> SpacedAt(p, s, k))
    && EndsAfter(p, s[|s| - 1])
  }

  lemma RampFollows(p: Phase)
    requires RampPhase(p)
    ensures FollowsRamp(p, RampFrom(p, 0))
  {
    var s := RampFrom(p, 0);
    RampArrives(p, 0);
    RampGaps(p, 0);
    forall k: nat | k + 1 < |s|
      ensures SpacedAt(p, s, k)
    {
      GapIsSpaced(p, s[k]);
    }
    var last := s[|s| - 1];
    GapIsSpaced(p, last);
    assert p.duration <= last + RampGap(p, last);
  }

  /** The same arrivals, measured from the start. */
  function Offsets(start: Time, s: seq<Time>): (r: seq<Duration>)
    ensures |r| == |s| && forall k :: 0 <= k < |r| ==> r[k] == s[k] - start
  {
    seq(|s|, k requires 0 <= k < |s| => s[k] - start)
  }

  lemma OffsetsShifted(start: Time, r: seq<Duration>)
    ensures Offsets(start, Shifted(start, r)) == r
  {
  }

  lemma OneMoreOnRamp(start: Time, p: Phase, done: seq<Duration>, offset: Duration)
    requires 0 < p.duration && offset < p.duration
    ensures done + RampFrom(p, offset) == (done + [offset]) + RampFrom(p, offset + RampGap(p, offset))
    ensures Shifted(start, done + [offset]) == Shifted(start, done) + [start + offset]
  {
  }

  lemma CutShifted(room: Option<nat>, start: Time, done: seq<Duration>, rest: seq<Duration>)
    requires room.Some? ==> |done| <= room.value
    requires rest == [] || (room.Some? && |done| >= room.value)
    ensures Cut(room, Shifted(start, done + rest)) == Shifted(start, done)
  {
    assert Shifted(start, done + rest)[..|done|] == Shifted(start, done);
    assert rest == [] ==> done + rest == done;
  }

  lemma RampIsFollowed(start: Time, p: Phase)
    requires RampPhase(p)
    ensures FollowsRamp(p, Offsets(start, Shifted(start, RampFrom(p, 0))))
  {
    RampFollows(p);
    OffsetsShifted(start, RampFrom(p, 0));
  }

  /** The gap as the loop computes it. */
  method NextGap(p: Phase, elapsed: Duration) returns (interval: Duration)
    requires RampPhase(p) && 0 <= elapsed < p.duration
    ensures 0 < interval == RampGap(p, elapsed)
  {
    var scaled := ScaledRate(p, elapsed);
    if scaled < p.duration { scaled := p.duration; }
    interval := SECOND * p.duration / scaled;
    if interval <= 0 { interval := 1000; }
  }

  method EmitRamp(start: Time, p: Phase, room: Option<nat>) returns (out: seq<Time>)
    requires RampPhase(p)
    ensures room.None? ==> FollowsRamp(p, Offsets(start, out))
    ensures out == Cut(room, Shifted(start, RampFrom(p, 0)))
  {
    out := ClimbRamp(start, p, room);
    RampIsFollowed(start, p);
  }

  /** The loop of the ramp. */
  method ClimbRamp(start: Time, p: Phase, room: Option<nat>) returns (out: seq<Time>)
    requires RampPhase(p)
    ensures out == Cut(room, Shifted(start, RampFrom(p, 0)))
  {
    var at := start;
    out := [];
    ghost var done: seq<Duration> := [];
    while true
      invariant start <= at
      invariant room.Some? ==> |done| <= room.value
      invariant out == Shifted(start, done)
      invariant done + RampFrom(p, at - start) == RampFrom(p, 0)
      decreases start + p.duration - at
    {
      var elapsed := at - start;
      if elapsed >= p.duration {
        break;
      }
      var interval := NextGap(p, elapsed);
      if Taken(room, out) {
        break;
      }
      OneMoreOnRamp(start, p, done, elapsed);
      done := done + [elapsed];
      out := out + [at];
      at := at + interval;
    }
    CutShifted(room, start, done, RampFrom(p, at - start));
  }

  lemma DivMonotone(a: int, b: int, c: int)
    requires 0 <= a && 0 < b <= c
    ensures a / c <= a / b
  {
    var q := a / c;
    assert q * c <= a;
    MulMonotone(b, c, q);
    if a / b < q {
      MulMonotone(a / b + 1, q, b);
      assert false;
    }
  }

  /** Up to a peak of one request per nanosecond, a faster offset never has a longer gap. */
  lemma GapFollowsRate(p: Phase, x: Duration, y: Duration)
    requires RampPhase(p) && PeakRPS(p) <= MAX_RATE && 0 <= x <= p.duration && 0 <= y <= p.duration
    requires ScaledRate(p, x) <= ScaledRate(p, y)
    ensures RampGap(p, y) <= RampGap(p, x)
  {
    RateBetween(p, x);
    RateBetween(p, y);
    MulMonotone(PeakRPS(p), SECOND, p.duration);
    DivMonotone(SECOND * p.duration, ScaledRate(p, x), ScaledRate(p, y));
    DivMonotone(SECOND * p.duration, ScaledRate(p, y), SECOND * p.duration);
  }

  lemma {:induction false} RampArrives(p: Phase, offset: Duration)
    requires 0 < p.duration && 0 <= offset
    ensures Arrivals(RampFrom(p, offset), offset, p.duration)
    ensures offset < p.duration ==> RampFrom(p, offset) != [] && RampFrom(p, offset)[0] == offset
    decreases p.duration - offset
  {
    if offset < p.duration {
      RampArrives(p, offset + RampGap(p, offset));
    }
  }

  /** Each gap is the one the rate at its start calls for, and the last one reaches the end. */
  predicate GapsFollow(p: Phase, r: seq<Duration>)
    requires 0 < p.duration
  {
    && (forall k :: 0 <= k < |r| - 1 ==> r[k + 1] == r[k] + RampGap(p, r[k]))
    && (r != [] ==> p.duration <= r[|r| - 1] + RampGap(p, r[|r| - 1]))
  }

  lemma {:induction false} RampGaps(p: Phase, offset: Duration)
    requires 0 < p.duration
    ensures GapsFollow(p, RampFrom(p, offset))
    decreases p.duration - offset
  {
    if offset < p.duration {
      RampGaps(p, offset + RampGap(p, offset));
    }
  }

  /** A rising ramp never lengthens a gap, a falling one never shortens one. */
  lemma RampGapsMonotone(p: Phase, k: nat)
    requires RampPhase(p) && PeakRPS(p) <= MAX_RATE
    ensures var r := RampFrom(p, 0);
            k + 2 < |r| ==>
              && (p.startRPS <= p.endRPS ==> r[k + 2] - r[k + 1] <= r[k + 1] - r[k])
              && (p.endRPS <= p.startRPS ==> r[k + 1] - r[k] <= r[k + 2] - r[k + 1])
  {
    RampArrives(p, 0);
    RampGaps(p, 0);
    var r := RampFrom(p, 0);
    if k + 2 < |r| {
      var x, y := r[k], r[k + 1];
      assert 0 <= x < y < p.duration && y == x + RampGap(p, x) && r[k + 2] == y + RampGap(p, y);
      RateRises(p, x, y);
      if p.startRPS <= p.endRPS { GapFollowsRate(p, x, y); }
      if p.endRPS <= p.startRPS { GapFollowsRate(p, y, x); }
    }
  }

  // ----- runSchedule

  /** The patterns whose arrivals are determined by the phase, at rates nanoseconds can tell apart. */
  predicate Scheduled(p: Phase) {
    Valid(p) && !p.pattern.Poisson? && PeakRPS(p) <= MAX_RATE
  }

  function Schedule(start: Time, p: Phase): seq<Time>
    requires Scheduled(p)
  {
    if p.pattern.Ramp? then Shifted(start, RampFrom(p, 0))
    else if p.pattern.Step? then Plateaus(start, p, StepCount(p))
    else Grid(start, start + p.duration, Interval(p.startRPS))
  }

  /** The arrivals are those the pattern asks for. */
  ghost predicate AsThePattern(s: seq<Time>, start: Time, p: Phase) {
    match p.pattern
    case Ramp => FollowsRamp(p, Offsets(start, s))
    case Step => forall n: nat :: n * p.stepEvery < p.duration ==> Holds(s, start, p, n)
    case _ => OnTime(s, start, p.startRPS) && FullSeconds(s, start, start + p.duration, p.startRPS)
  }

  method RunSchedule(start: Time, p: Phase, room: Option<nat>) returns (out: seq<Time>)
    requires Scheduled(p)
    ensures room.None? ==> AsThePattern(out, start, p)
    ensures out <= Schedule(start, p) && (out == Schedule(start, p) || room == Some(|out|))
    ensures room.Some? ==> |out| <= room.value
    ensures out == Cut(room, Schedule(start, p))
  {
    if p.pattern.Ramp? {
      out := EmitRamp(start, p, room);
    } else if p.pattern.Step? {
      out := EmitStep(start, p, room);
    } else {
      out := EmitConstant(start, start + p.duration, p.startRPS, room);
    }
  }

  lemma CutArrives(room: Option<nat>, s: seq<Time>, start: Time, end: Time)
    requires Arrivals(s, start, end)
    ensures Arrivals(Cut(room, s), start, end) && Cut(room, s) <= s
  {
  }

  /** Whatever the pattern, arrivals are strictly increasing and inside [start, start + duration),
      the first at once; and a cancelled schedule is a prefix of the full one. */
  lemma ScheduleArrives(start: Time, p: Phase, room: Option<nat>)
    requires Scheduled(p)
    ensures Arrivals(Schedule(start, p), start, start + p.duration)
    ensures Arrivals(Cut(room, Schedule(start, p)), start, start + p.duration)
    ensures Cut(room, Schedule(start, p)) <= Schedule(start, p)
  {
    if p.pattern.Ramp? {
      RampArrives(p, 0);
    } else if p.pattern.Step? {
      PlateausArrive(start, p, StepCount(p));
    } else {
      GridArrives(start, start + p.duration, Interval(p.startRPS));
    }
    CutArrives(room, Schedule(start, p), start, start + p.duration);
  }
}

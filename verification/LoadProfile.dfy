/** internal/controller/loadprofile.go: compiling spec.load into the flat phase list the
    load generator runs. Durations are int64 nanoseconds, and their sums wrap. */
module LoadProfile {
  import opened Basics
  import opened Phases

  const TWO_63: int := 0x8000_0000_0000_0000

  type Int64 = x: int | -TWO_63 <= x < TWO_63

  /** Two's-complement wrap-around of the sum or difference of two int64 values. */
  function Wrap64(x: int): (r: Int64)
    requires -2 * TWO_63 <= x < 2 * TWO_63
    ensures r == x || r == x - 2 * TWO_63 || r == x + 2 * TWO_63
  {
    if x >= TWO_63 then x - 2 * TWO_63 else if x < -TWO_63 then x + 2 * TWO_63 else x
  }

  datatype Spike = Spike(at: Int64, duration: Int64, rps: int) {
    predicate Covers(t: int) {
      at <= t < at + duration
    }
  }

  datatype ProfileError =
    | SlaNotPositive | WarmupNegative | WarmupTooLong | EndRpsRequired | StepRequired | PatternUnknown
    | NoSpikes | Overlaps(index: nat) | PastWindow(index: nat) | NotASpike(index: nat)

  datatype Result<T> = Ok(value: T) | Err(error: ProfileError)

  function Digits(n: nat): string {
    if n < 10 then ["0123456789"[n]] else Digits(n / 10) + ["0123456789"[n % 10]]
  }

  // ----- what decomposeSpike produces

  /** Where the phases emitted for these spikes are taken to end. */
  function Cursor(spikes: seq<Spike>): Int64 {
    if spikes == [] then 0
    else Wrap64(spikes[|spikes| - 1].at + spikes[|spikes| - 1].duration)
  }

  /** Whether one more spike may follow these. */
  predicate Follows(base: int, total: Int64, spikes: seq<Spike>, sw: Spike) {
    && Cursor(spikes) <= sw.at
    && Wrap64(sw.at + sw.duration) <= total
    && base < sw.rps
  }

  predicate Accepts(base: int, total: Int64, spikes: seq<Spike>) {
    spikes == [] ||
    (Accepts(base, total, spikes[..|spikes| - 1]) && Follows(base, total, spikes[..|spikes| - 1], spikes[|spikes| - 1]))
  }

  function Refusal(base: int, total: Int64, spikes: seq<Spike>, sw: Spike): ProfileError
    requires !Follows(base, total, spikes, sw)
  {
    if sw.at < Cursor(spikes) then Overlaps(|spikes|)
    else if total < Wrap64(sw.at + sw.duration) then PastWindow(|spikes|)
    else NotASpike(|spikes|)
  }

  function BaseSlice(base: int, duration: Duration, i: nat): seq<Phase> {
    if duration > 0 then [ConstantPhase(MEASURE + "-base-" + Digits(i), duration, base, true)] else []
  }

  function SpikeSlice(sw: Spike, i: nat): Phase {
    ConstantPhase(MEASURE + "-spike-" + Digits(i), sw.duration, sw.rps, true)
  }

  /** The phases up to the end of the last spike: a base slice where there is a gap, then the spike. */
  function Slices(base: int, spikes: seq<Spike>): seq<Phase> {
    if spikes == [] then []
    else
      var n := |spikes| - 1;
      Slices(base, spikes[..n])
      + BaseSlice(base, Wrap64(spikes[n].at - Cursor(spikes[..n])), n)
      + [SpikeSlice(spikes[n], n)]
  }

  function TailSlice(base: int, duration: Duration): seq<Phase> {
    if duration > 0 then [ConstantPhase(MEASURE + "-base-tail", duration, base, true)] else []
  }

  function Compiled(base: int, total: Int64, spikes: seq<Spike>): seq<Phase> {
    Slices(base, spikes) + TailSlice(base, Wrap64(total - Cursor(spikes)))
  }

  lemma OneMoreSpike(base: int, total: Int64, spikes: seq<Spike>, i: nat)
    requires i < |spikes|
    ensures Slices(base, spikes[..i + 1])
            == Slices(base, spikes[..i]) + BaseSlice(base, Wrap64(spikes[i].at - Cursor(spikes[..i])), i)
               + [SpikeSlice(spikes[i], i)]
    ensures Cursor(spikes[..i + 1]) == Wrap64(spikes[i].at + spikes[i].duration)
    ensures Accepts(base, total, spikes[..i + 1]) <==>
              Accepts(base, total, spikes[..i]) && Follows(base, total, spikes[..i], spikes[i])
  {
    assert spikes[..i + 1][..i] == spikes[..i];
  }

  /** An accepted list is accepted at every point of the loop. */
  lemma {:induction false} AcceptsPrefix(base: int, total: Int64, spikes: seq<Spike>, i: nat)
    requires Accepts(base, total, spikes) && i <= |spikes|
    ensures Accepts(base, total, spikes[..i])
    ensures i < |spikes| ==> Follows(base, total, spikes[..i], spikes[i])
    decreases |spikes|
  {
    if i < |spikes| - 1 {
      AcceptsPrefix(base, total, spikes[..|spikes| - 1], i);
      assert spikes[..|spikes| - 1][..i] == spikes[..i];
    } else if i == |spikes| {
      assert spikes[..i] == spikes;
    }
  }

  /** Spike i is a spike, ends inside the window, and begins no earlier than the one before it ends,
      as int64 sums go. */
  predicate InOrder(base: int, total: Int64, spikes: seq<Spike>, i: nat)
    requires i < |spikes|
  {
    && base < spikes[i].rps
    && Wrap64(spikes[i].at + spikes[i].duration) <= total
    && (if i == 0 then 0 else Wrap64(spikes[i - 1].at + spikes[i - 1].duration)) <= spikes[i].at
  }

  /** A list is accepted exactly when all its spikes are in order. */
  lemma {:induction false} AcceptsIff(base: int, total: Int64, spikes: seq<Spike>)
    ensures Accepts(base, total, spikes) <==> forall i: nat :: i < |spikes| ==> InOrder(base, total, spikes, i)
    decreases |spikes|
  {
    if spikes != [] {
      var n := |spikes| - 1;
      AcceptsIff(base, total, spikes[..n]);
      assert forall i: nat :: i < n ==> InOrder(base, total, spikes[..n], i) == InOrder(base, total, spikes, i);
      assert Follows(base, total, spikes[..n], spikes[n]) <==> InOrder(base, total, spikes, n);
    }
  }

  /** The index an error about a spike names. */
  function Blames(e: ProfileError): Option<nat> {
    match e
    case Overlaps(i) => Some(i)
    case PastWindow(i) => Some(i)
    case NotASpike(i) => Some(i)
    case _ => None
  }

  /** The first spike out of order is blamed, and for what is wrong with it. */
  ghost predicate BlamesFirst(base: int, total: Int64, spikes: seq<Spike>, e: ProfileError) {
    && Blames(e).Some?
    && var i := Blames(e).value;
    && i < |spikes| && !InOrder(base, total, spikes, i)
    && (forall j: nat :: j < i ==> InOrder(base, total, spikes, j))
    && (e.Overlaps? <==> spikes[i].at < (if i == 0 then 0 else Wrap64(spikes[i - 1].at + spikes[i - 1].duration)))
    && (e.PastWindow? <==> !e.Overlaps? && total < Wrap64(spikes[i].at + spikes[i].duration))
  }

  lemma RefusalBlames(base: int, total: Int64, spikes: seq<Spike>, i: nat)
    requires i < |spikes| && Accepts(base, total, spikes[..i]) && !Follows(base, total, spikes[..i], spikes[i])
    ensures BlamesFirst(base, total, spikes, Refusal(base, total, spikes[..i], spikes[i]))
  {
    AcceptsIff(base, total, spikes[..i]);
    assert forall j: nat :: j < i ==> InOrder(base, total, spikes[..i], j) == InOrder(base, total, spikes, j);
  }

  /** The error names the first spike that is not acceptable, and why. */
  ghost predicate Rejects(base: int, total: Int64, spikes: seq<Spike>, e: ProfileError) {
    exists i: nat :: i < |spikes| && Accepts(base, total, spikes[..i])
      && !Follows(base, total, spikes[..i], spikes[i]) && e == Refusal(base, total, spikes[..i], spikes[i])
  }

  lemma FirstRefusal(base: int, total: Int64, spikes: seq<Spike>, i: nat)
    requires i < |spikes| && Accepts(base, total, spikes[..i]) && !Follows(base, total, spikes[..i], spikes[i])
    ensures Rejects(base, total, spikes, Refusal(base, total, spikes[..i], spikes[i]))
    ensures !Accepts(base, total, spikes)
  {
    if Accepts(base, total, spikes) { AcceptsPrefix(base, total, spikes, i); }
  }

  method DecomposeSpike(base: int, total: Int64, spikes: seq<Spike>) returns (r: Result<seq<Phase>>)
    ensures spikes == [] ==> r == Err(NoSpikes)
    ensures r.Ok? <==> spikes != [] && Accepts(base, total, spikes)
    ensures r.Ok? ==> r.value == Compiled(base, total, spikes)
    ensures r.Ok? <==> spikes != [] && forall i: nat :: i < |spikes| ==> InOrder(base, total, spikes, i)
    ensures r.Err? && spikes != [] ==> Rejects(base, total, spikes, r.error) && BlamesFirst(base, total, spikes, r.error)
  {
    AcceptsIff(base, total, spikes);
    if |spikes| == 0 {
      return Err(NoSpikes);
    }
    var phases: seq<Phase> := [];
    var cursor: Int64 := 0;
    for i := 0 to |spikes|
      invariant cursor == Cursor(spikes[..i])
      invariant phases == Slices(base, spikes[..i])
      invariant Accepts(base, total, spikes[..i])
    {
      var sw := spikes[i];
      var refusal := CheckSpike(base, total, cursor, sw, i);
      if refusal.Some? {
        FirstRefusal(base, total, spikes, i);
        RefusalBlames(base, total, spikes, i);
        return Err(refusal.value);
      }
      OneMoreSpike(base, total, spikes, i);
      phases := AppendSpike(phases, base, cursor, sw, i);
      cursor := Wrap64(sw.at + sw.duration);
    }
    assert spikes[..|spikes|] == spikes;
    phases := AppendTail(phases, base, total, cursor);
    r := Ok(phases);
  }

  method CheckSpike(base: int, total: Int64, cursor: Int64, sw: Spike, i: nat) returns (refusal: Option<ProfileError>)
    ensures refusal.None? <==> cursor <= sw.at && Wrap64(sw.at + sw.duration) <= total && base < sw.rps
    ensures refusal.Some? ==>
              refusal.value == (if sw.at < cursor then Overlaps(i)
                                else if total < Wrap64(sw.at + sw.duration) then PastWindow(i) else NotASpike(i))
  {
    if sw.at < cursor {
      return Some(Overlaps(i));
    }
    if Wrap64(sw.at + sw.duration) > total {
      return Some(PastWindow(i));
    }
    if sw.rps <= base {
      return Some(NotASpike(i));
    }
    refusal := None;
  }

  method AppendSpike(phases: seq<Phase>, base: int, cursor: Int64, sw: Spike, i: nat) returns (r: seq<Phase>)
    ensures r == phases + BaseSlice(base, Wrap64(sw.at - cursor), i) + [SpikeSlice(sw, i)]
  {
    r := phases;
    var pre := Wrap64(sw.at - cursor);
    if pre > 0 {
      r := r + [ConstantPhase(MEASURE + "-base-" + Digits(i), pre, base, true)];
    }
    r := r + [ConstantPhase(MEASURE + "-spike-" + Digits(i), sw.duration, sw.rps, true)];
  }

  method AppendTail(phases: seq<Phase>, base: int, total: Int64, cursor: Int64) returns (r: seq<Phase>)
    ensures r == phases + TailSlice(base, Wrap64(total - cursor))
  {
    r := phases;
    var tail := Wrap64(total - cursor);
    if tail > 0 {
      r := r + [ConstantPhase(MEASURE + "-base-tail", tail, base, true)];
    }
  }
}

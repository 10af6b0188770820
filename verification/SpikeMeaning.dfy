/** The compiled phase list means what the spike list says. */
module SpikeMeaning {
  import opened Basics
  import opened Phases
  import opened LoadProfile

  predicate Positive(spikes: seq<Spike>) {
    forall i :: 0 <= i < |spikes| ==> 0 < spikes[i].duration
  }

  /** No spike's end leaves the int64 range. */
  predicate Fits(spikes: seq<Spike>) {
    forall i :: 0 <= i < |spikes| ==> spikes[i].at + spikes[i].duration < TWO_63
  }

  /** The rate the spike list asks for at t: the spike's inside its window, the base rate elsewhere. */
  predicate Asks(base: int, spikes: seq<Spike>, t: int, rate: int) {
    && (forall i :: 0 <= i < |spikes| && spikes[i].Covers(t) ==> rate == spikes[i].rps)
    && ((forall i :: 0 <= i < |spikes| ==> !spikes[i].Covers(t)) ==> rate == base)
  }

  lemma {:induction false} SpikesInOrder(base: int, total: Int64, spikes: seq<Spike>)
    requires Accepts(base, total, spikes) && Positive(spikes) && Fits(spikes)
    ensures 0 <= Cursor(spikes)
    ensures spikes != [] ==> Cursor(spikes) == spikes[|spikes| - 1].at + spikes[|spikes| - 1].duration <= total
    ensures forall i :: 0 <= i < |spikes| ==> 0 <= spikes[i].at && spikes[i].at + spikes[i].duration <= Cursor(spikes)
    decreases |spikes|
  {
    if spikes != [] {
      var n := |spikes| - 1;
      SpikesInOrder(base, total, spikes[..n]);
      forall i | 0 <= i < n
        ensures 0 <= spikes[i].at && spikes[i].at + spikes[i].duration <= Cursor(spikes)
      {
        assert spikes[..n][i] == spikes[i];
      }
    }
  }

  lemma {:induction false} SlicesNonNegative(base: int, spikes: seq<Spike>)
    requires Positive(spikes)
    ensures NonNegative(Slices(base, spikes))
    decreases |spikes|
  {
    if spikes != [] { SlicesNonNegative(base, spikes[..|spikes| - 1]); }
  }

  lemma TotalOfSlices(base: int, spikes: seq<Spike>)
    requires spikes != []
    ensures var n := |spikes| - 1;
            var pre := Wrap64(spikes[n].at - Cursor(spikes[..n]));
            TotalDuration(Slices(base, spikes))
            == TotalDuration(Slices(base, spikes[..n])) + (if pre > 0 then pre else 0) + spikes[n].duration
  {
    var n := |spikes| - 1;
    var gap := BaseSlice(base, Wrap64(spikes[n].at - Cursor(spikes[..n])), n);
    TotalConcat(Slices(base, spikes[..n]) + gap, [SpikeSlice(spikes[n], n)]);
    TotalConcat(Slices(base, spikes[..n]), gap);
  }

  /** The phases up to the last spike last exactly up to its end. */
  lemma {:induction false} SlicesReachCursor(base: int, total: Int64, spikes: seq<Spike>)
    requires Accepts(base, total, spikes) && Positive(spikes) && Fits(spikes)
    ensures TotalDuration(Slices(base, spikes)) == Cursor(spikes)
    decreases |spikes|
  {
    if spikes != [] {
      var n := |spikes| - 1;
      SpikesInOrder(base, total, spikes[..n]);
      SlicesReachCursor(base, total, spikes[..n]);
      TotalOfSlices(base, spikes);
    }
  }

  lemma LastSliceRate(base: int, pre: Duration, sw: Spike, n: nat, u: int)
    requires 0 <= pre && 0 <= u < pre + sw.duration
    ensures RateAt(BaseSlice(base, pre, n) + [SpikeSlice(sw, n)], u) == if u < pre then base else sw.rps
  {
    RateConcat(BaseSlice(base, pre, n), [SpikeSlice(sw, n)], u);
  }

  /** The last spike may wrap: what comes before it decides where its slice begins. */
  lemma SlicesRate(base: int, total: Int64, spikes: seq<Spike>, t: int)
    requires spikes != [] && Accepts(base, total, spikes) && Positive(spikes) && Fits(spikes[..|spikes| - 1])
    requires 0 <= t < spikes[|spikes| - 1].at + spikes[|spikes| - 1].duration
    ensures var init, sw := spikes[..|spikes| - 1], spikes[|spikes| - 1];
            RateAt(Slices(base, spikes), t)
            == if t < Cursor(init) then RateAt(Slices(base, init), t) else if t < sw.at then base else sw.rps
  {
    var n := |spikes| - 1;
    var init, sw := spikes[..n], spikes[n];
    SpikesInOrder(base, total, init);
    SlicesReachCursor(base, total, init);
    SlicesNonNegative(base, init);
    var rest := BaseSlice(base, sw.at - Cursor(init), n) + [SpikeSlice(sw, n)];
    assert Slices(base, spikes) == Slices(base, init) + rest;
    RateConcat(Slices(base, init), rest, t);
    if Cursor(init) <= t { LastSliceRate(base, sw.at - Cursor(init), sw, n, t - Cursor(init)); }
  }

  lemma AsksOneMore(base: int, init: seq<Spike>, sw: Spike, t: int, rate: int)
    requires if sw.Covers(t) then rate == sw.rps && forall i :: 0 <= i < |init| ==> !init[i].Covers(t)
             else Asks(base, init, t, rate)
    ensures Asks(base, init + [sw], t, rate)
  {
    var all := init + [sw];
    assert all[|init|] == sw;
    assert forall i :: 0 <= i < |init| ==> all[i] == init[i];
  }

  lemma {:induction false} SlicesAsk(base: int, total: Int64, spikes: seq<Spike>, t: int)
    requires spikes != [] && Accepts(base, total, spikes) && Positive(spikes) && Fits(spikes[..|spikes| - 1])
    requires 0 <= t < spikes[|spikes| - 1].at + spikes[|spikes| - 1].duration
    ensures Asks(base, spikes, t, RateAt(Slices(base, spikes), t))
    decreases |spikes|
  {
    var n := |spikes| - 1;
    var init, sw := spikes[..n], spikes[n];
    assert spikes == init + [sw];
    SpikesInOrder(base, total, init);
    SlicesRate(base, total, spikes, t);
    if t < Cursor(init) {
      FitsPrefix(init);
      SlicesAsk(base, total, init, t);
    }
    AsksOneMore(base, init, sw, t, RateAt(Slices(base, spikes), t));
  }

  lemma FitsPrefix(spikes: seq<Spike>)
    requires spikes != [] && Fits(spikes)
    ensures Fits(spikes[..|spikes| - 1])
  {
  }

  /** Later spikes only add phases behind. */
  lemma {:induction false} SlicesPrefix(base: int, spikes: seq<Spike>, k: nat)
    requires k <= |spikes|
    ensures Slices(base, spikes[..k]) <= Slices(base, spikes)
    decreases |spikes|
  {
    if k < |spikes| {
      var n := |spikes| - 1;
      assert spikes[..n][..k] == spikes[..k];
      SlicesPrefix(base, spikes[..n], k);
    } else {
      assert spikes[..k] == spikes;
    }
  }

  /** The first spike whose end leaves the int64 range, or |spikes| when all fit. */
  function FirstWrap(spikes: seq<Spike>): (k: nat)
    ensures k <= |spikes| && Fits(spikes[..k])
    ensures k < |spikes| ==> spikes[k].at + spikes[k].duration >= TWO_63
    ensures k == |spikes| <==> Fits(spikes)
  {
    if spikes == [] then 0
    else
      var init := spikes[..|spikes| - 1];
      var k := FirstWrap(init);
      assert init[..k] == spikes[..k];
      assert spikes[..|spikes|] == spikes;
      if k < |init| || spikes[k].at + spikes[k].duration >= TWO_63 then k else |spikes|
  }

  /** Up to and including the first wrapped spike, the phases already outlast the window. */
  lemma WrapOvershoots(base: int, total: Int64, heard: seq<Spike>)
    requires heard != [] && Accepts(base, total, heard) && Positive(heard)
    requires Fits(heard[..|heard| - 1]) && heard[|heard| - 1].at + heard[|heard| - 1].duration >= TWO_63
    ensures TotalDuration(Slices(base, heard)) > total
  {
    var k := |heard| - 1;
    SpikesInOrder(base, total, heard[..k]);
    SlicesReachCursor(base, total, heard[..k]);
    TotalOfSlices(base, heard);
  }

  /** Compiled phases split behind the first n spikes. */
  lemma CompiledSplit(base: int, total: Int64, spikes: seq<Spike>, n: nat) returns (rest: seq<Phase>)
    requires n <= |spikes| && Positive(spikes)
    ensures Compiled(base, total, spikes) == Slices(base, spikes[..n]) + rest
    ensures NonNegative(Slices(base, spikes[..n])) && NonNegative(rest)
  {
    SlicesPrefix(base, spikes, n);
    SlicesNonNegative(base, spikes[..n]);
    SlicesNonNegative(base, spikes);
    var all := Slices(base, spikes);
    rest := all[|Slices(base, spikes[..n])|..] + TailSlice(base, Wrap64(total - Cursor(spikes)));
  }

  lemma FittingRate(base: int, total: Int64, spikes: seq<Spike>, t: int)
    requires spikes != [] && Accepts(base, total, spikes) && Positive(spikes) && Fits(spikes) && 0 <= t < total
    ensures Asks(base, spikes, t, RateAt(Compiled(base, total, spikes), t))
  {
    SpikesInOrder(base, total, spikes);
    SlicesReachCursor(base, total, spikes);
    SlicesNonNegative(base, spikes);
    RateConcat(Slices(base, spikes), TailSlice(base, Wrap64(total - Cursor(spikes))), t);
    if t < Cursor(spikes) {
      FitsPrefix(spikes);
      SlicesAsk(base, total, spikes, t);
    }
  }

  /** The spikes up to and including the first that wraps. */
  lemma HeardPrefix(base: int, total: Int64, spikes: seq<Spike>) returns (heard: seq<Spike>)
    requires Accepts(base, total, spikes) && Positive(spikes) && !Fits(spikes)
    ensures heard == Heard(spikes) && heard != [] && |heard| <= |spikes| && heard == spikes[..|heard|]
    ensures Accepts(base, total, heard) && Positive(heard) && Fits(heard[..|heard| - 1])
    ensures heard[|heard| - 1].at + heard[|heard| - 1].duration >= TWO_63
  {
    var k := FirstWrap(spikes);
    heard := spikes[..k + 1];
    AcceptsPrefix(base, total, spikes, k + 1);
    assert heard[..k] == spikes[..k];
  }

  lemma WrappedRate(base: int, total: Int64, spikes: seq<Spike>, t: int)
    requires Accepts(base, total, spikes) && Positive(spikes) && !Fits(spikes) && 0 <= t < total
    ensures Asks(base, Heard(spikes), t, RateAt(Compiled(base, total, spikes), t))
  {
    var heard := HeardPrefix(base, total, spikes);
    var rest := CompiledSplit(base, total, spikes, |heard|);
    WrapOvershoots(base, total, heard);
    RateConcat(Slices(base, heard), rest, t);
    SlicesAsk(base, total, heard, t);
  }

  /** The rate is what the spikes up to and including the first wrapped one ask for. */
  lemma CompiledRate(base: int, total: Int64, spikes: seq<Spike>, t: int)
    requires spikes != [] && Accepts(base, total, spikes) && Positive(spikes) && 0 <= t < total
    ensures Asks(base, Heard(spikes), t, RateAt(Compiled(base, total, spikes), t))
  {
    if Fits(spikes) {
      FittingRate(base, total, spikes, t);
    } else {
      WrappedRate(base, total, spikes, t);
    }
  }

  /** The spikes that take effect: those up to and including the first that wraps. */
  function Heard(spikes: seq<Spike>): seq<Spike> {
    if FirstWrap(spikes) < |spikes| then spikes[..FirstWrap(spikes) + 1] else spikes
  }

  /** The rate a list asks for where it is consistent. */
  function Asked(base: int, spikes: seq<Spike>, t: int): int {
    if spikes == [] then base
    else if spikes[|spikes| - 1].Covers(t) then spikes[|spikes| - 1].rps
    else Asked(base, spikes[..|spikes| - 1], t)
  }

  lemma {:induction false} AsksIsAsked(base: int, spikes: seq<Spike>, t: int, rate: int)
    requires Asks(base, spikes, t, rate)
    ensures rate == Asked(base, spikes, t)
    decreases |spikes|
  {
    if spikes != [] && !spikes[|spikes| - 1].Covers(t) {
      AsksIsAsked(base, spikes[..|spikes| - 1], t, rate);
    }
  }

  /** No spike behind the first wrapped one asks, at t, for a rate of its own. */
  predicate HeardAt(base: int, spikes: seq<Spike>, t: int) {
    forall j :: |Heard(spikes)| <= j < |spikes| && spikes[j].Covers(t) ==> spikes[j].rps == Asked(base, Heard(spikes), t)
  }

  lemma RateIsAsked(base: int, total: Int64, spikes: seq<Spike>, t: int)
    requires spikes != [] && Accepts(base, total, spikes) && Positive(spikes) && 0 <= t < total
    ensures var rate := RateAt(Compiled(base, total, spikes), t);
            rate == Asked(base, Heard(spikes), t) && (Asks(base, spikes, t, rate) <==> HeardAt(base, spikes, t))
  {
    var rate := RateAt(Compiled(base, total, spikes), t);
    var heard := Heard(spikes);
    CompiledRate(base, total, spikes, t);
    AsksIsAsked(base, heard, t, rate);
    assert forall i :: 0 <= i < |heard| ==> heard[i] == spikes[i];
  }

  /** The phases have, throughout the window, the rate the spike list asks for. */
  ghost predicate MeansWhatItSays(base: int, total: Int64, spikes: seq<Spike>) {
    forall t :: 0 <= t < total ==> Asks(base, spikes, t, RateAt(Compiled(base, total, spikes), t))
  }

  /** Throughout the window every spike is heard: always so when none wraps. */
  ghost predicate AllHeard(base: int, total: Int64, spikes: seq<Spike>) {
    forall t :: 0 <= t < total ==> HeardAt(base, spikes, t)
  }

  /** An accepted spike list with positive durations is compiled to phases that fill the window
      exactly if and only if no spike's end wraps; and they mean what it says at every instant if
      and only if no spike behind the first wrapped one asks for anything else. */
  lemma CompiledMeaning(base: int, total: Int64, spikes: seq<Spike>)
    requires spikes != [] && Accepts(base, total, spikes) && Positive(spikes)
    ensures TotalDuration(Compiled(base, total, spikes)) == total <==> Fits(spikes)
    ensures MeansWhatItSays(base, total, spikes) <==> AllHeard(base, total, spikes)
    ensures Fits(spikes) ==> AllHeard(base, total, spikes)
  {
    if Fits(spikes) { FittingTotal(base, total, spikes); } else { WrappedTotal(base, total, spikes); }
    forall t | 0 <= t < total
      ensures Asks(base, spikes, t, RateAt(Compiled(base, total, spikes), t)) <==> HeardAt(base, spikes, t)
    {
      RateIsAsked(base, total, spikes, t);
    }
  }

  lemma FittingTotal(base: int, total: Int64, spikes: seq<Spike>)
    requires spikes != [] && Accepts(base, total, spikes) && Positive(spikes) && Fits(spikes)
    ensures TotalDuration(Compiled(base, total, spikes)) == total
  {
    SpikesInOrder(base, total, spikes);
    SlicesReachCursor(base, total, spikes);
    TotalConcat(Slices(base, spikes), TailSlice(base, Wrap64(total - Cursor(spikes))));
  }

  lemma WrappedTotal(base: int, total: Int64, spikes: seq<Spike>)
    requires Accepts(base, total, spikes) && Positive(spikes) && !Fits(spikes)
    ensures TotalDuration(Compiled(base, total, spikes)) > total
  {
    var heard := HeardPrefix(base, total, spikes);
    var rest := CompiledSplit(base, total, spikes, |heard|);
    WrapOvershoots(base, total, heard);
    TotalConcat(Slices(base, heard), rest);
    TotalNonNegative(rest);
  }

  lemma {:induction false} SpikeIsCompiled(base: int, spikes: seq<Spike>, i: nat)
    requires i < |spikes|
    ensures SpikeSlice(spikes[i], i) in Slices(base, spikes)
    decreases |spikes|
  {
    if i < |spikes| - 1 {
      SpikeIsCompiled(base, spikes[..|spikes| - 1], i);
    }
  }

  lemma {:induction false} SlicesValid(base: int, total: Int64, spikes: seq<Spike>)
    requires 0 < base && Accepts(base, total, spikes) && Positive(spikes)
    ensures forall p :: p in Slices(base, spikes) ==> Valid(p)
    decreases |spikes|
  {
    if spikes != [] {
      var n := |spikes| - 1;
      SlicesValid(base, total, spikes[..n]);
    }
  }

  /** With a positive base rate, the load generator accepts every compiled phase exactly when
      every spike lasts for a positive time. */
  lemma CompiledValid(base: int, total: Int64, spikes: seq<Spike>)
    requires 0 < base && Accepts(base, total, spikes)
    ensures (forall p :: p in Compiled(base, total, spikes) ==> Valid(p)) <==> Positive(spikes)
  {
    if Positive(spikes) {
      SlicesValid(base, total, spikes);
    } else {
      var i :| 0 <= i < |spikes| && spikes[i].duration <= 0;
      SpikeIsCompiled(base, spikes, i);
      assert SpikeSlice(spikes[i], i) in Compiled(base, total, spikes);
    }
  }

  /** A wrapped list that is accepted and goes wrong: the second spike is let in behind the
      cursor and never takes effect where it was asked for. */
  lemma OverflowIsAccepted() returns (base: int, total: Int64, spikes: seq<Spike>)
    ensures Accepts(base, total, spikes) && Positive(spikes)
    ensures 0 < total && !Asks(base, spikes, 0, RateAt(Compiled(base, total, spikes), 0))
  {
    base, total := 1, 10;
    var first, second := Spike(1, TWO_63 - 1, 100), Spike(0, 1, 50);
    spikes := [first, second];
    assert spikes[..0] == [] && spikes[..1] == [first] && [first][..0] == [];
    assert Cursor([first]) == -TWO_63;
    assert Accepts(base, total, []);
    assert Accepts(base, total, [first]);
    assert Follows(base, total, [first], second);
    assert FirstWrap([first]) == 0 && FirstWrap(spikes) == 0 && Heard(spikes) == [first];
    RateIsAsked(base, total, spikes, 0);
    assert Asked(base, [first], 0) == 1;
    assert spikes[1].Covers(0);
  }

  /** A wrapped list that is accepted and does no harm to the rate: only the total is wrong. */
  lemma OverflowMayBeHarmless() returns (base: int, total: Int64, spikes: seq<Spike>)
    ensures spikes != [] && Accepts(base, total, spikes) && Positive(spikes) && !Fits(spikes)
    ensures MeansWhatItSays(base, total, spikes)
  {
    base, total, spikes := 1, 10, [Spike(5, TWO_63 - 1, 100)];
    assert spikes[..0] == [] && Accepts(base, total, []);
    assert FirstWrap(spikes) == 0;
    CompiledMeaning(base, total, spikes);
  }
}

/** internal/analyzer/hpa: the online watcher of replica counts, against what the whole
    sample history says. */
module HpaWatcher {
  import opened Basics

  datatype Snapshot = Snapshot(at: Time, current: int, desired: int, conditions: seq<string>)

  datatype Report = Report(
    started: Time,
    ended: Time,
    startReplicas: int,
    peakReplicas: int,
    desiredReplicas: int,
    reactionLatency: Duration,
    settleLatency: Duration,
    sla: Duration,
    slaBreached: bool,
    reacted: bool,
    settled: bool,
    latestConditions: seq<string>)

  // ----- what the history says

  datatype Milestone = React | Settle

  /** Scaling up has begun; scaling up has reached what was asked for. */
  predicate Qualifies(m: Milestone, initial: Snapshot, s: Snapshot) {
    match m
    case React => initial.current < s.current
    case Settle => initial.current < s.desired <= s.current
  }

  /** The time of the first sample that qualifies. */
  function FirstAt(m: Milestone, initial: Snapshot, h: seq<Snapshot>): Option<Time> {
    if h == [] then None
    else if Qualifies(m, initial, h[0]) then Some(h[0].at)
    else FirstAt(m, initial, h[1..])
  }

  predicate IsFirst(m: Milestone, initial: Snapshot, h: seq<Snapshot>, k: int) {
    0 <= k < |h| && Qualifies(m, initial, h[k]) && forall j :: 0 <= j < k ==> !Qualifies(m, initial, h[j])
  }

  lemma {:induction false} FirstAtIsFirst(m: Milestone, initial: Snapshot, h: seq<Snapshot>) returns (k: nat)
    ensures FirstAt(m, initial, h).None? <==> forall j :: 0 <= j < |h| ==> !Qualifies(m, initial, h[j])
    ensures FirstAt(m, initial, h).Some? ==> IsFirst(m, initial, h, k) && FirstAt(m, initial, h) == Some(h[k].at)
  {
    k := 0;
    if h != [] && !Qualifies(m, initial, h[0]) {
      var i := FirstAtIsFirst(m, initial, h[1..]);
      k := i + 1;
    }
  }

  lemma {:induction false} FirstAtConcat(m: Milestone, initial: Snapshot, a: seq<Snapshot>, b: seq<Snapshot>)
    ensures FirstAt(m, initial, a + b)
            == if FirstAt(m, initial, a).Some? then FirstAt(m, initial, a) else FirstAt(m, initial, b)
  {
    if a == [] {
      assert a + b == b;
    } else {
      assert (a + b)[1..] == a[1..] + b;
      FirstAtConcat(m, initial, a[1..], b);
    }
  }

  predicate IsPeak(initial: Snapshot, h: seq<Snapshot>, peak: int) {
    && initial.current <= peak && (forall k :: 0 <= k < |h| ==> h[k].current <= peak)
    && (peak == initial.current || exists k :: 0 <= k < |h| && h[k].current == peak)
  }

  function LastOf(initial: Snapshot, h: seq<Snapshot>): Snapshot {
    if h == [] then initial else h[|h| - 1]
  }

  /** The SLA is broken: never settled although the time was there, or settled too late. */
  predicate Breached(sla: Duration, initial: Snapshot, h: seq<Snapshot>) {
    && 0 < sla
    && var settle := FirstAt(Settle, initial, h);
    if settle.Some? then sla < settle.value - initial.at else sla <= LastOf(initial, h).at - initial.at
  }

  predicate Summarizes(r: Report, sla: Duration, initial: Snapshot, h: seq<Snapshot>) {
    var react, settle := FirstAt(React, initial, h), FirstAt(Settle, initial, h);
    var last := LastOf(initial, h);
    && r.started == initial.at && r.ended == last.at && r.sla == sla
    && r.startReplicas == initial.current && IsPeak(initial, h, r.peakReplicas)
    && r.desiredReplicas == last.desired && r.latestConditions == last.conditions
    && r.reacted == react.Some? && r.reactionLatency == (if react.Some? then react.value - initial.at else 0)
    && r.settled == settle.Some? && r.settleLatency == (if settle.Some? then settle.value - initial.at else 0)
    && r.slaBreached == Breached(sla, initial, h)
  }

  // ----- the watcher

  class Watcher {
    const sla: Duration
    const initial: Snapshot
    var samples: seq<Snapshot>
    var maxRepl: int
    var reactAt: Option<Time>
    var settleAt: Option<Time>

    /** The recorded samples, without the initial one. */
    function Recorded(): seq<Snapshot>
      requires samples != []
      reads this
    {
      samples[1..]
    }

    /** The fields are the first matches over everything recorded; note that Settle does not
        mention the reaction that Record asks for first. */
    ghost predicate Valid()
      reads this
    {
      && samples != [] && samples[0] == initial
      && IsPeak(initial, Recorded(), maxRepl)
      && reactAt == FirstAt(React, initial, Recorded())
      && settleAt == FirstAt(Settle, initial, Recorded())
    }

    constructor (initial: Snapshot, sla: Duration)
      ensures Valid() && Recorded() == [] && this.initial == initial && this.sla == sla
    {
      this.sla, this.initial := sla, initial;
      samples, maxRepl := [initial], initial.current;
      reactAt, settleAt := None, None;
    }

    method Record(s: Snapshot)
      requires Valid()
      modifies this
      ensures Valid() && samples == old(samples) + [s]
    {
      ghost var before := Recorded();
      samples := samples + [s];
      assert Recorded() == before + [s];
      if s.current > maxRepl {
        maxRepl := s.current;
      }
      assert IsPeak(initial, before + [s], maxRepl) by { PeakOneMore(initial, before, s, old(maxRepl)); }
      FirstAtConcat(React, initial, before, [s]);
      FirstAtConcat(Settle, initial, before, [s]);
      if reactAt.None? && s.current > initial.current {
        reactAt := Some(s.at);
      }
      if reactAt.Some? && settleAt.None? && s.desired > initial.current && s.current >= s.desired {
        settleAt := Some(s.at);
      }
    }

    method Summarize() returns (r: Report)
      requires Valid()
      ensures r.reacted <==> exists k :: 0 <= k < |Recorded()| && initial.current < Recorded()[k].current
      ensures r.settled <==>
                exists k :: 0 <= k < |Recorded()| && initial.current < Recorded()[k].desired <= Recorded()[k].current
      ensures r.slaBreached <==>
                0 < r.sla && if r.settled then r.sla < r.settleLatency else r.sla <= r.ended - r.started
      ensures Summarizes(r, sla, initial, Recorded())
    {
      ghost var i := FirstAtIsFirst(React, initial, Recorded());
      ghost var j := FirstAtIsFirst(Settle, initial, Recorded());
      var last := samples[|samples| - 1];
      assert last == LastOf(initial, Recorded());
      r := Report(initial.at, last.at, initial.current, maxRepl, last.desired, 0, 0, sla, false, false, false, last.conditions);
      if reactAt.Some? {
        r := r.(reactionLatency := reactAt.value - initial.at, reacted := true);
      }
      if settleAt.Some? {
        r := r.(settleLatency := settleAt.value - initial.at, settled := true);
      }
      if sla <= 0 {
      } else if !r.settled {
        if r.ended - r.started >= sla {
          r := r.(slaBreached := true);
        }
      } else if r.settleLatency > sla {
        r := r.(slaBreached := true);
      }
    }
  }

  lemma PeakOneMore(initial: Snapshot, h: seq<Snapshot>, s: Snapshot, peak: int)
    requires IsPeak(initial, h, peak)
    ensures IsPeak(initial, h + [s], if s.current > peak then s.current else peak)
  {
    assert (h + [s])[|h|] == s;
    if peak != initial.current {
      var k :| 0 <= k < |h| && h[k].current == peak;
      assert (h + [s])[k] == h[k];
    }
  }

  // ----- what the report promises

  predicate NeverBackwards(initial: Snapshot, h: seq<Snapshot>) {
    && (forall k :: 0 <= k < |h| ==> initial.at <= h[k].at)
    && (forall j, k :: 0 <= j < k < |h| ==> h[j].at <= h[k].at)
  }

  predicate Ticking(h: seq<Snapshot>) {
    forall j, k :: 0 <= j < k < |h| ==> h[j].at < h[k].at
  }

  /** Settling implies having reacted, no later. */
  lemma ReactionBeforeSettle(r: Report, sla: Duration, initial: Snapshot, h: seq<Snapshot>)
    requires Summarizes(r, sla, initial, h) && NeverBackwards(initial, h)
    ensures r.settled ==> r.reacted && 0 <= r.reactionLatency <= r.settleLatency
  {
    var i := FirstAtIsFirst(React, initial, h);
    var k := FirstAtIsFirst(Settle, initial, h);
    if r.settled {
      assert Qualifies(React, initial, h[k]);
      assert i <= k;
    }
  }

  /** While time moves on between samples, a breach once reported is never taken back. */
  lemma BreachIsFinal(sla: Duration, initial: Snapshot, h: seq<Snapshot>, more: seq<Snapshot>)
    requires Ticking([initial] + h + more) && Breached(sla, initial, h)
    ensures Breached(sla, initial, h + more)
  {
    var all := [initial] + h + more;
    assert LastOf(initial, h) == all[|h|];
    assert forall i :: 0 <= i < |more| ==> more[i] == all[1 + |h| + i];
    FirstAtConcat(Settle, initial, h, more);
    var k := FirstAtIsFirst(Settle, initial, more);
  }

  lemma {:induction false} LaterIsNoEarlier(initial: Snapshot, h: seq<Snapshot>, more: seq<Snapshot>)
    requires NeverBackwards(initial, h + more)
    ensures LastOf(initial, h).at <= LastOf(initial, h + more).at
    ensures forall i :: 0 <= i < |more| ==> LastOf(initial, h).at <= more[i].at
  {
    forall i | 0 <= i < |more|
      ensures LastOf(initial, h).at <= more[i].at
    {
      assert more[i] == (h + more)[|h| + i];
      if h != [] { assert LastOf(initial, h) == (h + more)[|h| - 1]; }
    }
    if more == [] { assert h + more == h; } else { assert LastOf(initial, h + more) == more[|more| - 1]; }
  }

  lemma {:induction false} BreachOrExact(sla: Duration, initial: Snapshot, h: seq<Snapshot>, more: seq<Snapshot>)
    requires Breached(sla, initial, h)
    requires LastOf(initial, h).at <= LastOf(initial, h + more).at
    requires forall i :: 0 <= i < |more| ==> LastOf(initial, h).at <= more[i].at
    ensures !Breached(sla, initial, h + more) <==>
              FirstAt(Settle, initial, h).None? && FirstAt(Settle, initial, more) == Some(initial.at + sla)
  {
    FirstAtConcat(Settle, initial, h, more);
    var k := FirstAtIsFirst(Settle, initial, more);
  }

  /** When times may repeat, later samples take a breach back exactly when the first of them that
      settles the deployment does so at exactly the SLA. */
  lemma {:induction false} BreachWithdrawn(sla: Duration, initial: Snapshot, h: seq<Snapshot>, more: seq<Snapshot>)
    requires NeverBackwards(initial, h + more) && Breached(sla, initial, h)
    ensures !Breached(sla, initial, h + more) <==>
              FirstAt(Settle, initial, h).None? && FirstAt(Settle, initial, more) == Some(initial.at + sla)
  {
    LaterIsNoEarlier(initial, h, more);
    BreachOrExact(sla, initial, h, more);
  }

  /** Unsettled at exactly the SLA, then settled in a second sample of the same instant. */
  lemma BreachIsTakenBack() returns (sla: Duration, initial: Snapshot, h: seq<Snapshot>, s: Snapshot)
    ensures NeverBackwards(initial, h + [s])
    ensures Breached(sla, initial, h) && !Breached(sla, initial, h + [s])
  {
    sla, initial := 10 * SECOND, Snapshot(0, 1, 1, []);
    h, s := [Snapshot(10 * SECOND, 1, 2, [])], Snapshot(10 * SECOND, 2, 2, []);
    assert FirstAt(Settle, initial, h) == FirstAt(Settle, initial, h[1..]) == None;
    assert FirstAt(Settle, initial, [s]) == Some(initial.at + sla);
    BreachWithdrawn(sla, initial, h, [s]);
  }
}

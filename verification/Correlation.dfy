/** internal/analyzer/leakage and internal/analyzer/drain: attributing failed requests to
    endpoint events. The quadratic match is the specification; the forward-only
    two-cursor scan is proved to agree with it. */
module Correlation {
  import opened Basics

  datatype EventKind = Ready | Removed
  datatype EndpointEvent = EndpointEvent(at: Time, podIP: string, kind: EventKind)
  datatype ErrorSample = ErrorSample(at: Time, category: string, status: int)

  datatype CorrelatedEvent = CorrelatedEvent(event: EndpointEvent, errors: seq<ErrorSample>)

  /** `attributed` is LeakedRequests or DroppedRequests; `spread` is the Window field. */
  datatype Report = Report(
    window: Duration,
    spread: Duration,
    attributed: nat,
    clean: nat,
    correlated: seq<CorrelatedEvent>,
    eventCount: nat)

  /** An event's half-open window [at - lookback, at + window). */
  datatype Shape = Shape(lookback: Duration, window: Duration) {
    predicate Covers(ev: EndpointEvent, es: ErrorSample) {
      ev.at - lookback <= es.at < ev.at + window
    }
  }

  predicate EventsInOrder(evs: seq<EndpointEvent>) {
    forall i, j :: 0 <= i < j < |evs| ==> evs[i].at <= evs[j].at
  }

  predicate ErrorsInOrder(errs: seq<ErrorSample>) {
    forall i, j :: 0 <= i < j < |errs| ==> errs[i].at <= errs[j].at
  }

  // ----- the naive match

  /** The earliest event whose window holds the error, or |evs| when none does. */
  function FirstMatch(shape: Shape, evs: seq<EndpointEvent>, es: ErrorSample): (k: nat)
    ensures k <= |evs|
    ensures k < |evs| ==> shape.Covers(evs[k], es)
    ensures forall i :: 0 <= i < k ==> !shape.Covers(evs[i], es)
  {
    if evs == [] || shape.Covers(evs[0], es) then 0 else 1 + FirstMatch(shape, evs[1..], es)
  }

  /** The errors, in order, whose first match is k; k == |evs| selects the clean ones. */
  function Attributed(shape: Shape, evs: seq<EndpointEvent>, errs: seq<ErrorSample>, k: nat): seq<ErrorSample> {
    if errs == [] then []
    else
      var last := errs[|errs| - 1];
      Attributed(shape, evs, errs[..|errs| - 1], k) + if FirstMatch(shape, evs, last) == k then [last] else []
  }

  /** How many errors fall into the window of some event at all. */
  function Hits(shape: Shape, evs: seq<EndpointEvent>, errs: seq<ErrorSample>): (n: nat)
    ensures n <= |errs|
  {
    if errs == [] then 0
    else
      Hits(shape, evs, errs[..|errs| - 1]) + if FirstMatch(shape, evs, errs[|errs| - 1]) < |evs| then 1 else 0
  }

  lemma OneMoreError(shape: Shape, evs: seq<EndpointEvent>, errs: seq<ErrorSample>, i: nat)
    requires i < |errs|
    ensures forall k: nat :: Attributed(shape, evs, errs[..i + 1], k) ==
              Attributed(shape, evs, errs[..i], k) + if FirstMatch(shape, evs, errs[i]) == k then [errs[i]] else []
    ensures Hits(shape, evs, errs[..i + 1]) ==
              Hits(shape, evs, errs[..i]) + if FirstMatch(shape, evs, errs[i]) < |evs| then 1 else 0
  {
    assert errs[..i + 1][..i] == errs[..i];
  }

  // ----- the scan

  /** With every earlier window closed and the one at the cursor still open, the cursor is the answer. */
  lemma CursorIsFirstMatch(shape: Shape, evs: seq<EndpointEvent>, es: ErrorSample, j: nat)
    requires EventsInOrder(evs) && j <= |evs|
    requires forall m :: 0 <= m < j ==> evs[m].at + shape.window <= es.at
    requires j < |evs| ==> es.at < evs[j].at + shape.window
    ensures FirstMatch(shape, evs, es) == if j < |evs| && evs[j].at - shape.lookback <= es.at then j else |evs|
  {
    var k := FirstMatch(shape, evs, es);
    if k < |evs| {
      assert j <= k;
      assert evs[j].at <= evs[k].at;
    } else if j < |evs| {
      assert !shape.Covers(evs[j], es);
    }
  }

  method Scan(shape: Shape, evs: seq<EndpointEvent>, errs: seq<ErrorSample>)
    returns (lists: seq<seq<ErrorSample>>, attributed: nat, clean: nat, moves: nat)
    requires EventsInOrder(evs) && ErrorsInOrder(errs)
    ensures |lists| == |evs|
    ensures forall k :: 0 <= k < |evs| ==> lists[k] == Attributed(shape, evs, errs, k)
    ensures attributed == Hits(shape, evs, errs)
    ensures clean == |Attributed(shape, evs, errs, |evs|)|
    ensures attributed + clean == |errs|
    ensures moves <= |evs| + |errs|
  {
    lists := seq(|evs|, _ => []);
    attributed, clean := 0, 0;
    var j: nat := 0;
    moves := 0;
    for i := 0 to |errs|
      invariant j <= |evs| && |lists| == |evs| && moves == i + j
      invariant forall m :: 0 <= m < j && i < |errs| ==> evs[m].at + shape.window <= errs[i].at
      invariant forall k :: 0 <= k < |evs| ==> lists[k] == Attributed(shape, evs, errs[..i], k)
      invariant attributed == Hits(shape, evs, errs[..i])
      invariant clean == |Attributed(shape, evs, errs[..i], |evs|)|
      invariant attributed + clean == i
    {
      var es := errs[i];
      while j < |evs| && !(es.at < evs[j].at + shape.window)
        invariant j <= |evs| && moves == i + j
        invariant forall m :: 0 <= m < j ==> evs[m].at + shape.window <= es.at
      {
        j := j + 1;
        moves := moves + 1;
      }
      CursorIsFirstMatch(shape, evs, es, j);
      OneMoreError(shape, evs, errs, i);
      moves := moves + 1;
      if j >= |evs| || es.at < evs[j].at - shape.lookback {
        clean := clean + 1;
        continue;
      }
      lists := lists[j := lists[j] + [es]];
      attributed := attributed + 1;
    }
    assert errs[..|errs|] == errs;
  }

  // ----- conservation and order independence

  lemma {:induction false} AttributedCounts(shape: Shape, evs: seq<EndpointEvent>, errs: seq<ErrorSample>, k: nat, es: ErrorSample)
    ensures multiset(Attributed(shape, evs, errs, k))[es]
            == if FirstMatch(shape, evs, es) == k then multiset(errs)[es] else 0
    decreases |errs|
  {
    if errs != [] {
      var last := errs[|errs| - 1];
      assert errs == errs[..|errs| - 1] + [last];
      AttributedCounts(shape, evs, errs[..|errs| - 1], k, es);
    }
  }

  /** The errors of the first n per-event lists, taken together. */
  function Pooled(lists: seq<seq<ErrorSample>>): multiset<ErrorSample> {
    if lists == [] then multiset{} else Pooled(lists[..|lists| - 1]) + multiset(lists[|lists| - 1])
  }

  lemma {:induction false} PooledCounts(shape: Shape, evs: seq<EndpointEvent>, errs: seq<ErrorSample>,
                                        lists: seq<seq<ErrorSample>>, es: ErrorSample)
    requires forall k :: 0 <= k < |lists| ==> lists[k] == Attributed(shape, evs, errs, k)
    ensures Pooled(lists)[es] == if FirstMatch(shape, evs, es) < |lists| then multiset(errs)[es] else 0
    decreases |lists|
  {
    if lists != [] {
      PooledCounts(shape, evs, errs, lists[..|lists| - 1], es);
      AttributedCounts(shape, evs, errs, |lists| - 1, es);
    }
  }

  /** No error is lost or duplicated: the per-event lists and the clean errors are the input. */
  lemma Conservation(shape: Shape, evs: seq<EndpointEvent>, errs: seq<ErrorSample>, lists: seq<seq<ErrorSample>>)
    requires |lists| == |evs| && forall k :: 0 <= k < |lists| ==> lists[k] == Attributed(shape, evs, errs, k)
    ensures Pooled(lists) + multiset(Attributed(shape, evs, errs, |evs|)) == multiset(errs)
  {
    forall es
      ensures (Pooled(lists) + multiset(Attributed(shape, evs, errs, |evs|)))[es] == multiset(errs)[es]
    {
      PooledCounts(shape, evs, errs, lists, es);
      AttributedCounts(shape, evs, errs, |evs|, es);
    }
  }

  lemma MatchIgnoresOrder(shape: Shape, evs: seq<EndpointEvent>, evs': seq<EndpointEvent>, es: ErrorSample)
    requires multiset(evs) == multiset(evs')
    ensures FirstMatch(shape, evs, es) < |evs| ==> FirstMatch(shape, evs', es) < |evs'|
  {
    var k := FirstMatch(shape, evs, es);
    if k < |evs| {
      assert evs[k] in multiset(evs');
      var i :| 0 <= i < |evs'| && evs'[i] == evs[k];
    }
  }

  lemma {:induction false} HitsAndCleans(shape: Shape, evs: seq<EndpointEvent>, errs: seq<ErrorSample>)
    ensures Hits(shape, evs, errs) + |Attributed(shape, evs, errs, |evs|)| == |errs|
    decreases |errs|
  {
    if errs != [] { HitsAndCleans(shape, evs, errs[..|errs| - 1]); }
  }

  /** The count depends on neither the order of the events nor the order of the errors. */
  lemma HitsIgnoreOrder(shape: Shape, evs: seq<EndpointEvent>, evs': seq<EndpointEvent>,
                        errs: seq<ErrorSample>, errs': seq<ErrorSample>)
    requires multiset(evs) == multiset(evs') && multiset(errs) == multiset(errs')
    ensures Hits(shape, evs, errs) == Hits(shape, evs', errs')
  {
    var clean := Attributed(shape, evs, errs, |evs|);
    var clean' := Attributed(shape, evs', errs', |evs'|);
    forall es
      ensures multiset(clean)[es] == multiset(clean')[es]
    {
      AttributedCounts(shape, evs, errs, |evs|, es);
      AttributedCounts(shape, evs', errs', |evs'|, es);
      MatchIgnoresOrder(shape, evs, evs', es);
      MatchIgnoresOrder(shape, evs', evs, es);
    }
    assert multiset(clean) == multiset(clean');
    assert |clean| == |multiset(clean)| == |multiset(clean')| == |clean'|;
    assert |errs| == |multiset(errs)| == |multiset(errs')| == |errs'|;
    HitsAndCleans(shape, evs, errs);
    HitsAndCleans(shape, evs', errs');
  }

  // ----- the two analyzers

  function OfKind(events: seq<EndpointEvent>, kind: EventKind): seq<EndpointEvent> {
    if events == [] then []
    else
      var last := events[|events| - 1];
      OfKind(events[..|events| - 1], kind) + if last.kind == kind then [last] else []
  }

  lemma {:induction false} OfKindCounts(events: seq<EndpointEvent>, kind: EventKind, e: EndpointEvent)
    ensures multiset(OfKind(events, kind))[e] == if e.kind == kind then multiset(events)[e] else 0
    decreases |events|
  {
    if events != [] {
      assert events == events[..|events| - 1] + [events[|events| - 1]];
      OfKindCounts(events[..|events| - 1], kind, e);
    }
  }

  lemma OfKindIgnoresOrder(events: seq<EndpointEvent>, events': seq<EndpointEvent>, kind: EventKind)
    requires multiset(events) == multiset(events')
    ensures multiset(OfKind(events, kind)) == multiset(OfKind(events', kind))
  {
    forall e
      ensures multiset(OfKind(events, kind))[e] == multiset(OfKind(events', kind))[e]
    {
      OfKindCounts(events, kind, e);
      OfKindCounts(events', kind, e);
    }
  }

  predicate InTimeOrder<T>(s: seq<T>, at: T -> Time) {
    forall i, j :: 0 <= i < j < |s| ==> at(s[i]) <= at(s[j])
  }

  method InsertByTime<T>(s: seq<T>, x: T, at: T -> Time) returns (r: seq<T>)
    requires InTimeOrder(s, at)
    ensures multiset(r) == multiset(s) + multiset{x} && InTimeOrder(r, at)
    ensures forall i :: 0 <= i < |r| ==> at(r[i]) <= at(x) || (s != [] && at(r[i]) <= at(s[|s| - 1]))
    decreases |s|
  {
    if s == [] || at(s[|s| - 1]) <= at(x) {
      return s + [x];
    }
    var init, last := s[..|s| - 1], s[|s| - 1];
    assert s == init + [last];
    var t := InsertByTime(init, x, at);
    r := t + [last];
  }

  /** Any sorted rearrangement: callers rely on nothing else, in particular not on how ties fall. */
  method SortByTime<T>(s: seq<T>, at: T -> Time) returns (r: seq<T>)
    ensures multiset(r) == multiset(s) && InTimeOrder(r, at)
  {
    r := [];
    for n := 0 to |s|
      invariant multiset(r) == multiset(s[..n]) && InTimeOrder(r, at)
    {
      assert s[..n + 1] == s[..n] + [s[n]];
      r := InsertByTime(r, s[n], at);
    }
    assert s[..|s|] == s;
  }

  /** The time between the first and the last error. */
  predicate IsSpread(errs: seq<ErrorSample>, spread: Duration) {
    && (forall i, j :: 0 <= i < |errs| && 0 <= j < |errs| ==> errs[i].at - errs[j].at <= spread)
    && (if |errs| < 2 then spread == 0
        else exists i, j :: 0 <= i < |errs| && 0 <= j < |errs| && errs[i].at - errs[j].at == spread)
  }

  lemma SpreadIgnoresOrder(errs: seq<ErrorSample>, errs': seq<ErrorSample>, spread: Duration)
    requires multiset(errs) == multiset(errs') && IsSpread(errs, spread)
    ensures IsSpread(errs', spread)
  {
    assert |errs| == |multiset(errs)| == |multiset(errs')| == |errs'|;
    forall i, j | 0 <= i < |errs'| && 0 <= j < |errs'|
      ensures errs'[i].at - errs'[j].at <= spread
    {
      assert errs'[i] in multiset(errs) && errs'[j] in multiset(errs);
    }
    if |errs| >= 2 {
      var i, j :| 0 <= i < |errs| && 0 <= j < |errs| && errs[i].at - errs[j].at == spread;
      assert errs[i] in multiset(errs') && errs[j] in multiset(errs');
    }
  }

  /** What both analyzers promise about their report, in terms of the unsorted inputs. */
  ghost predicate Correlates(kind: EventKind, shape: Shape, events: seq<EndpointEvent>, errors: seq<ErrorSample>, r: Report)
  {
    var evs := OfKind(events, kind);
    && r.window == shape.window
    && r.eventCount == |evs|
    && r.attributed == Hits(shape, evs, errors)
    && r.attributed + r.clean == |errors|
    && IsSpread(errors, r.spread)
    && (evs == [] ==> r.correlated == [])
    && (evs != [] ==>
          exists sorted, sortedErrors ::
            && multiset(sorted) == multiset(evs) && EventsInOrder(sorted)
            && multiset(sortedErrors) == multiset(errors) && ErrorsInOrder(sortedErrors)
            && Breakdown(shape, sorted, sortedErrors, r.correlated))
  }

  /** Event by event, in time order: the errors whose first covering window is that event's. */
  predicate Breakdown(shape: Shape, evs: seq<EndpointEvent>, errs: seq<ErrorSample>, correlated: seq<CorrelatedEvent>) {
    |correlated| == |evs| &&
    forall k :: 0 <= k < |evs| ==> correlated[k] == CorrelatedEvent(evs[k], Attributed(shape, evs, errs, k))
  }

  method SelectKind(events: seq<EndpointEvent>, kind: EventKind) returns (evs: seq<EndpointEvent>)
    ensures evs == OfKind(events, kind)
  {
    evs := [];
    for i := 0 to |events|
      invariant evs == OfKind(events[..i], kind)
    {
      assert events[..i + 1][..i] == events[..i];
      if events[i].kind == kind { evs := evs + [events[i]]; }
    }
    assert events[..|events|] == events;
  }

  method TotalWindow(errs: seq<ErrorSample>) returns (spread: Duration)
    requires ErrorsInOrder(errs)
    ensures IsSpread(errs, spread)
  {
    if |errs| < 2 {
      return 0;
    }
    spread := errs[|errs| - 1].at - errs[0].at;
  }

  method Correlate(kind: EventKind, lookback: Duration, defaultWindow: Duration,
                   events: seq<EndpointEvent>, errors: seq<ErrorSample>, window: Duration) returns (r: Report)
    ensures Correlates(kind, Shape(lookback, if window <= 0 then defaultWindow else window), events, errors, r)
  {
    var shape := Shape(lookback, if window <= 0 then defaultWindow else window);
    var selected := SelectKind(events, kind);
    var evs := SortByTime(selected, (e: EndpointEvent) => e.at);
    var errs := SortByTime(errors, (e: ErrorSample) => e.at);
    var spread := TotalWindow(errs);
    if |evs| == 0 {
      NoEventsNoHits(shape, errs);
      r := Report(shape.window, spread, 0, |errs|, [], 0);
    } else {
      var lists, attributed, clean, _ := Scan(shape, evs, errs);
      var correlated := seq(|evs|, k requires 0 <= k < |evs| => CorrelatedEvent(evs[k], lists[k]));
      r := Report(shape.window, spread, attributed, clean, correlated, |evs|);
    }
    SortingDoesNotShow(kind, shape, events, errors, evs, errs, r);
  }

  lemma SortingDoesNotShow(kind: EventKind, shape: Shape, events: seq<EndpointEvent>, errors: seq<ErrorSample>,
                           evs: seq<EndpointEvent>, errs: seq<ErrorSample>, r: Report)
    requires multiset(evs) == multiset(OfKind(events, kind)) && EventsInOrder(evs)
    requires multiset(errs) == multiset(errors) && ErrorsInOrder(errs)
    requires r.window == shape.window && r.eventCount == |evs|
    requires r.attributed == Hits(shape, evs, errs) && r.attributed + r.clean == |errs|
    requires IsSpread(errs, r.spread)
    requires Breakdown(shape, evs, errs, r.correlated)
    ensures Correlates(kind, shape, events, errors, r)
  {
    assert |evs| == |multiset(evs)| == |OfKind(events, kind)|;
    assert |errs| == |multiset(errs)| == |errors|;
    SpreadIgnoresOrder(errs, errors, r.spread);
    HitsIgnoreOrder(shape, evs, OfKind(events, kind), errs, errors);
  }

  lemma NoEventsNoHits(shape: Shape, errs: seq<ErrorSample>)
    ensures Hits(shape, [], errs) == 0
  {
  }

  const DEFAULT_LEAKAGE_WINDOW: Duration := 2 * SECOND
  const DEFAULT_DRAIN_WINDOW: Duration := 10 * SECOND
  const DEFAULT_LOOKBACK: Duration := 2 * SECOND

  /** Cold-start leakage: failures in [ready, ready + window). */
  method CorrelateLeakage(events: seq<EndpointEvent>, errors: seq<ErrorSample>, window: Duration) returns (r: Report)
    ensures Correlates(Ready, Shape(0, if window <= 0 then DEFAULT_LEAKAGE_WINDOW else window), events, errors, r)
  {
    r := Correlate(Ready, 0, DEFAULT_LEAKAGE_WINDOW, events, errors, window);
  }

  /** Ungraceful drain: failures in [removed - lookback, removed + window). */
  method CorrelateDrain(events: seq<EndpointEvent>, errors: seq<ErrorSample>, window: Duration) returns (r: Report)
    ensures Correlates(Removed, Shape(DEFAULT_LOOKBACK, if window <= 0 then DEFAULT_DRAIN_WINDOW else window),
                       events, errors, r)
  {
    r := Correlate(Removed, DEFAULT_LOOKBACK, DEFAULT_DRAIN_WINDOW, events, errors, window);
  }

  /** Two reports on the same events and errors, however ordered, count alike. */
  lemma ReportsIgnoreOrder(kind: EventKind, shape: Shape, events: seq<EndpointEvent>, events': seq<EndpointEvent>,
                           errors: seq<ErrorSample>, errors': seq<ErrorSample>, r: Report, r': Report)
    requires multiset(events) == multiset(events') && multiset(errors) == multiset(errors')
    requires Correlates(kind, shape, events, errors, r) && Correlates(kind, shape, events', errors', r')
    ensures r.attributed == r'.attributed && r.clean == r'.clean && r.eventCount == r'.eventCount
  {
    OfKindIgnoresOrder(events, events', kind);
    HitsIgnoreOrder(shape, OfKind(events, kind), OfKind(events', kind), errors, errors');
    assert |errors| == |multiset(errors)| == |errors'|;
    assert |OfKind(events, kind)| == |multiset(OfKind(events, kind))| == |OfKind(events', kind)|;
  }

  function Lists(correlated: seq<CorrelatedEvent>): seq<seq<ErrorSample>> {
    seq(|correlated|, k requires 0 <= k < |correlated| => correlated[k].errors)
  }

  lemma BreakdownConserves(shape: Shape, evs: seq<EndpointEvent>, errs: seq<ErrorSample>,
                           correlated: seq<CorrelatedEvent>, es: ErrorSample)
    requires Breakdown(shape, evs, errs, correlated)
    ensures Pooled(Lists(correlated))[es] == if FirstMatch(shape, evs, es) < |evs| then multiset(errs)[es] else 0
  {
    PooledCounts(shape, evs, errs, Lists(correlated), es);
  }

  /** The breakdown lists an error as often as it occurred, if some window covers it, and never otherwise. */
  lemma ReportConserves(kind: EventKind, shape: Shape, events: seq<EndpointEvent>, errors: seq<ErrorSample>,
                        r: Report, es: ErrorSample)
    requires Correlates(kind, shape, events, errors, r)
    ensures var evs := OfKind(events, kind);
            Pooled(Lists(r.correlated))[es] == if FirstMatch(shape, evs, es) < |evs| then multiset(errors)[es] else 0
  {
    var evs := OfKind(events, kind);
    if evs != [] {
      var sorted, errs :| && multiset(sorted) == multiset(evs) && EventsInOrder(sorted)
                          && multiset(errs) == multiset(errors) && ErrorsInOrder(errs)
                          && Breakdown(shape, sorted, errs, r.correlated);
      BreakdownConserves(shape, sorted, errs, r.correlated, es);
      MatchIgnoresOrder(shape, sorted, evs, es);
      MatchIgnoresOrder(shape, evs, sorted, es);
    }
  }
}

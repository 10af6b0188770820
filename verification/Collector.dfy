/** The collector of internal/loadgen/generator.go: running counters against the log of
    everything recorded. */
module Collector {
  import opened Basics

  datatype Category =
    | Timeout | Dial | ConnReset | TLS | Server5xx | Client4xx | StreamReset | Other

  datatype Outcome =
    | Response(code: int, latency: Duration, at: Time)
    | Failure(category: Category, latency: Duration, at: Time)

  datatype ErrorSample = ErrorSample(at: Time, category: Category, status: int)

  const MAX_ERROR_SAMPLES: nat := 10000
  const HISTOGRAM_MIN: Duration := 1000
  const HISTOGRAM_MAX: Duration := 60 * SECOND

  // ----- what a log of outcomes amounts to

  /** The failure an outcome counts as, if any. */
  function FailureOf(o: Outcome): Option<ErrorSample> {
    match o
    case Failure(category, _, at) => Some(ErrorSample(at, category, 0))
    case Response(code, _, at) =>
      if code >= 500 then Some(ErrorSample(at, Server5xx, code))
      else if code >= 400 then Some(ErrorSample(at, Client4xx, code))
      else None
  }

  function Failures(log: seq<Outcome>): seq<ErrorSample> {
    if log == [] then []
    else
      var f := FailureOf(log[|log| - 1]);
      Failures(log[..|log| - 1]) + if f.Some? then [f.value] else []
  }

  /** What the counters count: responses with a code, failures of a category, failures at all. */
  datatype Tag = WithCode(code: int) | InCategory(category: Category) | AnyFailure

  predicate Has(o: Outcome, tag: Tag) {
    match tag
    case WithCode(code) => o.Response? && o.code == code
    case InCategory(c) => FailureOf(o).Some? && FailureOf(o).value.category == c
    case AnyFailure => FailureOf(o).Some?
  }

  function Count(log: seq<Outcome>, tag: Tag): nat {
    if log == [] then 0
    else Count(log[..|log| - 1], tag) + if Has(log[|log| - 1], tag) then 1 else 0
  }

  function Clamp(latency: Duration): (v: Duration)
    ensures HISTOGRAM_MIN <= v <= HISTOGRAM_MAX
    ensures HISTOGRAM_MIN <= latency <= HISTOGRAM_MAX ==> v == latency
    ensures (v < latency ==> v == HISTOGRAM_MAX) && (latency < v ==> v == HISTOGRAM_MIN)
  {
    if latency < HISTOGRAM_MIN then HISTOGRAM_MIN else if latency > HISTOGRAM_MAX then HISTOGRAM_MAX else latency
  }

  function Latencies(log: seq<Outcome>): seq<Duration> {
    if log == [] then [] else Latencies(log[..|log| - 1]) + [Clamp(log[|log| - 1].latency)]
  }

  function Get<K>(m: map<K, nat>, k: K): nat {
    if k in m then m[k] else 0
  }

  function Bump<K(!new)>(m: map<K, nat>, k: K): (r: map<K, nat>)
    ensures forall j :: Get(r, j) == Get(m, j) + if j == k then 1 else 0
  {
    m[k := Get(m, k) + 1]
  }

  /** The first MAX_ERROR_SAMPLES failures. */
  function Capped(fs: seq<ErrorSample>): (r: seq<ErrorSample>)
    ensures r <= fs && (|r| == MAX_ERROR_SAMPLES < |fs| || r == fs) && |r| <= MAX_ERROR_SAMPLES
  {
    if |fs| <= MAX_ERROR_SAMPLES then fs else fs[..MAX_ERROR_SAMPLES]
  }

  lemma CappedOneMore(fs: seq<ErrorSample>, f: ErrorSample)
    ensures Capped(fs + [f]) == Capped(fs) + if |Capped(fs)| >= MAX_ERROR_SAMPLES then [] else [f]
  {
  }

  lemma OneMore(log: seq<Outcome>, o: Outcome)
    ensures forall tag :: Count(log + [o], tag) == Count(log, tag) + if Has(o, tag) then 1 else 0
    ensures Failures(log + [o]) == Failures(log) + if FailureOf(o).Some? then [FailureOf(o).value] else []
    ensures Latencies(log + [o]) == Latencies(log) + [Clamp(o.latency)]
  {
    assert (log + [o])[..|log|] == log;
  }

  /** Both maps hold, for every key, how often it occurred. */
  ghost predicate Counts(log: seq<Outcome>, statusCounts: map<int, nat>, errors: map<Category, nat>) {
    && (forall code :: Get(statusCounts, code) == Count(log, WithCode(code)))
    && (forall c :: Get(errors, c) == Count(log, InCategory(c)))
  }

  lemma CountsOneMore(log: seq<Outcome>, o: Outcome, statusCounts: map<int, nat>, errors: map<Category, nat>)
    requires Counts(log, statusCounts, errors)
    ensures Counts(log + [o],
                   if o.Response? then Bump(statusCounts, o.code) else statusCounts,
                   if FailureOf(o).Some? then Bump(errors, FailureOf(o).value.category) else errors)
  {
    OneMore(log, o);
  }

  class Collector {
    var sent: nat
    var succeeded: nat
    var failed: nat
    var statusCounts: map<int, nat>
    var errors: map<Category, nat>
    var latencies: seq<Duration>
    var errorSamples: seq<ErrorSample>
    ghost var log: seq<Outcome>

    ghost predicate Valid()
      reads this
    {
      && sent == |log| && failed == Count(log, AnyFailure) && succeeded + failed == sent
      && Counts(log, statusCounts, errors)
      && latencies == Latencies(log)
      && errorSamples == Capped(Failures(log))
    }

    constructor ()
      ensures Valid() && log == []
    {
      sent, succeeded, failed := 0, 0, 0;
      statusCounts, errors, latencies, errorSamples, log := map[], map[], [], [], [];
    }

    method RecordLatency(latency: Duration)
      modifies this`latencies
      ensures latencies == old(latencies) + [Clamp(latency)]
    {
      var v := latency;
      if v < HISTOGRAM_MIN { v := HISTOGRAM_MIN; }
      if v > HISTOGRAM_MAX { v := HISTOGRAM_MAX; }
      latencies := latencies + [v];
    }

    method AddSample(category: Category, status: int, at: Time)
      modifies this`errorSamples
      ensures errorSamples == old(errorSamples)
                + if |old(errorSamples)| >= MAX_ERROR_SAMPLES then [] else [ErrorSample(at, category, status)]
    {
      if |errorSamples| >= MAX_ERROR_SAMPLES {
        return;
      }
      errorSamples := errorSamples + [ErrorSample(at, category, status)];
    }

    method CountFailure(category: Category, status: int, at: Time)
      modifies this`errors, this`failed, this`errorSamples
      ensures errors == Bump(old(errors), category) && failed == old(failed) + 1
      ensures errorSamples == old(errorSamples)
                + if |old(errorSamples)| >= MAX_ERROR_SAMPLES then [] else [ErrorSample(at, category, status)]
    {
      errors := Bump(errors, category);
      failed := failed + 1;
      AddSample(category, status, at);
    }

    method RecordStatus(code: int, latency: Duration, at: Time)
      requires Valid()
      modifies this
      ensures Valid() && log == old(log) + [Response(code, latency, at)]
      ensures sent == old(sent) + 1 && failed == old(failed) + (if 400 <= code then 1 else 0)
      ensures errors == if code < 400 then old(errors) else Bump(old(errors), if code < 500 then Client4xx else Server5xx)
    {
      ghost var o := Response(code, latency, at);
      OneMore(log, o);
      CountsOneMore(log, o, statusCounts, errors);
      if FailureOf(o).Some? { CappedOneMore(Failures(log), FailureOf(o).value); }
      log := log + [o];
      sent := sent + 1;
      statusCounts := Bump(statusCounts, code);
      RecordLatency(latency);
      if code >= 500 {
        CountFailure(Server5xx, code, at);
      } else if code >= 400 {
        CountFailure(Client4xx, code, at);
      } else {
        succeeded := succeeded + 1;
      }
    }

    method RecordError(category: Category, latency: Duration, at: Time)
      requires Valid()
      modifies this
      ensures Valid() && log == old(log) + [Failure(category, latency, at)]
      ensures sent == old(sent) + 1 && failed == old(failed) + 1
      ensures errors == Bump(old(errors), category)
    {
      ghost var o := Failure(category, latency, at);
      OneMore(log, o);
      CountsOneMore(log, o, statusCounts, errors);
      CappedOneMore(Failures(log), FailureOf(o).value);
      log := log + [o];
      sent := sent + 1;
      CountFailure(category, 0, at);
      RecordLatency(latency);
    }
  }

  /** Every failure is in exactly one category, and is listed once among the failures. */
  lemma {:induction false} CategoriesPartition(log: seq<Outcome>)
    ensures Count(log, InCategory(Timeout)) + Count(log, InCategory(Dial)) + Count(log, InCategory(ConnReset))
            + Count(log, InCategory(TLS)) + Count(log, InCategory(Server5xx)) + Count(log, InCategory(Client4xx))
            + Count(log, InCategory(StreamReset)) + Count(log, InCategory(Other))
            == Count(log, AnyFailure) == |Failures(log)|
    decreases |log|
  {
    if log != [] { CategoriesPartition(log[..|log| - 1]); }
  }

  lemma {:induction false} CountConcat(a: seq<Outcome>, b: seq<Outcome>, tag: Tag)
    ensures Count(a + b, tag) == Count(a, tag) + Count(b, tag)
    decreases |b|
  {
    if b == [] {
      assert a + b == a;
    } else {
      assert (a + b)[..|a + b| - 1] == a + b[..|b| - 1];
      CountConcat(a, b[..|b| - 1], tag);
    }
  }

  function Without(a: seq<Outcome>, k: nat): seq<Outcome>
    requires k < |a|
  {
    a[..k] + a[k + 1..]
  }

  lemma TakeOut(a: seq<Outcome>, k: nat, tag: Tag)
    requires k < |a|
    ensures multiset(Without(a, k)) == multiset(a) - multiset{a[k]}
    ensures Count(a, tag) == Count(Without(a, k), tag) + if Has(a[k], tag) then 1 else 0
  {
    var left, right := a[..k], a[k + 1..];
    assert a == (left + [a[k]]) + right;
    CountConcat(left + [a[k]], right, tag);
    OneMore(left, a[k]);
    CountConcat(left, right, tag);
  }

  /** The counters do not depend on the order in which the workers get to record. */
  lemma {:induction false} CountsIgnoreOrder(a: seq<Outcome>, b: seq<Outcome>, tag: Tag)
    requires multiset(a) == multiset(b)
    ensures Count(a, tag) == Count(b, tag)
    decreases |a|
  {
    if a == [] {
      assert |b| == |multiset(b)| == 0;
    } else {
      assert a[0] in multiset(b);
      var k :| 0 <= k < |b| && b[k] == a[0];
      TakeOut(a, 0, tag);
      TakeOut(b, k, tag);
      CountsIgnoreOrder(Without(a, 0), Without(b, k), tag);
    }
  }
}

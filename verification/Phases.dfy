/** internal/loadgen/phase.go: one arrival-rate segment of a load run. */
module Phases {
  import opened Basics

  datatype Pattern = Constant | Poisson | Ramp | Step | Unset | Unknown(name: string)

  datatype Phase = Phase(
    name: string,
    pattern: Pattern,
    duration: Duration,
    startRPS: int,
    endRPS: int,
    stepRPS: int,
    stepEvery: Duration,
    recordStats: bool)

  datatype PhaseError =
    | NameRequired | DurationNotPositive | StartNotPositive | EndNotPositive
    | StepNotPositive | StepEveryNotPositive | PatternRequired | UnknownPattern

  function Validate(p: Phase): Option<PhaseError> {
    if p.name == "" then Some(NameRequired)
    else if p.duration <= 0 then Some(DurationNotPositive)
    else if p.startRPS <= 0 then Some(StartNotPositive)
    else match p.pattern
      case Constant => None
      case Poisson => None
      case Ramp => if p.endRPS <= 0 then Some(EndNotPositive) else None
      case Step =>
        if p.stepRPS <= 0 then Some(StepNotPositive)
        else if p.stepEvery <= 0 then Some(StepEveryNotPositive)
        else None
      case Unset => Some(PatternRequired)
      case Unknown(_) => Some(UnknownPattern)
  }

  predicate Valid(p: Phase) {
    Validate(p).None?
  }

  const WARMUP: string := "Warmup"
  const MEASURE: string := "Measure"

  function ConstantPhase(name: string, duration: Duration, rps: int, recordStats: bool): Phase {
    Phase(name, Constant, duration, rps, 0, 0, 0, recordStats)
  }

  /** The rate the worker pool is sized for. */
  function PeakRPS(p: Phase): int
    requires Valid(p)
  {
    match p.pattern
    case Ramp => if p.endRPS > p.startRPS then p.endRPS else p.startRPS
    case Step => p.startRPS + p.duration / p.stepEvery * p.stepRPS
    case _ => p.startRPS
  }

  // ----- what a list of phases denotes

  function TotalDuration(ps: seq<Phase>): int {
    if ps == [] then 0 else ps[0].duration + TotalDuration(ps[1..])
  }

  /** The rate in force at offset t when the phases run back to back. */
  function RateAt(ps: seq<Phase>, t: int): int {
    if ps == [] then 0
    else if t < ps[0].duration then ps[0].startRPS
    else RateAt(ps[1..], t - ps[0].duration)
  }

  predicate NonNegative(ps: seq<Phase>) {
    forall p :: p in ps ==> 0 <= p.duration
  }

  lemma {:induction false} TotalConcat(a: seq<Phase>, b: seq<Phase>)
    ensures TotalDuration(a + b) == TotalDuration(a) + TotalDuration(b)
  {
    if a == [] {
      assert a + b == b;
    } else {
      assert (a + b)[1..] == a[1..] + b;
      TotalConcat(a[1..], b);
    }
  }

  lemma {:induction false} TotalNonNegative(ps: seq<Phase>)
    requires NonNegative(ps)
    ensures 0 <= TotalDuration(ps)
  {
    if ps != [] { TotalNonNegative(ps[1..]); }
  }

  /** Time in the first list is not disturbed by what follows it. */
  lemma {:induction false} RateConcat(a: seq<Phase>, b: seq<Phase>, t: int)
    requires NonNegative(a) && 0 <= t
    ensures RateAt(a + b, t) ==
            if t < TotalDuration(a) then RateAt(a, t) else RateAt(b, t - TotalDuration(a))
  {
    if a == [] {
      assert a + b == b;
    } else {
      assert (a + b)[1..] == a[1..] + b;
      TotalNonNegative(a[1..]);
      if a[0].duration <= t { RateConcat(a[1..], b, t - a[0].duration); }
    }
  }
}

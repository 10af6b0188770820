/** buildPhases: the warmup, then the measurement window in the requested shape. */
module BuildPhases {
  import opened Basics
  import opened Phases
  import opened LoadProfile
  import opened SpikeMeaning
  import opened Emitters

  datatype LoadPattern = ConstantLoad | PoissonLoad | RampLoad | StepLoad | SpikeLoad | OtherLoad(name: string)

  datatype Profile = Profile(
    pattern: LoadPattern,
    endRPS: Option<int>,
    rampDuration: Option<Int64>,
    stepRPS: Option<int>,
    stepDuration: Option<Int64>,
    spikes: seq<Spike>)

  datatype Load = Load(baseRPS: int, warmup: Option<Int64>, profile: Option<Profile>)

  function WarmupOf(load: Load): Int64 {
    if load.warmup.Some? then load.warmup.value else 0
  }

  /** Neither a profile nor a warmup: the caller falls back to the single-shot flags. */
  predicate SingleShot(load: Load) {
    load.profile.None? && WarmupOf(load) == 0
  }

  function PatternOf(load: Load): LoadPattern {
    if load.profile.Some? then load.profile.value.pattern else ConstantLoad
  }

  predicate WindowOk(load: Load, sla: Int64) {
    0 < sla && 0 <= WarmupOf(load) < sla
  }

  /** The measurement phases for a window of this length; None when the profile is refused. */
  function Measurement(load: Load, total: Int64): Option<seq<Phase>> {
    match PatternOf(load)
    case ConstantLoad => Some([Phase(MEASURE, Constant, total, load.baseRPS, 0, 0, 0, true)])
    case PoissonLoad => Some([Phase(MEASURE, Poisson, total, load.baseRPS, 0, 0, 0, true)])
    case RampLoad =>
      if load.profile.value.endRPS.None? then None
      else Some([Phase(MEASURE, Ramp, RampLength(load.profile.value, total),
                       load.baseRPS, load.profile.value.endRPS.value, 0, 0, true)])
    case StepLoad =>
      if load.profile.value.stepRPS.None? || load.profile.value.stepDuration.None? then None
      else Some([Phase(MEASURE, Step, total, load.baseRPS, 0,
                       load.profile.value.stepRPS.value, load.profile.value.stepDuration.value, true)])
    case SpikeLoad =>
      var spikes := load.profile.value.spikes;
      if spikes != [] && Accepts(load.baseRPS, total, spikes) then Some(Compiled(load.baseRPS, total, spikes)) else None
    case OtherLoad(_) => None
  }

  function RampLength(p: Profile, total: Int64): Int64 {
    if p.rampDuration.Some? && p.rampDuration.value > 0 then p.rampDuration.value else total
  }

  function Warmup(load: Load): seq<Phase> {
    if WarmupOf(load) > 0 then [ConstantPhase(WARMUP, WarmupOf(load), load.baseRPS, false)] else []
  }

  /** Why a profile is refused for a window of this length. */
  ghost predicate Refuses(load: Load, total: Int64, e: ProfileError) {
    match PatternOf(load)
    case RampLoad => e == EndRpsRequired && load.profile.Some? && load.profile.value.endRPS.None?
    case StepLoad =>
      e == StepRequired && load.profile.Some? && (load.profile.value.stepRPS.None? || load.profile.value.stepDuration.None?)
    case SpikeLoad =>
      && load.profile.Some?
      && var spikes := load.profile.value.spikes;
         if spikes == [] then e == NoSpikes else BlamesFirst(load.baseRPS, total, spikes, e)
    case OtherLoad(_) => e == PatternUnknown
    case _ => false
  }

  // ----- what is built, pattern by pattern

  function WarmupCount(load: Load): nat {
    if WarmupOf(load) > 0 then 1 else 0
  }

  /** The warmup comes first, if there is one: the base rate for its whole length, not recorded. */
  predicate WarmsUp(load: Load, ps: seq<Phase>) {
    && |ps| >= WarmupCount(load)
    && (WarmupOf(load) > 0 ==>
          ps[0].pattern.Constant? && ps[0].duration == WarmupOf(load) && ps[0].startRPS == load.baseRPS && !ps[0].recordStats)
  }

  /** One recorded phase of this pattern and length that begins at the base rate. */
  predicate OnePhase(load: Load, pattern: Pattern, duration: Int64, ps: seq<Phase>) {
    |ps| == 1 && ps[0].pattern == pattern && ps[0].duration == duration && ps[0].startRPS == load.baseRPS && ps[0].recordStats
  }

  /** A ramp's rate, times its duration, at its start and at its end. */
  predicate RampsTo(p: Phase, first: int, last: int) {
    ScaledRate(p, 0) == first * p.duration && ScaledRate(p, p.duration) == last * p.duration
  }

  /** Plateau s begins s climbs after the start and runs at s steps above the base rate. */
  ghost predicate Climbs(p: Phase, base: int, step: int, every: Int64) {
    forall start: Time, s: nat ::
      && SegmentStart(start, p, s) == start + s * every
      && StepRate(p, s) == (if base + s * step < 1 then 1 else base + s * step)
  }

  /** What a measurement window of this length consists of. */
  ghost predicate Measures(load: Load, total: Int64, ps: seq<Phase>) {
    match PatternOf(load)
    case ConstantLoad => OnePhase(load, Constant, total, ps)
    case PoissonLoad => OnePhase(load, Poisson, total, ps)
    case RampLoad =>
      && load.profile.Some? && load.profile.value.endRPS.Some?
      && (match load.profile.value.rampDuration
          case Some(d) => OnePhase(load, Ramp, if 0 < d then d else total, ps)
          case None => OnePhase(load, Ramp, total, ps))
      && RampsTo(ps[0], load.baseRPS, load.profile.value.endRPS.value)
    case StepLoad =>
      && load.profile.Some? && load.profile.value.stepRPS.Some? && load.profile.value.stepDuration.Some?
      && OnePhase(load, Step, total, ps)
      && Climbs(ps[0], load.baseRPS, load.profile.value.stepRPS.value, load.profile.value.stepDuration.value)
    case SpikeLoad => load.profile.Some? && ps == Compiled(load.baseRPS, total, load.profile.value.spikes)
    case OtherLoad(_) => false
  }

  /** With a positive base rate, what makes every phase pass its validation. */
  predicate Sound(load: Load) {
    match PatternOf(load)
    case RampLoad => load.profile.Some? && load.profile.value.endRPS.Some? && load.profile.value.endRPS.value > 0
    case StepLoad =>
      && load.profile.Some? && load.profile.value.stepRPS.Some? && load.profile.value.stepDuration.Some?
      && load.profile.value.stepRPS.value > 0 && load.profile.value.stepDuration.value > 0
    case SpikeLoad => load.profile.Some? && Positive(load.profile.value.spikes)
    case _ => true
  }

  lemma MeasurementMeasures(load: Load, total: Int64)
    requires 0 < total && Measurement(load, total).Some?
    ensures Measures(load, total, Measurement(load, total).value)
    ensures 0 < load.baseRPS ==>
              ((forall p :: p in Measurement(load, total).value ==> Valid(p)) <==> Sound(load))
  {
    if PatternOf(load).SpikeLoad? && 0 < load.baseRPS { CompiledValid(load.baseRPS, total, load.profile.value.spikes); }
    if !PatternOf(load).SpikeLoad? {
      var ps := Measurement(load, total).value;
      assert ps[0] in ps;
      assert forall p :: p in ps ==> p == ps[0];
    }
  }

  /** The warmup, then the window as the pattern has it; and every phase passes its validation
      exactly when the numbers of the pattern are positive. */
  ghost predicate AsAsked(load: Load, sla: Int64, ps: seq<Phase>)
    requires WindowOk(load, sla)
  {
    && WarmsUp(load, ps)
    && Measures(load, sla - WarmupOf(load), ps[WarmupCount(load)..])
    && (0 < load.baseRPS ==> ((forall p :: p in ps ==> Valid(p)) <==> Sound(load)))
  }

  lemma BuiltAsAsked(load: Load, sla: Int64)
    requires WindowOk(load, sla) && Measurement(load, sla - WarmupOf(load)).Some?
    ensures AsAsked(load, sla, Warmup(load) + Measurement(load, sla - WarmupOf(load)).value)
  {
    var warmup, rest := Warmup(load), Measurement(load, sla - WarmupOf(load)).value;
    MeasurementMeasures(load, sla - WarmupOf(load));
    assert (warmup + rest)[WarmupCount(load)..] == rest;
    assert forall p :: p in warmup + rest <==> p in warmup || p in rest;
  }

  /** The measurement window: one phase, or the slices of a spike profile. */
  method Measure(load: Load, total: Int64) returns (r: Result<seq<Phase>>)
    ensures r.Ok? <==> Measurement(load, total).Some?
    ensures r.Ok? ==> r.value == Measurement(load, total).value
    ensures r.Err? ==> Refuses(load, total, r.error)
  {
    var pattern := ConstantLoad;
    if load.profile.Some? {
      pattern := load.profile.value.pattern;
    }
    match pattern
    case ConstantLoad =>
      r := Ok([Phase(MEASURE, Constant, total, load.baseRPS, 0, 0, 0, true)]);
    case PoissonLoad =>
      r := Ok([Phase(MEASURE, Poisson, total, load.baseRPS, 0, 0, 0, true)]);
    case RampLoad =>
      var p := load.profile.value;
      if p.endRPS.None? {
        return Err(EndRpsRequired);
      }
      var dur := total;
      if p.rampDuration.Some? && p.rampDuration.value > 0 {
        dur := p.rampDuration.value;
      }
      r := Ok([Phase(MEASURE, Ramp, dur, load.baseRPS, p.endRPS.value, 0, 0, true)]);
    case StepLoad =>
      var p := load.profile.value;
      if p.stepRPS.None? || p.stepDuration.None? {
        return Err(StepRequired);
      }
      r := Ok([Phase(MEASURE, Step, total, load.baseRPS, 0, p.stepRPS.value, p.stepDuration.value, true)]);
    case SpikeLoad =>
      var spikes := DecomposeSpike(load.baseRPS, total, load.profile.value.spikes);
      if spikes.Err? {
        return Err(spikes.error);
      }
      r := Ok(spikes.value);
    case OtherLoad(_) =>
      r := Err(PatternUnknown);
  }

  method BuildPhases(load: Load, sla: Int64) returns (r: Result<Option<seq<Phase>>>)
    ensures SingleShot(load) ==> r == Ok(None)
    ensures !SingleShot(load) ==>
              (r.Ok? <==> WindowOk(load, sla) && Measurement(load, sla - WarmupOf(load)).Some?)
    ensures !SingleShot(load) && r.Ok? ==>
              r.value == Some(Warmup(load) + Measurement(load, sla - WarmupOf(load)).value)
    ensures !SingleShot(load) && r.Ok? ==>
              r.value.Some? && WindowOk(load, sla) && AsAsked(load, sla, r.value.value)
    ensures !SingleShot(load) && !WindowOk(load, sla) ==>
              r == Err(if sla <= 0 then SlaNotPositive else if WarmupOf(load) < 0 then WarmupNegative else WarmupTooLong)
    ensures !SingleShot(load) && WindowOk(load, sla) && r.Err? ==> Refuses(load, sla - WarmupOf(load), r.error)
  {
    if load.profile.None? && (load.warmup.None? || load.warmup.value == 0) {
      return Ok(None);
    }
    if sla <= 0 {
      return Err(SlaNotPositive);
    }
    var phases: seq<Phase> := [];
    var warm: Int64 := 0;
    if load.warmup.Some? {
      warm := load.warmup.value;
    }
    if warm < 0 {
      return Err(WarmupNegative);
    }
    if warm >= sla {
      return Err(WarmupTooLong);
    }
    if warm > 0 {
      phases := phases + [ConstantPhase(WARMUP, warm, load.baseRPS, false)];
    }
    assert phases == Warmup(load);
    var total: Int64 := sla - warm;
    var measured := Measure(load, total);
    if measured.Err? {
      return Err(measured.error);
    }
    BuiltAsAsked(load, sla);
    r := Ok(Some(phases + measured.value));
  }

  /** When the phases last exactly as long as the SLA. Everything but Ramp and Spike always does. */
  predicate FillsSla(load: Load, sla: Int64)
    requires WindowOk(load, sla)
  {
    match PatternOf(load)
    case RampLoad =>
      load.profile.Some? && (match load.profile.value.rampDuration
                             case Some(d) => d <= 0 || d == sla - WarmupOf(load)
                             case None => true)
    case SpikeLoad => load.profile.Some? && Fits(load.profile.value.spikes)
    case _ => true
  }

  predicate SpikesPositive(load: Load) {
    PatternOf(load).SpikeLoad? && load.profile.Some? ==> Positive(load.profile.value.spikes)
  }

  lemma BuiltDuration(load: Load, sla: Int64)
    requires WindowOk(load, sla) && Measurement(load, sla - WarmupOf(load)).Some? && SpikesPositive(load)
    ensures TotalDuration(Warmup(load) + Measurement(load, sla - WarmupOf(load)).value) == sla <==> FillsSla(load, sla)
  {
    var total: Int64 := sla - WarmupOf(load);
    TotalConcat(Warmup(load), Measurement(load, total).value);
    if PatternOf(load).SpikeLoad? {
      CompiledMeaning(load.baseRPS, total, load.profile.value.spikes);
    }
  }

  /** A spiked run: the base rate through the warmup, then up to the SLA what the spikes ask for,
      at every instant if and only if they are all heard. */
  lemma BuiltSpikes(load: Load, sla: Int64, t: int)
    requires WindowOk(load, sla) && PatternOf(load).SpikeLoad? && Measurement(load, sla - WarmupOf(load)).Some?
    requires SpikesPositive(load) && 0 <= t < sla
    ensures var spikes := load.profile.value.spikes;
            var rate := RateAt(Warmup(load) + Measurement(load, sla - WarmupOf(load)).value, t);
            if t < WarmupOf(load) then rate == load.baseRPS
            else Asks(load.baseRPS, spikes, t - WarmupOf(load), rate) <==> HeardAt(load.baseRPS, spikes, t - WarmupOf(load))
  {
    SpikesAfterWarmup(load, sla, t);
    if WarmupOf(load) <= t {
      RateIsAsked(load.baseRPS, sla - WarmupOf(load), load.profile.value.spikes, t - WarmupOf(load));
    }
  }

  lemma SpikesAfterWarmup(load: Load, sla: Int64, t: int)
    requires WindowOk(load, sla) && PatternOf(load).SpikeLoad? && Measurement(load, sla - WarmupOf(load)).Some?
    requires 0 <= t
    ensures RateAt(Warmup(load) + Measurement(load, sla - WarmupOf(load)).value, t)
            == if t < WarmupOf(load) then load.baseRPS
               else RateAt(Compiled(load.baseRPS, sla - WarmupOf(load), load.profile.value.spikes), t - WarmupOf(load))
  {
    RateConcat(Warmup(load), Measurement(load, sla - WarmupOf(load)).value, t);
  }

  lemma {:induction false} SlicesRecorded(base: int, spikes: seq<Spike>)
    ensures forall p :: p in Slices(base, spikes) ==> p.recordStats
    decreases |spikes|
  {
    if spikes != [] { SlicesRecorded(base, spikes[..|spikes| - 1]); }
  }

  /** Everything but the warmup counts towards the verdict, and the warmup comes first. */
  lemma OnlyWarmupUnrecorded(load: Load, sla: Int64)
    requires WindowOk(load, sla) && Measurement(load, sla - WarmupOf(load)).Some?
    ensures forall p :: p in Measurement(load, sla - WarmupOf(load)).value ==> p.recordStats
    ensures forall p :: p in Warmup(load) ==> !p.recordStats
    ensures TotalDuration(Warmup(load)) == WarmupOf(load)
  {
    if PatternOf(load).SpikeLoad? { SlicesRecorded(load.baseRPS, load.profile.value.spikes); }
  }
}

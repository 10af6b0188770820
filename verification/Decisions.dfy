/** What one reconcile decides, as a function of the ScaleValidation it read, the
    Job it read, the clock, and everything else it observes on the way. A decision
    is the ordered list of API calls the reconcile goes on to make; each may fail,
    and a failure ends the reconcile. */
module Decisions {
  import opened Basics
  import opened Api
  import opened Chaos

  /** `StampStart` is not an API call: it takes the clock for LastRunTime, once Create has returned. */
  datatype Op =
    | CreateJob
    | StampStart
    | DeleteJob
    | DeletePod(victim: Pod)
    | WriteStatus(status: Status)
    | RemoveFinalizer

  datatype TargetCheck = Unresolvable | CheckError | NotReady | Ready
  datatype SpawnCheck = SpawnOk | KindUnresolvable | UrlUnresolved | CaBundleMissing | SpawnError | BuildFailed
  datatype ReportRead = ListError | NoPod | ObserverRunning | Unreadable | Parsed(report: Report)

  /** Answers the reconcile gets from the cluster, besides the CR and the Job. */
  datatype Obs = Obs(
    target: TargetCheck,
    spawn: SpawnCheck,
    report: ReportRead,
    pods: Option<seq<Pod>>,
    pick: int)

  const TARGET_READY_TIMEOUT: Duration := 300 * SECOND
  const FAILURE_RATE_SCALE: real := 10000.0
  const MAX_INT32: int := 0x7FFF_FFFF

  // ----- status updates

  function FinishedStatus(cr: Cr, reason: Reason): Status {
    cr.status.(
      observedGeneration := cr.generation,
      conditions := SetCondition(cr.status.conditions, Condition(Finished, true, reason, cr.generation)))
  }

  function TerminalStatus(cr: Cr, phase: Phase, reason: Reason): Status {
    FinishedStatus(cr, reason).(phase := phase)
  }

  function WithDiagnostic(cr: Cr, kind: string): Cr {
    cr.(status := cr.status.(diagnostics := cr.status.diagnostics + [Diagnostic(kind, Critical)]))
  }

  function ErrorStatus(cr: Cr, diagnostic: string, reason: Reason): Status {
    TerminalStatus(WithDiagnostic(cr, diagnostic), Errored, reason)
  }

  /** Half-up rounding to basis points, clamped to the range of the API field. */
  function FailureRateBasisPoints(rate: real): (bp: int)
    ensures 0 <= bp <= MAX_INT32
    ensures bp == 0 <==> rate * 10000.0 < 0.5
    ensures bp == MAX_INT32 <==> rate * 10000.0 >= MAX_INT32 as real - 0.5
    ensures 0.0 <= rate * 10000.0 < MAX_INT32 as real - 0.5 ==> -0.5 < bp as real - rate * 10000.0 <= 0.5
  {
    if rate <= 0.0 then 0
    else
      var bp := (rate * FAILURE_RATE_SCALE + 0.5).Floor;
      if bp > MAX_INT32 then MAX_INT32 else bp
  }

  function VerdictPhase(sla: Verdict, traffic: Verdict): Phase {
    if sla == Fail || traffic == Fail then Failed else Succeeded
  }

  function VerdictReason(sla: Verdict, traffic: Verdict): Reason {
    if sla == Fail || traffic == Fail then VerdictFailed else RunSucceeded
  }

  function Summary(s: Status, at: Time): RunSummary {
    RunSummary(Stamp(at), s.phase, s.sla, s.traffic, s.rateBp)
  }

  /** Newest first, at most RUN_HISTORY_LIMIT entries. */
  function PushHistory(h: seq<RunSummary>, e: RunSummary): seq<RunSummary> {
    if |h| + 1 > RUN_HISTORY_LIMIT then ([e] + h)[..RUN_HISTORY_LIMIT] else [e] + h
  }

  function ReportedStatus(cr: Cr, rep: Report, at: Time): Status {
    var s := FinishedStatus(cr, VerdictReason(rep.sla, rep.traffic)).(
      diagnostics := rep.diagnostics,
      scaleUp := rep.scaleUp,
      sla := rep.sla,
      traffic := rep.traffic,
      total := rep.total,
      failed := rep.failed,
      rateBp := FailureRateBasisPoints(rep.rate),
      phase := VerdictPhase(rep.sla, rep.traffic));
    s.(history := PushHistory(s.history, Summary(s, at)))
  }

  function ResetStatus(cr: Cr): Status {
    cr.status.(
      phase := Pending,
      diagnostics := [],
      scaleUp := None,
      sla := NoVerdict,
      traffic := NoVerdict,
      total := 0,
      failed := 0,
      rateBp := 0,
      nextRun := None,
      conditions := SetCondition(
        RemoveCondition(cr.status.conditions, DisruptionInjected),
        Condition(Finished, false, Rescheduled, cr.generation)))
  }

  function StartedStatus(cr: Cr, at: Time): Status {
    cr.status.(lastRun := Some(Stamp(at)), phase := Running)
  }

  function DisruptedStatus(cr: Cr, injected: bool): Status {
    cr.status.(conditions := SetCondition(cr.status.conditions,
      Condition(DisruptionInjected, injected, if injected then PodDeleted else Skipped, cr.generation)))
  }

  function ParkedStatus(cr: Cr): Status {
    cr.status.(nextRun := None, observedGeneration := cr.generation)
  }

  // ----- decisions

  function LastRunAnchor(cr: Cr): Time {
    if cr.status.lastRun.Some? then cr.status.lastRun.value else cr.creation
  }

  predicate ScheduleParses(cron: Cron, cr: Cr) {
    cr.spec.schedule == "" || cron.parses(cr.spec.schedule)
  }

  function DecideInvalidSchedule(cr: Cr): seq<Op> {
    [WriteStatus(ErrorStatus(cr, "ScheduleInvalid", ScheduleInvalid))]
  }

  function DecideNextRun(cr: Cr, job: Option<Job>): seq<Op> {
    if job.Some? then (if job.value.deleting then [] else [DeleteJob])
    else [WriteStatus(ResetStatus(cr))]
  }

  function DecideSpecChange(cron: Cron, cr: Cr, job: Option<Job>): seq<Op> {
    if !ScheduleParses(cron, cr) then DecideInvalidSchedule(cr.(status := cr.status.(diagnostics := [])))
    else DecideNextRun(cr, job)
  }

  function DecideTerminal(cron: Cron, cr: Cr, job: Option<Job>, now: Time): seq<Op> {
    if cr.status.observedGeneration == 0 then [WriteStatus(cr.status.(observedGeneration := cr.generation))]
    else if cr.spec.suspend then (if cr.status == ParkedStatus(cr) then [] else [WriteStatus(ParkedStatus(cr))])
    else if cr.generation != cr.status.observedGeneration then DecideSpecChange(cron, cr, job)
    else if cr.spec.schedule == "" || !cron.parses(cr.spec.schedule) then []
    else
      var next := cron.next(cr.spec.schedule, LastRunAnchor(cr));
      if next > now then
        (if cr.status.nextRun == Some(next) then [] else [WriteStatus(cr.status.(nextRun := Some(next)))])
      else DecideNextRun(cr, job)
  }

  function DecideSpawn(cr: Cr, obs: Obs): seq<Op> {
    match obs.spawn
    case SpawnOk => [CreateJob]
    case KindUnresolvable => [WriteStatus(ErrorStatus(cr, "TargetUnsupported", TargetUnsupported))]
    case UrlUnresolved => [WriteStatus(TerminalStatus(cr, Errored, TargetURLUnresolved))]
    case CaBundleMissing => [WriteStatus(ErrorStatus(cr, "TLSCABundleMissing", TLSCABundleMissing))]
    case SpawnError => []
    case BuildFailed => [WriteStatus(TerminalStatus(cr, Errored, JobBuildFailed))]
  }

  function DecideWithoutJob(cr: Cr, now: Time, obs: Obs): seq<Op> {
    if cr.status.phase == Running then [WriteStatus(TerminalStatus(cr, Errored, LoadgenJobVanished))]
    else match obs.target
      case Unresolvable => [WriteStatus(ErrorStatus(cr, "TargetUnsupported", TargetUnsupported))]
      case CheckError => []
      case NotReady =>
        if now - cr.creation > TARGET_READY_TIMEOUT
        then [WriteStatus(ErrorStatus(cr, "TargetNotReady", TargetNotReady))]
        else []
      case Ready => DecideSpawn(cr, obs)
  }

  function DecideFinish(cr: Cr, now: Time, obs: Obs): seq<Op> {
    match obs.report
    case ListError => []
    case NoPod => [WriteStatus(TerminalStatus(cr, Errored, ObserverReportUnreadable))]
    case ObserverRunning => []
    case Unreadable => [WriteStatus(TerminalStatus(cr, Errored, ObserverReportUnreadable))]
    case Parsed(rep) => [WriteStatus(ReportedStatus(cr, rep, now))]
  }

  function TriggerDelay(d: Disruption): Duration {
    if d.delay.Some? then d.delay.value else 0
  }

  function DecideDisruption(cr: Cr, now: Time, obs: Obs): seq<Op> {
    if cr.spec.disruption.None? || !cr.spec.disruption.value.inject || cr.status.phase != Running then []
    else if HasDisruption(cr.status) then []
    else
      var d := cr.spec.disruption.value;
      if LastRunAnchor(cr) + TriggerDelay(d) > now then []
      else if obs.pods.None? then []
      else
        var plan := Plan(Config(d.inject, d.minReplicas, TriggerDelay(d)), LastRunAnchor(cr), obs.pods.value, obs.pick);
        if plan.inject then [DeletePod(plan.victim.value), WriteStatus(DisruptedStatus(cr, true))]
        else [WriteStatus(DisruptedStatus(cr, false))]
  }

  function DecideFinalize(cr: Cr, job: Option<Job>): seq<Op> {
    if !cr.finalizer then []
    else if job.None? then [RemoveFinalizer]
    else
      (if cr.status.phase == Terminating then [] else [WriteStatus(cr.status.(phase := Terminating))])
      + (if job.value.deleting then [] else [DeleteJob])
  }

  function Decide(cron: Cron, cr: Cr, job: Option<Job>, now: Time, obs: Obs): seq<Op> {
    if cr.deleting then DecideFinalize(cr, job)
    else if Terminal(cr.status.phase) then DecideTerminal(cron, cr, job, now)
    else if cr.status.phase == NoPhase then
      if ScheduleParses(cron, cr) then [WriteStatus(cr.status.(phase := Pending))]
      else DecideInvalidSchedule(cr)
    else if job.None? then DecideWithoutJob(cr, now, obs)
    else match job.value.state
      case JobFailed => [WriteStatus(TerminalStatus(cr, Errored, LoadgenJobFailed))]
      case Complete => DecideFinish(cr, now, obs)
      case Active => DecideDisruption(cr, now, obs)
  }
}

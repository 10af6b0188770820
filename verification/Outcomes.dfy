/** What one look at a ScaleValidation and its Job leads to, said of the calls themselves and of the
    status they carry. Nothing here is defined through the decision functions: `DecisionOutcome`
    ties the two together for every input, and the reconciler's methods promise it. */
module Outcomes {
  import opened Basics
  import opened Api
  import opened Chaos
  import opened Decisions

  // ----- the statuses that are written

  predicate Writes(ops: seq<Op>) {
    |ops| == 1 && ops[0].WriteStatus?
  }

  /** The conditions say that the run is finished, and of the disruption what they said before. */
  predicate SaysFinished(cr: Cr, s: Status, reason: Reason) {
    && FindCondition(s.conditions, Finished) == Some(Condition(Finished, true, reason, cr.generation))
    && FindCondition(s.conditions, DisruptionInjected) == FindCondition(cr.status.conditions, DisruptionInjected)
    && (OneEach(cr.status) ==> OneEach(s))
  }

  /** The run ends in Error: one write, which keeps LastRunTime, history and all results. */
  predicate EndsInError(cr: Cr, reason: Reason, diagnostics: seq<Diagnostic>, ops: seq<Op>) {
    && Writes(ops)
    && var s := ops[0].status;
    && s == cr.status.(phase := Errored, observedGeneration := cr.generation,
                       diagnostics := diagnostics, conditions := s.conditions)
    && SaysFinished(cr, s, reason)
  }

  /** The same, with one more finding. */
  predicate EndsWithFinding(cr: Cr, reason: Reason, kind: string, ops: seq<Op>) {
    EndsInError(cr, reason, cr.status.diagnostics + [Diagnostic(kind, Critical)], ops)
  }

  /** The entry of this run comes first and pushes out the eleventh. */
  predicate Remembers(before: seq<RunSummary>, after: seq<RunSummary>, entry: RunSummary) {
    && |after| == (if |before| < 10 then |before| + 1 else 10)
    && after[0] == entry
    && forall k :: 0 < k < |after| && k <= |before| ==> after[k] == before[k - 1]
  }

  /** The run ends with the verdict of its report, in one write. */
  predicate StoresReport(cr: Cr, rep: Report, at: Time, ops: seq<Op>) {
    && Writes(ops)
    && var s := ops[0].status;
    && var bad := rep.sla == Fail || rep.traffic == Fail;
    && s == Status(
         if bad then Failed else Succeeded, rep.scaleUp, rep.sla, rep.traffic, rep.total, rep.failed,
         FailureRateBasisPoints(rep.rate), rep.diagnostics, cr.status.lastRun, s.history,
         cr.status.nextRun, cr.generation, s.conditions)
    && SaysFinished(cr, s, if bad then VerdictFailed else RunSucceeded)
    && Remembers(cr.status.history, s.history, RunSummary(Stamp(at), s.phase, rep.sla, rep.traffic, s.rateBp))
  }

  /** A new run: only LastRunTime, history and the observed generation outlive the old one. */
  predicate Restarts(cr: Cr, ops: seq<Op>) {
    && Writes(ops)
    && var s := ops[0].status;
    && s == EMPTY_STATUS.(phase := Pending, lastRun := cr.status.lastRun, history := cr.status.history,
                          observedGeneration := cr.status.observedGeneration, conditions := s.conditions)
    && FindCondition(s.conditions, Finished) == Some(Condition(Finished, false, Rescheduled, cr.generation))
    && FindCondition(s.conditions, DisruptionInjected) == None
  }

  /** The chaos decision, and nothing else, is new. */
  predicate RecordsDecision(cr: Cr, s: Status, injected: bool, reason: Reason) {
    && s == cr.status.(conditions := s.conditions)
    && FindCondition(s.conditions, DisruptionInjected)
       == Some(Condition(DisruptionInjected, injected, reason, cr.generation))
    && FindCondition(s.conditions, Finished) == FindCondition(cr.status.conditions, Finished)
  }

  // ----- what is found, and what follows

  /** When the run is measured to have begun. */
  function Began(cr: Cr): Time {
    match cr.status.lastRun
    case Some(t) => t
    case None => cr.creation
  }

  predicate BadSchedule(cron: Cron, cr: Cr) {
    cr.spec.schedule != "" && !cron.parses(cr.spec.schedule)
  }

  predicate Admits(cron: Cron, cr: Cr, ops: seq<Op>) {
    if BadSchedule(cron, cr) then EndsWithFinding(cr, ScheduleInvalid, "ScheduleInvalid", ops)
    else ops == [WriteStatus(cr.status.(phase := Pending))]
  }

  /** The target is ready: a Job, unless something is wrong with what it needs. */
  predicate Spawns(cr: Cr, obs: Obs, ops: seq<Op>) {
    && (obs.spawn.SpawnOk? ==> ops == [CreateJob])
    && (obs.spawn.SpawnError? ==> ops == [])
    && (obs.spawn.KindUnresolvable? ==> EndsWithFinding(cr, TargetUnsupported, "TargetUnsupported", ops))
    && (obs.spawn.CaBundleMissing? ==> EndsWithFinding(cr, TLSCABundleMissing, "TLSCABundleMissing", ops))
    && (obs.spawn.UrlUnresolved? ==> EndsInError(cr, TargetURLUnresolved, cr.status.diagnostics, ops))
    && (obs.spawn.BuildFailed? ==> EndsInError(cr, JobBuildFailed, cr.status.diagnostics, ops))
  }

  /** No Job is there. */
  predicate Seeks(cr: Cr, now: Time, obs: Obs, ops: seq<Op>) {
    if cr.status.phase.Running? then EndsInError(cr, LoadgenJobVanished, cr.status.diagnostics, ops)
    else
      && (obs.target.Unresolvable? ==> EndsWithFinding(cr, TargetUnsupported, "TargetUnsupported", ops))
      && (obs.target.CheckError? ==> ops == [])
      && (obs.target.NotReady? && now - cr.creation <= 300 * SECOND ==> ops == [])
      && (obs.target.NotReady? && now - cr.creation > 300 * SECOND ==>
            EndsWithFinding(cr, TargetNotReady, "TargetNotReady", ops))
      && (obs.target.Ready? ==> Spawns(cr, obs, ops))
  }

  /** The Job is complete. */
  predicate Collects(cr: Cr, now: Time, obs: Obs, ops: seq<Op>) {
    && (obs.report.ListError? || obs.report.ObserverRunning? ==> ops == [])
    && (obs.report.NoPod? || obs.report.Unreadable? ==>
          EndsInError(cr, ObserverReportUnreadable, cr.status.diagnostics, ops))
    && (obs.report.Parsed? ==> StoresReport(cr, obs.report.report, now, ops))
  }

  /** A running validation that asks for a disruption, is past its trigger delay, has no decision
      yet, and could list the pods of its target. */
  predicate TimeToDecide(cr: Cr, now: Time, obs: Obs) {
    && cr.status.phase.Running?
    && cr.spec.disruption.Some? && cr.spec.disruption.value.inject
    && FindCondition(cr.status.conditions, DisruptionInjected).None?
    && (match cr.spec.disruption.value.delay
        case Some(d) => Began(cr) + d <= now
        case None => Began(cr) <= now)
    && obs.pods.Some?
  }

  predicate Enough(cr: Cr, obs: Obs)
    requires cr.spec.disruption.Some? && obs.pods.Some?
  {
    |HealthyPods(obs.pods.value)| >= 1 && |HealthyPods(obs.pods.value)| >= cr.spec.disruption.value.minReplicas
  }

  /** A healthy pod goes, and then the decision is stored. */
  predicate Injects(cr: Cr, pods: seq<Pod>, ops: seq<Op>) {
    && |ops| == 2 && ops[0].DeletePod? && ops[1].WriteStatus?
    && ops[0].victim in pods
    && !ops[0].victim.deleting && ops[0].victim.phase.PodRunning? && PodReady(ops[0].victim.conditions)
    && RecordsDecision(cr, ops[1].status, true, PodDeleted)
  }

  predicate Skips(cr: Cr, ops: seq<Op>) {
    Writes(ops) && RecordsDecision(cr, ops[0].status, false, Skipped)
  }

  /** The Job is active. */
  predicate Disrupts(cr: Cr, now: Time, obs: Obs, ops: seq<Op>) {
    if !TimeToDecide(cr, now, obs) then ops == []
    else if Enough(cr, obs) then Injects(cr, obs.pods.value, ops)
    else Skips(cr, ops)
  }

  /** The old Job goes first; once it is gone the run is reset. */
  predicate Renews(cr: Cr, job: Option<Job>, ops: seq<Op>) {
    && (job.None? ==> Restarts(cr, ops))
    && (job.Some? && job.value.deleting ==> ops == [])
    && (job.Some? && !job.value.deleting ==> ops == [DeleteJob])
  }

  /** Nothing but what is published about the future changes; no write when nothing would. */
  predicate Publishes(cr: Cr, nextRun: Option<Time>, generation: int, ops: seq<Op>) {
    if cr.status.nextRun == nextRun && cr.status.observedGeneration == generation then ops == []
    else ops == [WriteStatus(cr.status.(nextRun := nextRun, observedGeneration := generation))]
  }

  /** A finished run. */
  predicate Rests(cron: Cron, cr: Cr, job: Option<Job>, now: Time, ops: seq<Op>) {
    if cr.status.observedGeneration == 0 then ops == [WriteStatus(cr.status.(observedGeneration := cr.generation))]
    else if cr.spec.suspend then Publishes(cr, None, cr.generation, ops)
    else if cr.status.observedGeneration != cr.generation then
      if BadSchedule(cron, cr)
      then EndsInError(cr, ScheduleInvalid, [Diagnostic("ScheduleInvalid", Critical)], ops)
      else Renews(cr, job, ops)
    else if cr.spec.schedule == "" || BadSchedule(cron, cr) then ops == []
    else if cron.next(cr.spec.schedule, Began(cr)) <= now then Renews(cr, job, ops)
    else Publishes(cr, Some(cron.next(cr.spec.schedule, Began(cr))), cr.generation, ops)
  }

  /** A ScaleValidation being deleted. */
  predicate Drains(cr: Cr, job: Option<Job>, ops: seq<Op>) {
    && (!cr.finalizer ==> ops == [])
    && (cr.finalizer && job.None? ==> ops == [RemoveFinalizer])
    && (cr.finalizer && job.Some? ==>
          var shown := cr.status.phase.Terminating?;
          && |ops| == (if shown then 0 else 1) + (if job.value.deleting then 0 else 1)
          && (!shown ==> ops[0] == WriteStatus(cr.status.(phase := Terminating)))
          && (!job.value.deleting ==> ops[|ops| - 1] == DeleteJob))
  }

  predicate Outcome(cron: Cron, cr: Cr, job: Option<Job>, now: Time, obs: Obs, ops: seq<Op>) {
    if cr.deleting then Drains(cr, job, ops)
    else if cr.status.phase.Succeeded? || cr.status.phase.Failed? || cr.status.phase.Errored? then
      Rests(cron, cr, job, now, ops)
    else if cr.status.phase.NoPhase? then Admits(cron, cr, ops)
    else if job.None? then Seeks(cr, now, obs, ops)
    else
      && (job.value.state.JobFailed? ==> EndsInError(cr, LoadgenJobFailed, cr.status.diagnostics, ops))
      && (job.value.state.Complete? ==> Collects(cr, now, obs, ops))
      && (job.value.state.Active? ==> Disrupts(cr, now, obs, ops))
  }

  // ----- the decisions come to this

  lemma ErrorOutcome(cr: Cr, reason: Reason, diagnostics: seq<Diagnostic>)
    ensures EndsInError(cr, reason, diagnostics,
                        [WriteStatus(TerminalStatus(cr.(status := cr.status.(diagnostics := diagnostics)), Errored, reason))])
  {
  }

  lemma FindingOutcome(cr: Cr, reason: Reason, kind: string)
    ensures EndsWithFinding(cr, reason, kind, [WriteStatus(ErrorStatus(cr, kind, reason))])
  {
    ErrorOutcome(cr, reason, cr.status.diagnostics + [Diagnostic(kind, Critical)]);
  }

  lemma PlainErrorOutcome(cr: Cr, reason: Reason)
    ensures EndsInError(cr, reason, cr.status.diagnostics, [WriteStatus(TerminalStatus(cr, Errored, reason))])
  {
    ErrorOutcome(cr, reason, cr.status.diagnostics);
    assert cr.(status := cr.status.(diagnostics := cr.status.diagnostics)) == cr;
  }

  lemma SpawnOutcome(cr: Cr, obs: Obs)
    ensures Spawns(cr, obs, DecideSpawn(cr, obs))
  {
    match obs.spawn
    case SpawnOk =>
    case SpawnError =>
    case KindUnresolvable => FindingOutcome(cr, TargetUnsupported, "TargetUnsupported");
    case CaBundleMissing => FindingOutcome(cr, TLSCABundleMissing, "TLSCABundleMissing");
    case UrlUnresolved => PlainErrorOutcome(cr, TargetURLUnresolved);
    case BuildFailed => PlainErrorOutcome(cr, JobBuildFailed);
  }

  lemma WithoutJobOutcome(cr: Cr, now: Time, obs: Obs)
    ensures Seeks(cr, now, obs, DecideWithoutJob(cr, now, obs))
  {
    PlainErrorOutcome(cr, LoadgenJobVanished);
    FindingOutcome(cr, TargetUnsupported, "TargetUnsupported");
    FindingOutcome(cr, TargetNotReady, "TargetNotReady");
    SpawnOutcome(cr, obs);
  }

  lemma FinishOutcome(cr: Cr, now: Time, obs: Obs)
    ensures Collects(cr, now, obs, DecideFinish(cr, now, obs))
  {
    PlainErrorOutcome(cr, ObserverReportUnreadable);
  }

  lemma DisruptionOutcome(cr: Cr, now: Time, obs: Obs)
    ensures Disrupts(cr, now, obs, DecideDisruption(cr, now, obs))
  {
  }

  lemma TerminalOutcome(cron: Cron, cr: Cr, job: Option<Job>, now: Time)
    ensures Rests(cron, cr, job, now, DecideTerminal(cron, cr, job, now))
  {
    ErrorOutcome(cr, ScheduleInvalid, [Diagnostic("ScheduleInvalid", Critical)]);
    assert [] + [Diagnostic("ScheduleInvalid", Critical)] == [Diagnostic("ScheduleInvalid", Critical)];
  }

  lemma FinalizeOutcome(cr: Cr, job: Option<Job>)
    ensures Drains(cr, job, DecideFinalize(cr, job))
  {
  }

  /** Whatever is read, whatever the status says. */
  lemma DecisionOutcome(cron: Cron, cr: Cr, job: Option<Job>, now: Time, obs: Obs)
    ensures Outcome(cron, cr, job, now, obs, Decide(cron, cr, job, now, obs))
  {
    if cr.deleting {
      FinalizeOutcome(cr, job);
    } else if Terminal(cr.status.phase) {
      TerminalOutcome(cron, cr, job, now);
    } else if cr.status.phase.NoPhase? {
      FindingOutcome(cr, ScheduleInvalid, "ScheduleInvalid");
    } else if job.None? {
      WithoutJobOutcome(cr, now, obs);
    } else {
      match job.value.state
      case JobFailed => PlainErrorOutcome(cr, LoadgenJobFailed);
      case Complete => FinishOutcome(cr, now, obs);
      case Active => DisruptionOutcome(cr, now, obs);
    }
  }
}

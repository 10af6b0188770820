/** The reconciler as it is written: methods that rewrite their working copy of the
    ScaleValidation step by step and end in an API call. Each keeps what a reader of the status
    relies on, leads to what `Outcomes` says of its calls, and does what the decision functions say,
    so that `Simulate` can play the run protocol with it. */
module Reconciler {
  import opened Basics
  import opened Api
  import opened Chaos
  import opened Decisions
  import opened World
  import opened Invariants
  import opened Preservation
  import opened Outcomes

  class ScaleValidation {
    const creation: Time
    var spec: Spec
    var generation: int
    var deleting: bool
    var finalizer: bool
    var rv: nat
    var status: Status

    constructor (cr: Cr)
      ensures Value() == cr
    {
      creation, spec, generation := cr.creation, cr.spec, cr.generation;
      deleting, finalizer, rv, status := cr.deleting, cr.finalizer, cr.rv, cr.status;
    }

    function Value(): Cr
      reads this
    {
      Cr(spec, generation, deleting, finalizer, creation, rv, status)
    }

    // ----- conditions.go

    method MarkFinished(reason: Reason)
      modifies this`status
      ensures FinishedTrue(status) && status.observedGeneration == generation
      ensures HasDisruption(status) == HasDisruption(old(status))
      ensures OneEach(old(status)) ==> OneEach(status)
      ensures status == FinishedStatus(old(Value()), reason)
    {
      status := status.(observedGeneration := generation);
      status := status.(conditions := SetCondition(status.conditions, Condition(Finished, true, reason, generation)));
    }

    method SetPhase(phase: Phase) returns (op: Op)
      modifies this`status
      ensures status == old(status).(phase := phase)
      ensures op == WriteStatus(status)
    {
      status := status.(phase := phase);
      op := WriteStatus(status);
    }

    method SetTerminalPhase(phase: Phase, reason: Reason) returns (op: Op)
      modifies this`status
      ensures Terminal(phase) && OneEach(old(status)) ==> FinishedTracksPhase(status)
      ensures status.phase == phase && status.observedGeneration == generation
      ensures status.lastRun == old(status.lastRun) && status.history == old(status.history)
      ensures status == TerminalStatus(old(Value()), phase, reason)
      ensures op == WriteStatus(status)
    {
      MarkFinished(reason);
      op := SetPhase(phase);
    }

    /** The failXxx helpers: one Critical diagnostic, then phase Error. */
    method FailRun(diagnostic: string, reason: Reason) returns (ops: seq<Op>)
      modifies this`status
      ensures EndsWithFinding(old(Value()), reason, diagnostic, ops)
      ensures ops == [WriteStatus(ErrorStatus(old(Value()), diagnostic, reason))]
    {
      FindingOutcome(Value(), reason, diagnostic);
      status := status.(diagnostics := status.diagnostics + [Diagnostic(diagnostic, Critical)]);
      var op := SetTerminalPhase(Errored, reason);
      ops := [op];
    }

    // ----- schedule.go

    method ResetForNextRun()
      modifies this`status
      ensures RunScopedEmpty(status) && !HasDisruption(status) && !FinishedTrue(status)
      ensures OneEach(old(status)) ==> OneEach(status)
      ensures status.history == old(status.history) && status.lastRun == old(status.lastRun)
      ensures status.phase == old(status.phase) && status.observedGeneration == old(status.observedGeneration)
      ensures status.(phase := Pending) == ResetStatus(old(Value()))
    {
      status := status.(diagnostics := []);
      status := status.(scaleUp := None);
      status := status.(sla := NoVerdict);
      status := status.(traffic := NoVerdict);
      status := status.(total := 0);
      status := status.(failed := 0);
      status := status.(rateBp := 0);
      status := status.(nextRun := None);
      status := status.(conditions := RemoveCondition(status.conditions, DisruptionInjected));
      status := status.(conditions := SetCondition(status.conditions, Condition(Finished, false, Rescheduled, generation)));
    }

    method StartNextRun(job: Option<Job>) returns (ops: seq<Op>)
      modifies this`status
      ensures Renews(old(Value()), job, ops)
      ensures ops == DecideNextRun(old(Value()), job)
    {
      if job.Some? {
        ops := [];
        if !job.value.deleting { ops := [DeleteJob]; }
        return;
      }
      ResetForNextRun();
      var op := SetPhase(Pending);
      ops := [op];
    }

    method ParkSuspended() returns (ops: seq<Op>)
      modifies this`status
      ensures status == ParkedStatus(old(Value()))
      ensures ops == if old(status) == status then [] else [WriteStatus(status)]
    {
      var changed := false;
      if status.nextRun.Some? {
        status := status.(nextRun := None);
        changed := true;
      }
      if status.observedGeneration != generation {
        status := status.(observedGeneration := generation);
        changed := true;
      }
      ops := if changed then [WriteStatus(status)] else [];
    }

    method RestartForSpecChange(cron: Cron, job: Option<Job>) returns (ops: seq<Op>)
      modifies this`status
      ensures ops == DecideSpecChange(cron, old(Value()), job)
    {
      if !ScheduleParses(cron, Value()) {
        status := status.(diagnostics := []);
        ops := FailRun("ScheduleInvalid", ScheduleInvalid);
      } else {
        ops := StartNextRun(job);
      }
    }

    method ReconcileTerminal(cron: Cron, job: Option<Job>, now: Time) returns (ops: seq<Op>)
      modifies this`status
      ensures Rests(cron, old(Value()), job, now, ops)
      ensures ops == DecideTerminal(cron, old(Value()), job, now)
    {
      TerminalOutcome(cron, Value(), job, now);
      if status.observedGeneration == 0 {
        status := status.(observedGeneration := generation);
        return [WriteStatus(status)];
      }
      if spec.suspend {
        ops := ParkSuspended();
        return;
      }
      if generation != status.observedGeneration {
        ops := RestartForSpecChange(cron, job);
        return;
      }
      if !ScheduleParses(cron, Value()) || spec.schedule == "" {
        return [];
      }
      var next := cron.next(spec.schedule, LastRunAnchor(Value()));
      var remaining := next - now;
      if remaining > 0 {
        ops := [];
        if status.nextRun != Some(next) {
          status := status.(nextRun := Some(next));
          ops := [WriteStatus(status)];
        }
        return;
      }
      ops := StartNextRun(job);
    }

    // ----- disruption.go

    method RecordDisruption(injected: bool) returns (op: Op)
      modifies this`status
      ensures HasDisruption(status) && FinishedTrue(status) == FinishedTrue(old(status))
      ensures OneEach(old(status)) ==> OneEach(status)
      ensures status == old(status).(conditions := status.conditions)
      ensures status == DisruptedStatus(old(Value()), injected)
      ensures op == WriteStatus(status)
    {
      var reason := if injected then PodDeleted else Skipped;
      status := status.(conditions :=
        SetCondition(status.conditions, Condition(DisruptionInjected, injected, reason, generation)));
      op := WriteStatus(status);
    }

    method MaybeInjectDisruption(now: Time, obs: Obs) returns (ops: seq<Op>)
      modifies this`status
      ensures (exists op :: op in ops && op.DeletePod?) <==>
                TimeToDecide(old(Value()), now, obs) && Enough(old(Value()), obs)
      ensures Disrupts(old(Value()), now, obs, ops)
      ensures ops == DecideDisruption(old(Value()), now, obs)
    {
      DisruptionOutcome(Value(), now, obs);
      if spec.disruption.None? || !spec.disruption.value.inject || status.phase != Running {
        return [];
      }
      if FindCondition(status.conditions, DisruptionInjected).Some? {
        return [];
      }
      var d := spec.disruption.value;
      var loadStart := creation;
      if status.lastRun.Some? { loadStart := status.lastRun.value; }
      var delay := 0;
      if d.delay.Some? { delay := d.delay.value; }
      if loadStart + delay - now > 0 {
        return [];
      }
      if obs.pods.None? {
        return [];
      }
      var decision := Plan(Config(d.inject, d.minReplicas, delay), loadStart, obs.pods.value, obs.pick);
      if !decision.inject {
        var skip := RecordDisruption(false);
        return [skip];
      }
      var done := RecordDisruption(true);
      ops := [DeletePod(decision.victim.value), done];
    }

    // ----- scalevalidation_controller.go

    method ApplyReport(rep: Report)
      modifies this`status
      ensures status == old(status).(
                diagnostics := rep.diagnostics, scaleUp := rep.scaleUp, sla := rep.sla, traffic := rep.traffic,
                total := rep.total, failed := rep.failed, rateBp := FailureRateBasisPoints(rep.rate))
    {
      status := status.(diagnostics := rep.diagnostics);
      status := status.(scaleUp := rep.scaleUp);
      status := status.(sla := rep.sla);
      status := status.(traffic := rep.traffic);
      status := status.(total := rep.total);
      status := status.(failed := rep.failed);
      status := status.(rateBp := FailureRateBasisPoints(rep.rate));
    }

    method AppendRunHistory(at: Time)
      modifies this`status
      ensures 0 < |status.history| <= RUN_HISTORY_LIMIT
      ensures status.history[0].phase == old(status.phase) && status.history[0].sla == old(status.sla)
              && status.history[0].traffic == old(status.traffic) && status.history[0].rateBp == old(status.rateBp)
              && status.history[0].finishedAt <= at
      ensures status.history[1..] <= old(status.history)
      ensures |old(status.history)| < RUN_HISTORY_LIMIT ==> status.history[1..] == old(status.history)
      ensures status == old(status).(history := PushHistory(old(status.history), Summary(old(status), at)))
    {
      var entry := RunSummary(Stamp(at), status.phase, status.sla, status.traffic, status.rateBp);
      status := status.(history := [entry] + status.history);
      if |status.history| > RUN_HISTORY_LIMIT {
        status := status.(history := status.history[..RUN_HISTORY_LIMIT]);
      }
    }

    method FinishRun(now: Time, obs: Obs) returns (ops: seq<Op>)
      modifies this`status
      ensures obs.report.Parsed? && OneEach(old(status)) ==>
                && FinishedTracksPhase(status) && VerdictsMatchPhase(status) && ops == [WriteStatus(status)]
      ensures obs.report.Parsed? ==> StoresReport(old(Value()), obs.report.report, now, ops)
      ensures Collects(old(Value()), now, obs, ops)
      ensures ops == DecideFinish(old(Value()), now, obs)
    {
      FinishOutcome(Value(), now, obs);
      match obs.report
      case ListError => ops := [];
      case ObserverRunning => ops := [];
      case NoPod =>
        var op := SetTerminalPhase(Errored, ObserverReportUnreadable);
        ops := [op];
      case Unreadable =>
        var op := SetTerminalPhase(Errored, ObserverReportUnreadable);
        ops := [op];
      case Parsed(rep) =>
        ApplyReport(rep);
        status := status.(phase := VerdictPhase(rep.sla, rep.traffic));
        MarkFinished(VerdictReason(rep.sla, rep.traffic));
        AppendRunHistory(now);
        ops := [WriteStatus(status)];
    }

    /** Everything before the Job is created. */
    method SpawnJob(obs: Obs) returns (ops: seq<Op>)
      modifies this`status
      ensures CreateJob in ops <==> obs.spawn.SpawnOk?
      ensures Spawns(old(Value()), obs, ops)
      ensures CreateJob in ops ==> ops == [CreateJob] && status == old(status)
      ensures ops == DecideSpawn(old(Value()), obs)
    {
      SpawnOutcome(Value(), obs);
      match obs.spawn
      case SpawnError => ops := [];
      case SpawnOk => ops := [CreateJob];
      case KindUnresolvable => ops := FailRun("TargetUnsupported", TargetUnsupported);
      case CaBundleMissing => ops := FailRun("TLSCABundleMissing", TLSCABundleMissing);
      case UrlUnresolved =>
        var op := SetTerminalPhase(Errored, TargetURLUnresolved);
        ops := [op];
      case BuildFailed =>
        var op := SetTerminalPhase(Errored, JobBuildFailed);
        ops := [op];
    }

    /** The rest of spawnJob, once the Job has been created. */
    method RecordStart(now: Time) returns (op: Op)
      modifies this`status
      ensures op == WriteStatus(status) && status.phase.Running?
      ensures status.lastRun.Some? && status.lastRun.value <= now < status.lastRun.value + SECOND
      ensures RunScopedEmpty(old(status)) ==> RunScopedEmpty(status)
      ensures FinishedTrue(status) == FinishedTrue(old(status)) && HasDisruption(status) == HasDisruption(old(status))
      ensures op == WriteStatus(StartedStatus(old(Value()), now))
    {
      status := status.(lastRun := Some(Stamp(now)));
      op := SetPhase(Running);
    }

    method Finalize(job: Option<Job>) returns (ops: seq<Op>)
      modifies this`status
      ensures RemoveFinalizer in ops <==> finalizer && job.None?
      ensures finalizer && job.Some? && !job.value.deleting ==> DeleteJob in ops
      ensures finalizer && job.Some? ==> status.phase.Terminating?
      ensures Drains(old(Value()), job, ops)
      ensures ops == DecideFinalize(old(Value()), job)
    {
      if !finalizer { return []; }
      if job.None? { return [RemoveFinalizer]; }
      ops := [];
      if status.phase != Terminating {
        var op := SetPhase(Terminating);
        ops := ops + [op];
      }
      if !job.value.deleting {
        ops := ops + [DeleteJob];
      }
    }

    method Reconcile(cron: Cron, job: Option<Job>, now: Time, obs: Obs) returns (ops: seq<Op>)
      modifies this`status
      ensures Outcome(cron, old(Value()), job, now, obs, ops)
      ensures ops == Decide(cron, old(Value()), job, now, obs)
      ensures forall w: World :: SnapOk(w, old(Value())) && old(finalizer) && w.job == job && w.now == now ==>
                Justified(cron, w, old(Value()), obs, ops)
    {
      forall w: World | SnapOk(w, Value()) && finalizer && w.job == job && w.now == now
        ensures Justified(cron, w, Value(), obs, Decide(cron, Value(), job, now, obs))
      {
        DecisionJustified(cron, w, Value(), obs);
      }
      DecisionOutcome(cron, Value(), job, now, obs);
      if deleting {
        ops := Finalize(job);
        return;
      }
      if Terminal(status.phase) {
        ops := ReconcileTerminal(cron, job, now);
        return;
      }
      if status.phase == NoPhase {
        if !ScheduleParses(cron, Value()) {
          ops := FailRun("ScheduleInvalid", ScheduleInvalid);
        } else {
          var op := SetPhase(Pending);
          ops := [op];
        }
        return;
      }
      if job.None? {
        if status.phase == Running {
          var op := SetTerminalPhase(Errored, LoadgenJobVanished);
          return [op];
        }
        match obs.target {
          case Unresolvable => ops := FailRun("TargetUnsupported", TargetUnsupported);
          case CheckError => ops := [];
          case NotReady =>
            ops := [];
            if now - creation > TARGET_READY_TIMEOUT { ops := FailRun("TargetNotReady", TargetNotReady); }
          case Ready => ops := SpawnJob(obs);
        }
        return;
      }
      match job.value.state
      case JobFailed =>
        var op := SetTerminalPhase(Errored, LoadgenJobFailed);
        ops := [op];
      case Complete => ops := FinishRun(now, obs);
      case Active => ops := MaybeInjectDisruption(now, obs);
    }
  }

  /** One step of the run protocol, with the reconciler itself doing the deciding. */
  method Play(cron: Cron, w: World, step: Step) returns (w': World)
    requires Inv(cron, w)
    ensures w' == Next(cron, w, step) && Inv(cron, w')
  {
    StepKeepsInv(cron, w, step);
    if step.Observe? && w.ctl.Loaded? && w.ctl.snap.finalizer {
      var cr := new ScaleValidation(w.ctl.snap);
      var ops := cr.Reconcile(cron, w.job, w.now, step.obs);
      w' := w.(ctl := Executing(w.ctl.snap, step.obs, w.now, ops, NoEffect));
    } else if step.Exec? && w.ctl.Executing? && w.ctl.ops != [] && w.ctl.ops[0].StampStart? {
      var cr := new ScaleValidation(w.ctl.snap);
      var op := cr.RecordStart(w.now);
      w' := w.(ctl := w.ctl.(ops := [op]));
    } else {
      w' := Next(cron, w, step);
    }
  }

  /** Whole runs: the reconciler as written, interrupted anywhere, stays on the protocol's runs. */
  method Simulate(cron: Cron, w0: World, steps: seq<Step>) returns (w: World)
    requires Inv(cron, w0)
    ensures w == Run(cron, w0, steps) && Inv(cron, w)
  {
    w := w0;
    for i := 0 to |steps|
      invariant w == Run(cron, w0, steps[..i]) && Inv(cron, w)
    {
      assert steps[..i + 1][..i] == steps[..i];
      w := Play(cron, w, steps[i]);
    }
    assert steps[..|steps|] == steps;
  }
}

/** What the run protocol guarantees, over every run from a fresh ScaleValidation:
    every interleaving of reconcile steps, lost writes, edits, deletion, Job events
    and clock ticks. */
module RunTheorems {
  import opened Basics
  import opened Api
  import opened Chaos
  import opened Decisions
  import opened World
  import opened Invariants
  import opened Preservation
  import opened Ledgers

  lemma Reachable(cron: Cron, w0: World, steps: seq<Step>)
    requires Init(w0)
    ensures Inv(cron, Run(cron, w0, steps)) && LedgersOk(Run(cron, w0, steps), w0.cr.value.creation)
  {
    InitInv(cron, w0);
    RunKeepsLedgers(cron, w0, steps, w0.cr.value.creation);
  }

  // ----- runs never overlap

  lemma ResetNeedsNoJob(cron: Cron, w: World, step: Step)
    requires Inv(cron, w)
    ensures var w' := Next(cron, w, step);
            w'.h.epoch != w.h.epoch ==> w.job.None? && w'.job.None? && w'.h.epoch == w.h.epoch + 1
  {
    if step.Exec? && AtCommit(w) {
      assert WriteOk(cron, w, w.ctl.snap, w.ctl.did, w.ctl.at, w.ctl.ops[0].status);
    }
  }

  /** A Job that exists belongs to the current run; a reset happens only with no Job at all;
      and a run creates one Job, plus one for each start whose status write was lost. */
  lemma NoRunOverlap(cron: Cron, w0: World, steps: seq<Step>, step: Step)
    requires Init(w0)
    ensures var w := Run(cron, w0, steps);
            && (w.job.Some? ==> w.job.value.epoch == w.h.epoch)
            && w.h.jobsCreated <= 1 + w.h.lostStarts
            && (Next(cron, w, step).h.epoch != w.h.epoch ==>
                  w.job.None? && Next(cron, w, step).job.None? && Next(cron, w, step).h.epoch == w.h.epoch + 1)
  {
    Reachable(cron, w0, steps);
    ResetNeedsNoJob(cron, Run(cron, w0, steps), step);
  }

  predicate PastStart(w: World) {
    w.cr.Some? ==> !BeforeStart(w.cr.value.status.phase)
  }

  lemma NoJobAfterStartStep(cron: Cron, w: World, step: Step)
    requires Inv(cron, w) && PastStart(w)
    ensures var w' := Next(cron, w, step);
            w'.h.epoch > w.h.epoch || (w'.h.epoch == w.h.epoch && w'.h.jobsCreated == w.h.jobsCreated && PastStart(w'))
  {
  }

  lemma EpochNeverDrops(cron: Cron, w: World, step: Step)
    ensures Next(cron, w, step).h.epoch >= w.h.epoch
  {
  }

  /** Once Running is committed, no further Job is created before the next reset. */
  lemma {:induction false} NoSecondJob(cron: Cron, w: World, steps: seq<Step>)
    requires Inv(cron, w) && PastStart(w)
    ensures var w' := Run(cron, w, steps);
            w'.h.epoch > w.h.epoch || (w'.h.epoch == w.h.epoch && w'.h.jobsCreated == w.h.jobsCreated && PastStart(w'))
    decreases |steps|
  {
    if steps != [] {
      var before := steps[..|steps| - 1];
      NoSecondJob(cron, w, before);
      RunKeepsInv(cron, w, before);
      var mid := Run(cron, w, before);
      EpochNeverDrops(cron, mid, steps[|steps| - 1]);
      if mid.h.epoch == w.h.epoch { NoJobAfterStartStep(cron, mid, steps[|steps| - 1]); }
    }
  }

  // ----- clean teardown

  /** The ScaleValidation leaves the cluster only when its Job is gone, and no Job appears
      afterwards; phase Terminating is only ever shown while it is being deleted. */
  lemma {:induction false} CleanTeardown(cron: Cron, w0: World, steps: seq<Step>, more: seq<Step>)
    requires Init(w0)
    ensures var w := Run(cron, w0, steps);
            && (w.cr.Some? && w.cr.value.status.phase.Terminating? ==> w.cr.value.deleting)
            && (w.cr.None? ==> w.job.None? && Run(cron, w, more).cr.None? && Run(cron, w, more).job.None?)
    decreases |more|
  {
    Reachable(cron, w0, steps);
    var w := Run(cron, w0, steps);
    if w.cr.None? && more != [] {
      var before := more[..|more| - 1];
      CleanTeardown(cron, w0, steps, before);
      RunKeepsInv(cron, w, before);
      StepKeepsInv(cron, Run(cron, w, before), more[|more| - 1]);
    }
  }

  // ----- chaos

  /** Per run, victims number at most one plus the decisions whose status write was lost, and
      each was a healthy pod deleted in phase Running, after the trigger delay, out of enough. */
  lemma ChaosOncePerDecision(cron: Cron, w0: World, steps: seq<Step>)
    requires Init(w0)
    ensures var h := Run(cron, w0, steps).h;
            && h.epochDeletions <= 1 + h.lostDecisions
            && forall d :: d in h.deletions ==>
                 && d.committed.phase.Running? && d.committed.lastRun.Some?
                 && d.snap.spec.disruption.Some? && d.snap.spec.disruption.value.inject
                 && d.committed.lastRun.value + TriggerDelay(d.snap.spec.disruption.value) <= d.at
                 && d.victim in d.pods && Healthy(d.victim)
                 && |HealthyPods(d.pods)| >= Quorum(d.snap.spec.disruption.value.minReplicas)
  {
    Reachable(cron, w0, steps);
  }

  predicate Decided(w: World) {
    w.cr.Some? ==> HasDisruption(w.cr.value.status)
  }

  lemma NoDeletionAfterDecisionStep(cron: Cron, w: World, step: Step)
    requires Inv(cron, w) && Decided(w)
    ensures var w' := Next(cron, w, step);
            w'.h.epoch > w.h.epoch || (w'.h.epoch == w.h.epoch && w'.h.deletions == w.h.deletions && Decided(w'))
  {
  }

  /** Once a decision is committed, nothing more is deleted until the next reset. */
  lemma {:induction false} NoDeletionAfterDecision(cron: Cron, w: World, steps: seq<Step>)
    requires Inv(cron, w) && Decided(w)
    ensures var w' := Run(cron, w, steps);
            w'.h.epoch > w.h.epoch || (w'.h.epoch == w.h.epoch && w'.h.deletions == w.h.deletions && Decided(w'))
    decreases |steps|
  {
    if steps != [] {
      var before := steps[..|steps| - 1];
      NoDeletionAfterDecision(cron, w, before);
      RunKeepsInv(cron, w, before);
      var mid := Run(cron, w, before);
      EpochNeverDrops(cron, mid, steps[|steps| - 1]);
      if mid.h.epoch == w.h.epoch { NoDeletionAfterDecisionStep(cron, mid, steps[|steps| - 1]); }
    }
  }

  // ----- no self-restart

  predicate EditsWithoutSchedule(steps: seq<Step>) {
    forall i :: 0 <= i < |steps| && steps[i].EditSpec? ==> steps[i].spec.schedule == ""
  }

  predicate Unscheduled(w: World) {
    && (w.cr.Some? ==> w.cr.value.spec.schedule == "")
    && (!w.ctl.Idle? ==> w.ctl.snap.spec.schedule == "")
    && w.h.dueResets == 0
  }

  lemma StepStaysUnscheduled(cron: Cron, w: World, step: Step)
    requires Inv(cron, w) && Unscheduled(w)
    requires step.EditSpec? ==> step.spec.schedule == ""
    ensures Unscheduled(Next(cron, w, step))
  {
  }

  lemma {:induction false} RunStaysUnscheduled(cron: Cron, w: World, steps: seq<Step>)
    requires Inv(cron, w) && Unscheduled(w) && EditsWithoutSchedule(steps)
    ensures Unscheduled(Run(cron, w, steps))
    decreases |steps|
  {
    if steps != [] {
      var before := steps[..|steps| - 1];
      assert EditsWithoutSchedule(before);
      RunStaysUnscheduled(cron, w, before);
      RunKeepsInv(cron, w, before);
      StepStaysUnscheduled(cron, Run(cron, w, before), steps[|steps| - 1]);
    }
  }

  /** On every run the restarts that drift causes are at most the spec edits; without a
      schedule there are no others. The generation a result was taken at is never in the
      future, and is set in every terminal state. */
  lemma NoSelfRestart(cron: Cron, w0: World, steps: seq<Step>)
    requires Init(w0)
    ensures var w := Run(cron, w0, steps);
            && w.h.driftResets <= w.h.edits
            && (w0.cr.value.spec.schedule == "" && EditsWithoutSchedule(steps) ==> w.h.epoch <= w.h.edits)
            && (w.cr.Some? ==>
                  && 0 <= w.cr.value.status.observedGeneration <= w.cr.value.generation
                  && (Terminal(w.cr.value.status.phase) ==> w.cr.value.status.observedGeneration != 0))
  {
    Reachable(cron, w0, steps);
    InitInv(cron, w0);
    if w0.cr.value.spec.schedule == "" && EditsWithoutSchedule(steps) {
      RunStaysUnscheduled(cron, w0, steps);
    }
  }

  /** Neither generation is lower in the later CR. */
  predicate GenerationsGrow(before: Option<Cr>, after: Option<Cr>) {
    before.Some? && after.Some? ==>
      && before.value.status.observedGeneration <= after.value.status.observedGeneration
      && before.value.generation <= after.value.generation
  }

  lemma StepGrowsGenerations(cron: Cron, w: World, step: Step)
    requires Inv(cron, w)
    ensures GenerationsGrow(w.cr, Next(cron, w, step).cr)
  {
    if step.Exec? && AtCommit(w) {
      assert WriteOk(cron, w, w.ctl.snap, w.ctl.did, w.ctl.at, w.ctl.ops[0].status);
    }
  }

  lemma ObservedGenerationNeverDrops(cron: Cron, w0: World, steps: seq<Step>, step: Step)
    requires Init(w0)
    ensures var w := Run(cron, w0, steps);
            var w' := Next(cron, w, step);
            w.cr.Some? && w'.cr.Some? ==>
              && w.cr.value.status.observedGeneration <= w'.cr.value.status.observedGeneration
              && w.cr.value.generation <= w'.cr.value.generation
  {
    Reachable(cron, w0, steps);
    StepGrowsGenerations(cron, Run(cron, w0, steps), step);
  }

  // ----- what a reader of the status sees

  /** In every stored status: Finished is True exactly in a terminal phase and appears at most
      once; nothing of an earlier run shows in Pending or Running; phase and verdicts agree. */
  lemma StatusIsCoherent(cron: Cron, w0: World, steps: seq<Step>)
    requires Init(w0)
    ensures var w := Run(cron, w0, steps);
            w.cr.Some? ==>
              var s := w.cr.value.status;
              && CountConditions(s.conditions, Finished) <= 1
              && (!s.phase.Terminating? ==> (Terminal(s.phase) <==> FinishedTrue(s)))
              && (s.phase.Pending? || s.phase.Running? ==> RunScopedEmpty(s))
              && (s.phase.Succeeded? ==> s.sla != Fail && s.traffic != Fail)
              && (s.phase.Failed? ==> s.sla == Fail || s.traffic == Fail)
  {
    Reachable(cron, w0, steps);
  }

  /** status.history is the newest ten of all the verdicts ever committed, newest first. */
  lemma HistoryRefinesLog(cron: Cron, w0: World, steps: seq<Step>)
    requires Init(w0) && Run(cron, w0, steps).cr.Some?
    ensures var log := Run(cron, w0, steps).h.verdicts;
            var history := Run(cron, w0, steps).cr.value.status.history;
            && |history| == (if |log| <= RUN_HISTORY_LIMIT then |log| else RUN_HISTORY_LIMIT)
            && forall k :: 0 <= k < |history| ==> history[k] == log[|log| - 1 - k]
  {
    Reachable(cron, w0, steps);
    NewestEntries(Run(cron, w0, steps).h.verdicts);
  }

  // ----- scheduled spacing

  lemma SpacingReachable(cron: Cron, w0: World, steps: seq<Step>)
    requires Init(w0) && cron.Lawful()
    ensures SpacingOk(cron, Run(cron, w0, steps))
  {
    InitInv(cron, w0);
    RunKeepsSpacing(cron, w0, steps);
  }

  /** A run that the schedule started has a LastRunTime no earlier than the schedule's next time
      after the LastRunTime before it, or after the creation of the CR when there is none, on
      every run, lost writes and edits included. */
  lemma ScheduledSpacing(cron: Cron, w0: World, steps: seq<Step>, i: nat)
    requires Init(w0) && cron.Lawful()
    requires i < |Run(cron, w0, steps).h.starts|
    ensures var starts := Run(cron, w0, steps).h.starts;
            starts[i].cause.Due? ==>
              cron.next(starts[i].cause.schedule, if i == 0 then w0.cr.value.creation else starts[i - 1].at) <= starts[i].at
  {
    Reachable(cron, w0, steps);
    SpacingReachable(cron, w0, steps);
    var starts := Run(cron, w0, steps).h.starts;
    assert Anchored(starts[i], starts, w0.cr.value.creation);
  }

  /** A Job's own start was stored before the next Job was created. */
  predicate StartStored(jobs: seq<Start>, i: nat)
    requires i + 1 < |jobs|
  {
    jobs[i].recorded < jobs[i + 1].recorded
  }

  lemma AnchorsOfJobs(starts: seq<Start>, jobs: seq<Start>, born: Time, i: nat)
    requires Chained(starts, jobs, born) && i + 1 < |jobs|
    ensures if StartStored(jobs, i)
            then jobs[i].recorded < |starts| && jobs[i].at <= jobs[i + 1].anchor == starts[jobs[i].recorded].at
            else jobs[i + 1].anchor == jobs[i].anchor
  {
    assert Linked(starts, jobs, i);
    assert Anchored(jobs[i], starts, born) && Anchored(jobs[i + 1], starts, born);
  }

  /** Jobs: whatever was lost, a Job the schedule started is due by the anchor it was measured
      from; and that anchor is the LastRunTime stored for the Job before it, which is no earlier
      than that Job, or, when that was lost, the anchor of the Job before it. */
  lemma JobSpacing(cron: Cron, w0: World, steps: seq<Step>, i: nat)
    requires Init(w0) && cron.Lawful()
    requires i + 1 < |Run(cron, w0, steps).h.creations|
    ensures var starts, jobs := Run(cron, w0, steps).h.starts, Run(cron, w0, steps).h.creations;
            && (jobs[i + 1].cause.Due? ==> cron.next(jobs[i + 1].cause.schedule, jobs[i + 1].anchor) <= jobs[i + 1].at)
            && (if StartStored(jobs, i)
                then jobs[i].recorded < |starts| && jobs[i].at <= jobs[i + 1].anchor == starts[jobs[i].recorded].at
                else jobs[i + 1].anchor == jobs[i].anchor)
  {
    Reachable(cron, w0, steps);
    SpacingReachable(cron, w0, steps);
    var w := Run(cron, w0, steps);
    AnchorsOfJobs(w.h.starts, w.h.creations, w0.cr.value.creation, i);
  }

  /** At the step itself: a due Job is created no earlier than the schedule's next time after
      the anchor stored at that moment. */
  lemma DueJobIsDue(cron: Cron, w0: World, steps: seq<Step>)
    requires Init(w0) && cron.Lawful()
    ensures var w := Run(cron, w0, steps);
            var w' := Next(cron, w, Exec);
            w'.h.creations != w.h.creations ==>
              && w.cr.Some? && |w'.h.creations| == |w.h.creations| + 1
              && (w.h.cause.Due? ==> cron.next(w.h.cause.schedule, LastRunAnchor(w.cr.value)) <= Stamp(w.now))
  {
    Reachable(cron, w0, steps);
    SpacingReachable(cron, w0, steps);
    var w := Run(cron, w0, steps);
    if w.h.cause.Due? && w.cr.Some? && BeforeStart(w.cr.value.status.phase) {
      StampKeepsDue(cron, w.h.cause.schedule, LastRunAnchor(w.cr.value), w.now);
    }
  }

  ghost predicate NoEdits(steps: seq<Step>) {
    forall i :: 0 <= i < |steps| ==> !steps[i].EditSpec?
  }

  /** While nobody edits the spec, the first run is the only one the schedule did not start. */
  ghost predicate CausesOk(w: World, spec: Spec) {
    && w.h.edits == 0
    && (w.cr.Some? ==> w.cr.value.spec == spec)
    && (!w.ctl.Idle? ==> w.ctl.snap.spec == spec)
    && (w.h.cause == First || w.h.cause == Due(spec.schedule))
    && (w.h.cause == First && w.cr.Some? && BeforeStart(w.cr.value.status.phase) ==> w.h.starts == [])
    && (forall i :: 0 < i < |w.h.starts| ==> w.h.starts[i].cause == Due(spec.schedule))
  }

  lemma CommitKeepsCauses(cron: Cron, w: World, spec: Spec)
    requires Inv(cron, w) && RestartsOk(w) && CausesOk(w, spec) && AtCommit(w)
    ensures CausesOk(DoWriteStatus(w), spec)
  {
    var before, after := w.ctl.snap.status, w.ctl.ops[0].status;
    assert w.ctl.snap == w.cr.value;
    assert IsStart(before, after) ==> BeforeStart(before.phase);
    assert BeforeStart(after.phase) ==> before.phase.NoPhase? || IsReset(before, after);
    assert IsReset(before, after) ==> !Drifted(w.ctl.snap);
  }

  lemma StepKeepsCauses(cron: Cron, w: World, step: Step, spec: Spec)
    requires Inv(cron, w) && RestartsOk(w) && CausesOk(w, spec) && !step.EditSpec?
    ensures CausesOk(Next(cron, w, step), spec)
  {
    if step.Exec? && AtCommit(w) { CommitKeepsCauses(cron, w, spec); }
  }

  lemma {:induction false} RunKeepsCauses(cron: Cron, w0: World, steps: seq<Step>)
    requires Init(w0) && NoEdits(steps)
    ensures CausesOk(Run(cron, w0, steps), w0.cr.value.spec)
    decreases |steps|
  {
    if steps != [] {
      var before := steps[..|steps| - 1];
      RunKeepsCauses(cron, w0, before);
      Reachable(cron, w0, before);
      StepKeepsCauses(cron, Run(cron, w0, before), steps[|steps| - 1], w0.cr.value.spec);
    }
  }

  /** On a run without spec edits, successive LastRunTime values are a whole schedule step apart. */
  lemma SpacingWithoutEdits(cron: Cron, w0: World, steps: seq<Step>, i: nat)
    requires Init(w0) && cron.Lawful() && NoEdits(steps)
    requires 0 < i < |Run(cron, w0, steps).h.starts|
    ensures var starts := Run(cron, w0, steps).h.starts;
            cron.next(w0.cr.value.spec.schedule, starts[i - 1].at) <= starts[i].at
  {
    RunKeepsCauses(cron, w0, steps);
    ScheduledSpacing(cron, w0, steps, i);
  }

  // ----- suspend

  predicate KeepsSuspended(steps: seq<Step>) {
    forall i :: 0 <= i < |steps| ==> !steps[i].UserDelete? && (steps[i].EditSpec? ==> steps[i].spec.suspend)
  }

  predicate Suspended(w: World) {
    w.cr.Some? && !w.cr.value.deleting && w.cr.value.spec.suspend && Terminal(w.cr.value.status.phase)
  }

  /** Only the advertised next run and the observed generation may differ. */
  predicate SameResult(s: Status, s': Status) {
    s' == s.(nextRun := s'.nextRun, observedGeneration := s'.observedGeneration)
  }

  /** A reconcile that read the CR before suspend was stored may still ask for the Job's deletion:
      it has decided to, or it will find the Job and a reason for a new run, now or in time. */
  predicate OwesDeletion(cron: Cron, w: World) {
    || (w.ctl.Executing? && DeleteJob in w.ctl.ops)
    || (w.ctl.Loaded? && w.ctl.snap.finalizer && !w.ctl.snap.spec.suspend
        && w.job.Some? && !w.job.value.deleting && ScheduleParses(cron, w.ctl.snap)
        && (Drifted(w.ctl.snap) || w.ctl.snap.spec.schedule != ""))
  }

  function Owed(cron: Cron, w: World): nat {
    if OwesDeletion(cron, w) then 1 else 0
  }

  lemma SuspendedStep(cron: Cron, w: World, step: Step)
    requires Inv(cron, w) && Suspended(w)
    requires !step.UserDelete? && (step.EditSpec? ==> step.spec.suspend)
    ensures var w' := Next(cron, w, step);
            && Suspended(w') && SameResult(w.cr.value.status, w'.cr.value.status)
            && w'.h.epoch == w.h.epoch && w'.h.jobsCreated == w.h.jobsCreated
            && w.h.jobDeletes <= w'.h.jobDeletes
  {
    if step.Exec? && AtCommit(w) {
      assert w.ctl.snap == w.cr.value;
      assert w.ctl.ops[0].status == ParkedStatus(w.ctl.snap);
    }
  }

  lemma DebtStep(cron: Cron, w: World, step: Step)
    requires Inv(cron, w) && Suspended(w)
    requires !step.UserDelete? && (step.EditSpec? ==> step.spec.suspend)
    ensures var w' := Next(cron, w, step);
            w'.h.jobDeletes + Owed(cron, w') <= w.h.jobDeletes + Owed(cron, w)
  {
  }

  /** While suspend stays set, nothing leaves the terminal phase, changes the result, starts a
      run or creates a Job; and the finished Job's deletion is asked for at most once more, and
      only by a reconcile that had read the CR before suspend was stored. */
  lemma {:induction false} SuspendDominates(cron: Cron, w: World, steps: seq<Step>)
    requires Inv(cron, w) && Suspended(w) && KeepsSuspended(steps)
    ensures var w' := Run(cron, w, steps);
            && Suspended(w') && SameResult(w.cr.value.status, w'.cr.value.status)
            && w'.h.epoch == w.h.epoch && w'.h.jobsCreated == w.h.jobsCreated
            && w.h.jobDeletes <= w'.h.jobDeletes
            && w'.h.jobDeletes + Owed(cron, w') <= w.h.jobDeletes + Owed(cron, w)
    decreases |steps|
  {
    if steps != [] {
      var before := steps[..|steps| - 1];
      assert KeepsSuspended(before);
      SuspendDominates(cron, w, before);
      RunKeepsInv(cron, w, before);
      SuspendedStep(cron, Run(cron, w, before), steps[|steps| - 1]);
      DebtStep(cron, Run(cron, w, before), steps[|steps| - 1]);
    }
  }

  /** The steps by which a debt is paid: let the due time come, decide, delete. */
  function Pay(cron: Cron, w: World, obs: Obs): seq<Step> {
    if w.ctl.Executing? then [Exec]
    else if !w.ctl.Loaded? then []
    else
      var wait := cron.next(w.ctl.snap.spec.schedule, LastRunAnchor(w.ctl.snap)) - w.now;
      [Tick(if wait < 0 then 0 else wait), Observe(obs), Exec]
  }

  lemma DebtCanBePaid(cron: Cron, w: World, obs: Obs)
    requires Inv(cron, w) && Suspended(w) && OwesDeletion(cron, w)
    ensures KeepsSuspended(Pay(cron, w, obs)) && Run(cron, w, Pay(cron, w, obs)).h.jobDeletes == w.h.jobDeletes + 1
  {
    if w.ctl.Executing? {
      assert w.ctl.ops == [DeleteJob];
      assert [Exec][..0] == [];
      assert Run(cron, w, [Exec]) == Next(cron, w, Exec);
    } else {
      var steps := Pay(cron, w, obs);
      var w1 := Next(cron, w, steps[0]);
      var w2 := Next(cron, w1, steps[1]);
      assert Decide(cron, w1.ctl.snap, w1.job, w1.now, obs) == DecideNextRun(w1.ctl.snap, w1.job) == [DeleteJob];
      assert steps[..2][..1] == steps[..1] && steps[..1][..0] == [];
      assert Run(cron, w, steps[..1]) == w1;
      assert Run(cron, w, steps[..2]) == w2;
      assert Run(cron, w, steps) == Next(cron, w2, Exec);
    }
  }

  /** A deletion after suspend is possible if and only if it is owed. */
  lemma DeletionPossibleIffOwed(cron: Cron, w: World, obs: Obs)
    requires Inv(cron, w) && Suspended(w)
    ensures (exists steps :: KeepsSuspended(steps) && Run(cron, w, steps).h.jobDeletes > w.h.jobDeletes)
            <==> OwesDeletion(cron, w)
  {
    if OwesDeletion(cron, w) {
      DebtCanBePaid(cron, w, obs);
    }
    if steps :| KeepsSuspended(steps) && Run(cron, w, steps).h.jobDeletes > w.h.jobDeletes {
      SuspendDominates(cron, w, steps);
    }
  }

  /** Parking converges: on a parked result a reconcile makes no API call at all, and the edit
      that clears suspend always leaves drift, so it starts a run or reports a bad schedule. */
  lemma ParkingIsIdempotent(cron: Cron, w: World, job: Option<Job>, now: Time, obs: Obs, spec: Spec)
    requires Inv(cron, w) && Suspended(w)
    ensures var parked := w.cr.value.(status := ParkedStatus(w.cr.value));
            && Decide(cron, parked, job, now, obs) == []
            && (!spec.suspend ==>
                  var edited := DoEdit(w, spec).cr.value;
                  && Drifted(edited)
                  && Decide(cron, edited, job, now, obs) == DecideSpecChange(cron, edited, job)
                  && (ScheduleParses(cron, edited) && job.None? ==>
                        Decide(cron, edited, job, now, obs) == [WriteStatus(ResetStatus(edited))]))
  {
  }

  function WithSuspend(cr: Cr, suspend: bool): Cr {
    cr.(spec := cr.spec.(suspend := suspend))
  }

  lemma DisruptionIgnoresSuspend(cr: Cr, suspend: bool, now: Time, obs: Obs)
    ensures DecideDisruption(WithSuspend(cr, suspend), now, obs) == DecideDisruption(cr, now, obs)
  {
  }

  lemma FinishIgnoresSuspend(cr: Cr, suspend: bool, now: Time, obs: Obs)
    ensures DecideFinish(WithSuspend(cr, suspend), now, obs) == DecideFinish(cr, now, obs)
  {
  }

  lemma WithoutJobIgnoresSuspend(cr: Cr, suspend: bool, now: Time, obs: Obs)
    ensures DecideWithoutJob(WithSuspend(cr, suspend), now, obs) == DecideWithoutJob(cr, now, obs)
  {
  }

  /** Suspend is looked at in a terminal phase only: whatever is decided before, the first run
      of a ScaleValidation created suspended included, is decided alike with and without it. */
  lemma SuspendLeavesRunAlone(cron: Cron, cr: Cr, suspend: bool, job: Option<Job>, now: Time, obs: Obs)
    requires !Terminal(cr.status.phase)
    ensures Decide(cron, WithSuspend(cr, suspend), job, now, obs) == Decide(cron, cr, job, now, obs)
  {
    if cr.deleting {
    } else if cr.status.phase.NoPhase? {
    } else if job.None? {
      WithoutJobIgnoresSuspend(cr, suspend, now, obs);
    } else {
      match job.value.state
      case JobFailed =>
      case Complete => FinishIgnoresSuspend(cr, suspend, now, obs);
      case Active => DisruptionIgnoresSuspend(cr, suspend, now, obs);
    }
  }

  // ----- the readiness wait

  /** A reconcile about to look for its target: the run is Pending and has no Job yet. */
  predicate LooksForTarget(w: World) {
    w.ctl.Loaded? && w.ctl.snap.finalizer && !w.ctl.snap.deleting && w.ctl.snap.status.phase.Pending? && w.job.None?
  }

  /** The wait for an unready target is measured from the creation of the CR, in every run: a look
      that finds it unready fails the run exactly when the CR is older than the timeout, however
      recently the run began; otherwise it makes no call. */
  lemma ReadinessWaitIsFromCreation(cron: Cron, w0: World, steps: seq<Step>, obs: Obs)
    requires Init(w0) && obs.target.NotReady?
    ensures var w := Run(cron, w0, steps);
            LooksForTarget(w) ==>
              var ops := Next(cron, w, Observe(obs)).ctl.ops;
              if w.now - w0.cr.value.creation > TARGET_READY_TIMEOUT
              then |ops| == 1 && ops[0].WriteStatus? && ops[0].status.phase.Errored?
                   && FindCondition(ops[0].status.conditions, Finished)
                      == Some(Condition(Finished, true, TargetNotReady, w.ctl.snap.generation))
              else ops == []
  {
    Reachable(cron, w0, steps);
  }

  // ----- one-shot runs and teardown

  /** A finished one-shot validation whose result is up to date, between reconciles or in one
      that has nothing left to do. */
  predicate OneShotDone(cron: Cron, w: World) {
    && w.cr.Some?
    && var cr := w.cr.value;
    && Terminal(cr.status.phase) && cr.finalizer && !cr.deleting && !cr.spec.suspend
    && cr.status.observedGeneration == cr.generation != 0
    && (cr.spec.schedule == "" || !cron.parses(cr.spec.schedule))
    && (!w.ctl.Idle? ==> w.ctl.snap == cr)
    && (w.ctl.Executing? ==> w.ctl.ops == [] && w.ctl.did.NoEffect?)
  }

  predicate HandsOff(steps: seq<Step>) {
    forall i :: 0 <= i < |steps| ==> !steps[i].UserDelete? && !steps[i].EditSpec?
  }

  /** Until somebody edits or deletes it, it stays exactly as it is: no write, no Job, no pod. */
  lemma {:induction false} OneShotIsFinal(cron: Cron, w: World, steps: seq<Step>)
    requires OneShotDone(cron, w) && HandsOff(steps)
    ensures var w' := Run(cron, w, steps);
            OneShotDone(cron, w') && w'.cr == w.cr && w'.h == w.h
    decreases |steps|
  {
    if steps != [] {
      var before := steps[..|steps| - 1];
      assert HandsOff(before);
      OneShotIsFinal(cron, w, before);
    }
  }

  /** Deletion makes progress whatever state it lands in: one uninterrupted reconcile leaves no
      Job or a Job that is being deleted, and with the Job gone one more releases the CR. */
  lemma TeardownProgress(cron: Cron, w: World, obs: Obs)
    requires Inv(cron, w) && w.cr.Some? && w.cr.value.deleting
    ensures var w1 := Next(cron, Next(cron, Next(cron, w, Abort), Begin), Observe(obs));
            var w2 := Next(cron, Next(cron, w1, Exec), Exec);
            && (w.job.None? ==> w2.cr.None?)
            && (w.job.Some? ==> w2.cr.Some? && w2.cr.value.deleting && w2.job.Some? && w2.job.value.deleting)
  {
    var w0 := Next(cron, Next(cron, w, Abort), Begin);
    assert w0.ctl == Loaded(w.cr.value);
    var w1 := Next(cron, w0, Observe(obs));
    assert w1.ctl.ops == DecideFinalize(w.cr.value, w.job);
  }
}

/** What a ScaleValidation comes to when nobody disturbs it: a Job that is created runs, its verdict
    is stored, and a schedule goes on for ever. */
module Progress {
  import opened Basics
  import opened Api
  import opened Decisions
  import opened World
  import opened Invariants
  import opened Preservation
  import opened RunTheorems
  import opened Outcomes
  import opened Looks

  /** A reconcile from beginning to end; no decision makes more than three calls. */
  function Whole(obs: Obs): seq<Step> {
    [Begin, Observe(obs), Exec, Exec, Exec, Exec]
  }

  function Reconciled(cron: Cron, w: World, obs: Obs): World {
    Next(cron, Next(cron, Next(cron, Next(cron, Next(cron, Next(cron, w, Begin), Observe(obs)), Exec), Exec), Exec), Exec)
  }

  lemma {:induction false} RunConcat(cron: Cron, w: World, a: seq<Step>, b: seq<Step>)
    ensures Run(cron, w, a + b) == Run(cron, Run(cron, w, a), b)
    decreases |b|
  {
    if b == [] {
      assert a + b == a;
    } else {
      var before := b[..|b| - 1];
      assert (a + b)[..|a + b| - 1] == a + before;
      RunConcat(cron, w, a, before);
    }
  }

  lemma RunOne(cron: Cron, w: World, step: Step)
    ensures Run(cron, w, [step]) == Next(cron, w, step)
  {
    assert [step][..0] == [];
  }

  lemma RunMore(cron: Cron, w: World, steps: seq<Step>, step: Step)
    ensures Run(cron, w, steps + [step]) == Next(cron, Run(cron, w, steps), step)
  {
    RunConcat(cron, w, steps, [step]);
    RunOne(cron, Run(cron, w, steps), step);
  }

  lemma ReconciledIsRun(cron: Cron, w: World, obs: Obs)
    ensures Run(cron, w, Whole(obs)) == Reconciled(cron, w, obs)
  {
    var steps := Whole(obs);
    RunOne(cron, w, Begin);
    RunMore(cron, w, steps[..1], steps[1]);
    assert steps[..1] == [Begin] && steps[..2] == steps[..1] + [steps[1]];
    RunMore(cron, w, steps[..2], steps[2]);
    assert steps[..3] == steps[..2] + [steps[2]];
    RunMore(cron, w, steps[..3], steps[3]);
    assert steps[..4] == steps[..3] + [steps[3]];
    RunMore(cron, w, steps[..4], steps[4]);
    assert steps[..5] == steps[..4] + [steps[4]];
    RunMore(cron, w, steps[..5], steps[5]);
    assert steps == steps[..5] + [steps[5]];
  }

  /** Between reconciles, with a CR that the controller has seen and nobody deletes. */
  predicate Quiet(w: World) {
    w.ctl.Idle? && w.cr.Some? && w.cr.value.finalizer && !w.cr.value.deleting
  }

  /** Everything of the CR but its status, and the version that goes with it. */
  predicate SameCr(w: World, w': World)
    requires w.cr.Some?
  {
    w'.cr.Some? && w'.cr.value == w.cr.value.(status := w'.cr.value.status, rv := w'.cr.value.rv)
  }

  /** What the look at the start of a reconcile leads to. */
  function Answer(cron: Cron, w: World, obs: Obs): seq<Op>
    requires Quiet(w)
  {
    Calls(cron, Next(cron, w, Begin), obs)
  }

  lemma QuietLook(cron: Cron, w: World, obs: Obs)
    requires Inv(cron, w) && Quiet(w)
    ensures Outcome(cron, w.cr.value, w.job, w.now, obs, Answer(cron, w, obs))
  {
    StepKeepsInv(cron, w, Begin);
    EveryLook(cron, Next(cron, w, Begin), obs);
  }

  /** One write and nothing else is stored as decided. */
  lemma WriteIsStored(cron: Cron, w: World, obs: Obs)
    requires Quiet(w) && Writes(Answer(cron, w, obs))
    ensures var w' := Reconciled(cron, w, obs);
            && Quiet(w') && SameCr(w, w') && w'.cr.value.status == Answer(cron, w, obs)[0].status
            && w'.job == w.job && w'.now == w.now
            && w'.h == Committed(w.h, w.cr.value, w'.cr.value.status, w.now)
  {
  }

  // ----- a run

  /** Pending, with the old Job gone. */
  predicate AwaitsJob(w: World) {
    Quiet(w) && w.cr.value.status.phase.Pending? && w.job.None?
  }

  /** The Job is created and Running is stored with the time of its creation. */
  lemma JobStarts(cron: Cron, w: World, obs: Obs)
    requires Inv(cron, w) && AwaitsJob(w) && obs.target.Ready? && obs.spawn.SpawnOk?
    ensures var w' := Reconciled(cron, w, obs);
            && Quiet(w') && SameCr(w, w')
            && w'.cr.value.status == w.cr.value.status.(phase := Running, lastRun := Some(Stamp(w.now)))
            && w'.job == Some(Job(w.h.epoch, Active, false)) && w'.now == w.now && w'.h.verdicts == w.h.verdicts
  {
    QuietLook(cron, w, obs);
    assert Answer(cron, w, obs) == [CreateJob];
    var w1 := Next(cron, Next(cron, w, Begin), Observe(obs));
    assert w1.ctl == Executing(w.cr.value, obs, w.now, [CreateJob], NoEffect);
    var w2 := Next(cron, Next(cron, w1, Exec), Exec);
    assert w2.ctl.ops == [WriteStatus(w.cr.value.status.(phase := Running, lastRun := Some(Stamp(w.now))))];
  }

  lemma WholeKeepsInv(cron: Cron, w: World, obs: Obs)
    requires Inv(cron, w)
    ensures Inv(cron, Reconciled(cron, w, obs))
  {
    RunKeepsInv(cron, w, Whole(obs));
    ReconciledIsRun(cron, w, obs);
  }

  /** A Job that has ended ends its run in one reconcile. */
  lemma RunEnds(cron: Cron, w: World, obs: Obs)
    requires Inv(cron, w) && Quiet(w) && w.cr.value.status.phase.Running?
    ensures var w' := Reconciled(cron, w, obs);
            && (JobIs(w.job, JobFailed) ==>
                  Quiet(w') && SameCr(w, w') && w'.job == w.job
                  && EndsInError(w.cr.value, LoadgenJobFailed, [], [WriteStatus(w'.cr.value.status)]))
            && (JobIs(w.job, Complete) && obs.report.Parsed? ==>
                  Quiet(w') && SameCr(w, w') && w'.job == w.job && w'.now == w.now
                  && StoresReport(w.cr.value, obs.report.report, w.now, [WriteStatus(w'.cr.value.status)])
                  && |w'.h.verdicts| == |w.h.verdicts| + 1)
  {
    QuietLook(cron, w, obs);
    if Writes(Answer(cron, w, obs)) {
      WriteIsStored(cron, w, obs);
      assert Answer(cron, w, obs) == [WriteStatus(Reconciled(cron, w, obs).cr.value.status)];
    }
  }

  /** The Job ends, and some time goes by. */
  function JobEnds(cron: Cron, w: World, state: JobState, d: nat): World {
    Next(cron, Next(cron, w, JobFinishes(state)), Tick(d))
  }

  lemma JobEndsQuietly(cron: Cron, w: World, state: JobState, d: nat)
    requires Inv(cron, w) && Quiet(w) && JobIs(w.job, Active)
    ensures var w' := JobEnds(cron, w, state, d);
            Inv(cron, w') && Quiet(w') && w'.cr == w.cr && w'.h == w.h && JobIs(w'.job, state) && w'.now == w.now + d
            && w'.job.value.deleting == w.job.value.deleting
  {
    StepKeepsInv(cron, w, JobFinishes(state));
    StepKeepsInv(cron, Next(cron, w, JobFinishes(state)), Tick(d));
  }

  function WholeRun(cron: Cron, w: World, start: Obs, state: JobState, d: nat, end: Obs): World {
    Reconciled(cron, JobEnds(cron, Reconciled(cron, w, start), state, d), end)
  }

  /** What the CR says once its Job has been started. */
  function Begun(cr: Cr, at: Time): Cr {
    cr.(status := cr.status.(phase := Running, lastRun := Some(Stamp(at))))
  }

  /** From Pending to the end of the run in two reconciles. When the Job completes, what is stored is
      what the report says, with this run's start and its entry before the older ones; when it fails,
      an error that leaves the history as it was. */
  lemma UndisturbedRun(cron: Cron, w: World, start: Obs, state: JobState, d: nat, end: Obs)
    requires Inv(cron, w) && AwaitsJob(w) && start.target.Ready? && start.spawn.SpawnOk?
    ensures var w' := WholeRun(cron, w, start, state, d, end);
            && (state.JobFailed? ==>
                  Quiet(w') && SameCr(w, w')
                  && EndsInError(Begun(w.cr.value, w.now), LoadgenJobFailed, [], [WriteStatus(w'.cr.value.status)]))
            && (state.Complete? && end.report.Parsed? ==>
                  Quiet(w') && SameCr(w, w') && w'.job.Some? && !w'.job.value.deleting
                  && StoresReport(Begun(w.cr.value, w.now), end.report.report, w.now + d, [WriteStatus(w'.cr.value.status)])
                  && |w'.h.verdicts| == |w.h.verdicts| + 1)
  {
    JobStarts(cron, w, start);
    WholeKeepsInv(cron, w, start);
    var w1 := Reconciled(cron, w, start);
    JobEndsQuietly(cron, w1, state, d);
    var w2 := JobEnds(cron, w1, state, d);
    RunEnds(cron, w2, end);
  }

  // ----- a schedule

  /** A finished, scheduled CR whose Job is still there. */
  predicate AwaitsSchedule(cron: Cron, w: World) {
    && Quiet(w) && Terminal(w.cr.value.status.phase) && !Drifted(w.cr.value) && OnSchedule(cron, w.cr.value)
    && w.job.Some? && !w.job.value.deleting
  }

  predicate OnSchedule(cron: Cron, cr: Cr) {
    !cr.spec.suspend && cr.spec.schedule != "" && cron.parses(cr.spec.schedule)
  }

  function Wait(cron: Cron, w: World): nat
    requires w.cr.Some?
  {
    var next := cron.next(w.cr.value.spec.schedule, Began(w.cr.value));
    if next < w.now then 0 else next - w.now
  }

  /** When its time has come, a reconcile asks for the Job's deletion. */
  lemma OldJobGoes(cron: Cron, w: World, obs: Obs)
    requires Inv(cron, w) && AwaitsSchedule(cron, w) && CalledFor(cron, w.cr.value, w.now)
    ensures var w' := Reconciled(cron, w, obs);
            Quiet(w') && w'.cr == w.cr && w'.now == w.now && w'.job == Some(w.job.value.(deleting := true))
            && w'.h.verdicts == w.h.verdicts && w'.h.epoch == w.h.epoch
  {
    QuietLook(cron, w, obs);
    assert Answer(cron, w, obs) == [DeleteJob];
  }

  /** Once it is gone, the next reconcile stores a fresh Pending run. */
  lemma RunIsReset(cron: Cron, w: World, obs: Obs)
    requires Inv(cron, w) && Quiet(w) && Terminal(w.cr.value.status.phase) && w.job.None?
    requires CalledFor(cron, w.cr.value, w.now)
    ensures var w' := Reconciled(cron, w, obs);
            AwaitsJob(w') && SameCr(w, w') && Restarts(w.cr.value, [WriteStatus(w'.cr.value.status)])
            && w'.h.verdicts == w.h.verdicts && w'.h.epoch == w.h.epoch + 1
  {
    QuietLook(cron, w, obs);
    assert Restarts(w.cr.value, Answer(cron, w, obs));
    WriteIsStored(cron, w, obs);
    assert Answer(cron, w, obs) == [WriteStatus(Reconciled(cron, w, obs).cr.value.status)];
  }

  function NextRun(cron: Cron, w: World, obs: Obs): World
    requires w.cr.Some?
  {
    Reconciled(cron, Next(cron, Reconciled(cron, Next(cron, w, Tick(Wait(cron, w))), obs), JobGone), obs)
  }

  /** From a finished run to the next: the time comes, the Job goes, Pending is stored, and only
      the start and the history of earlier runs are left. */
  lemma NextRunBegins(cron: Cron, w: World, obs: Obs)
    requires Inv(cron, w) && AwaitsSchedule(cron, w)
    ensures var w' := NextRun(cron, w, obs);
            AwaitsJob(w') && SameCr(w, w') && Restarts(w.cr.value, [WriteStatus(w'.cr.value.status)])
            && w'.h.verdicts == w.h.verdicts && w'.h.epoch == w.h.epoch + 1
  {
    var w1 := Next(cron, w, Tick(Wait(cron, w)));
    StepKeepsInv(cron, w, Tick(Wait(cron, w)));
    OldJobGoes(cron, w1, obs);
    WholeKeepsInv(cron, w1, obs);
    var w2 := Reconciled(cron, w1, obs);
    StepKeepsInv(cron, w2, JobGone);
    RunIsReset(cron, Next(cron, w2, JobGone), obs);
  }

  /** Pending, to its verdict, to the next Pending. */
  lemma OneCycle(cron: Cron, w: World, obs: Obs) returns (steps: seq<Step>)
    requires Inv(cron, w) && AwaitsJob(w) && OnSchedule(cron, w.cr.value)
    requires obs.target.Ready? && obs.spawn.SpawnOk? && obs.report.Parsed?
    ensures var w' := Run(cron, w, steps);
            Inv(cron, w') && AwaitsJob(w') && SameCr(w, w') && |w'.h.verdicts| == |w.h.verdicts| + 1
    ensures HandsOff(steps)
  {
    var run := Whole(obs) + [JobFinishes(Complete), Tick(0)] + Whole(obs);
    var mid := WholeRun(cron, w, obs, Complete, 0, obs);
    WholeRunIsRun(cron, w, obs);
    UndisturbedRun(cron, w, obs, Complete, 0, obs);
    RunKeepsInv(cron, w, run);
    NextRunBegins(cron, mid, obs);
    var next := [Tick(Wait(cron, mid))] + Whole(obs) + [JobGone] + Whole(obs);
    NextRunIsRun(cron, mid, obs);
    RunConcat(cron, w, run, next);
    RunKeepsInv(cron, mid, next);
    HandsOffConcat(run, next);
    steps := run + next;
  }

  lemma HandsOffConcat(a: seq<Step>, b: seq<Step>)
    requires HandsOff(a) && HandsOff(b)
    ensures HandsOff(a + b)
  {
  }

  lemma WholeRunIsRun(cron: Cron, w: World, obs: Obs)
    ensures Run(cron, w, Whole(obs) + [JobFinishes(Complete), Tick(0)] + Whole(obs)) == WholeRun(cron, w, obs, Complete, 0, obs)
    ensures HandsOff(Whole(obs) + [JobFinishes(Complete), Tick(0)] + Whole(obs))
  {
    var first := Whole(obs) + [JobFinishes(Complete)];
    ReconciledIsRun(cron, w, obs);
    RunMore(cron, w, Whole(obs), JobFinishes(Complete));
    RunMore(cron, w, first, Tick(0));
    assert Whole(obs) + [JobFinishes(Complete), Tick(0)] == first + [Tick(0)];
    RunConcat(cron, w, first + [Tick(0)], Whole(obs));
    ReconciledIsRun(cron, Run(cron, w, first + [Tick(0)]), obs);
  }

  lemma NextRunIsRun(cron: Cron, w: World, obs: Obs)
    requires w.cr.Some?
    ensures Run(cron, w, [Tick(Wait(cron, w))] + Whole(obs) + [JobGone] + Whole(obs)) == NextRun(cron, w, obs)
    ensures HandsOff([Tick(Wait(cron, w))] + Whole(obs) + [JobGone] + Whole(obs))
  {
    var tick := [Tick(Wait(cron, w))];
    RunOne(cron, w, tick[0]);
    RunConcat(cron, w, tick, Whole(obs));
    ReconciledIsRun(cron, Next(cron, w, tick[0]), obs);
    RunMore(cron, w, tick + Whole(obs), JobGone);
    RunConcat(cron, w, tick + Whole(obs) + [JobGone], Whole(obs));
    ReconciledIsRun(cron, Run(cron, w, tick + Whole(obs) + [JobGone]), obs);
  }

  /** A schedule goes on: for any number of runs there is a way to them that stores that many more
      verdicts, without an edit. */
  lemma {:induction false} ScheduleGoesOn(cron: Cron, w: World, obs: Obs, n: nat) returns (steps: seq<Step>)
    requires Inv(cron, w) && AwaitsJob(w) && OnSchedule(cron, w.cr.value)
    requires obs.target.Ready? && obs.spawn.SpawnOk? && obs.report.Parsed?
    ensures var w' := Run(cron, w, steps);
            Inv(cron, w') && AwaitsJob(w') && SameCr(w, w') && |w'.h.verdicts| == |w.h.verdicts| + n
    ensures HandsOff(steps)
  {
    if n == 0 {
      steps := [];
    } else {
      var before := ScheduleGoesOn(cron, w, obs, n - 1);
      var more := OneCycle(cron, Run(cron, w, before), obs);
      RunConcat(cron, w, before, more);
      HandsOffConcat(before, more);
      steps := before + more;
    }
  }
}

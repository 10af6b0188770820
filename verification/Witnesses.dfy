/** Runs that show what the run protocol does not promise. */
module Witnesses {
  import opened Basics
  import opened Api
  import opened Decisions
  import opened World
  import opened RunTheorems
  import opened LostStart

  // ----- a Job deleted after suspend was stored

  const SUSPENDED: Spec := Spec("* * * * *", true, None)

  /** The next run is due and the reconcile has decided to delete the old Job; then suspend is stored. */
  const TOO_LATE: World := JUDGED.(
    cr := Some(JUDGED.cr.value.(spec := SUSPENDED, generation := 2, rv := 4)),
    ctl := Executing(JUDGED.cr.value, OBS, JUDGED.now, [DeleteJob], NoEffect),
    h := JUDGED.h.(edits := 1))

  const SUSPEND_LATE: seq<Step> := [Begin, Observe(OBS), EditSpec(SUSPENDED), Tick(0)]

  lemma SuspendingLate()
    ensures Run(EVERY_MINUTE, JUDGED, SUSPEND_LATE) == TOO_LATE
  {
    RunFour(EVERY_MINUTE, JUDGED, Begin, Observe(OBS), EditSpec(SUSPENDED), Tick(0));
  }

  /** From a fresh CR to a suspended one whose finished Job is deleted by the next step. */
  lemma SuspendDoesNotRecallDeletion() returns (cron: Cron, w0: World, steps: seq<Step>)
    ensures Init(w0)
    ensures var w := Run(cron, w0, steps);
            var w' := Next(cron, w, Exec);
            && Suspended(w) && OwesDeletion(cron, w) && w.job.Some? && !w.job.value.deleting
            && Suspended(w') && !OwesDeletion(cron, w') && w'.job.Some? && w'.job.value.deleting
            && w'.h.jobDeletes == w.h.jobDeletes + 1
  {
    cron, w0, steps := EVERY_MINUTE, FRESH, FIRST_RUN + SUSPEND_LATE;
    FirstRun();
    SuspendingLate();
    RunConcat(cron, w0, FIRST_RUN, SUSPEND_LATE);
  }

  // ----- a first run under suspend

  const BORN_SUSPENDED: World := FRESH.(cr := Some(FRESH.cr.value.(spec := Spec("", true, None))))

  const ADOPTED: World := WAITING.(cr := Some(WAITING.cr.value.(spec := Spec("", true, None))))

  lemma AdoptingSuspended()
    ensures Run(EVERY_MINUTE, BORN_SUSPENDED, ADOPT + [Abort]) == ADOPTED
  {
    RunFour(EVERY_MINUTE, BORN_SUSPENDED, Begin, AddFinalizer, Observe(OBS), Exec);
    RunConcat(EVERY_MINUTE, BORN_SUSPENDED, ADOPT, [Abort]);
    RunOne(EVERY_MINUTE, Run(EVERY_MINUTE, BORN_SUSPENDED, ADOPT), Abort);
  }

  lemma StartingSuspended()
    ensures var w := Next(EVERY_MINUTE, Run(EVERY_MINUTE, ADOPTED, ONE_CALL), Exec);
            w.cr.Some? && w.cr.value.status.phase.Running? && w.cr.value.spec.suspend && w.job.Some?
  {
    RunFour(EVERY_MINUTE, ADOPTED, Begin, Observe(OBS), Exec, Exec);
  }

  /** A ScaleValidation created suspended, never edited, and Running with its Job. */
  lemma CreatedSuspendedRuns() returns (cron: Cron, w0: World, steps: seq<Step>)
    ensures Init(w0) && w0.cr.value.spec.suspend && NoEdits(steps)
    ensures var w := Run(cron, w0, steps);
            w.cr.Some? && w.cr.value.status.phase.Running? && w.cr.value.spec.suspend && w.job.Some?
  {
    cron, w0, steps := EVERY_MINUTE, BORN_SUSPENDED, ADOPT + [Abort] + ONE_CALL + [Exec];
    AdoptingSuspended();
    RunConcat(cron, w0, ADOPT + [Abort], ONE_CALL);
    RunConcat(cron, w0, ADOPT + [Abort] + ONE_CALL, [Exec]);
    RunOne(cron, Run(cron, w0, ADOPT + [Abort] + ONE_CALL), Exec);
    StartingSuspended();
  }

  // ----- a later run failed at its first look for the target

  const NOT_READY: Obs := OBS.(target := NotReady)

  const LATER: World := RESET.(now := 401 * SECOND)

  lemma ResettingLater()
    ensures Run(EVERY_MINUTE, CLEARED.(now := 401 * SECOND), ONE_CALL) == LATER
  {
    RunFour(EVERY_MINUTE, CLEARED.(now := 401 * SECOND), Begin, Observe(OBS), Exec, Exec);
  }

  lemma LookingOnce()
    ensures var w := Run(EVERY_MINUTE, LATER, [Begin, Observe(NOT_READY), Exec, Exec]);
            w.cr.Some? && w.cr.value.status.phase.Errored? && w.h.epoch == 1 && w.now == LATER.now
  {
    RunFour(EVERY_MINUTE, LATER, Begin, Observe(NOT_READY), Exec, Exec);
  }

  const WAIT_THEN_RESET: seq<Step> := ONE_CALL + [JobGone] + [Tick(331 * SECOND)] + ONE_CALL

  lemma WaitingThenResetting()
    ensures Run(EVERY_MINUTE, JUDGED, WAIT_THEN_RESET) == LATER
  {
    var cron := EVERY_MINUTE;
    var a := ONE_CALL + [JobGone];
    Clearing();
    RunConcat(cron, JUDGED, ONE_CALL, [JobGone]);
    RunOne(cron, Run(cron, JUDGED, ONE_CALL), JobGone);
    RunConcat(cron, JUDGED, a, [Tick(331 * SECOND)]);
    RunOne(cron, CLEARED, Tick(331 * SECOND));
    ResettingLater();
    RunConcat(cron, JUDGED, a + [Tick(331 * SECOND)], ONE_CALL);
  }

  /** The second run is reset to Pending and, with no time gone by, failed for not being ready. */
  lemma LaterRunGetsNoWait() returns (cron: Cron, w0: World, steps: seq<Step>, look: seq<Step>)
    ensures Init(w0)
    ensures var w, w' := Run(cron, w0, steps), Run(cron, Run(cron, w0, steps), look);
            && w.cr.Some? && w.cr.value.status.phase.Pending? && w.h.epoch == 1
            && w'.cr.Some? && w'.cr.value.status.phase.Errored? && w'.h.epoch == 1 && w'.now == w.now
  {
    cron, w0, steps := EVERY_MINUTE, FRESH, FIRST_RUN + WAIT_THEN_RESET;
    look := [Begin, Observe(NOT_READY), Exec, Exec];
    FirstRun();
    WaitingThenResetting();
    RunConcat(cron, w0, FIRST_RUN, WAIT_THEN_RESET);
    LookingOnce();
  }
}

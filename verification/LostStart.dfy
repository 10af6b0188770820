/** Why JobSpacing asks for a stored start: when the status write behind a Job creation is
    lost, the run goes on but its LastRunTime is never recorded, so the schedule is measured
    from an older anchor and the next Job comes early. */
module LostStart {
  import opened Basics
  import opened Api
  import opened Decisions
  import opened World
  import opened RunTheorems

  const MINUTE: Duration := 60 * SECOND

  function NextMinute(schedule: string, t: Time): Time {
    (t / MINUTE + 1) * MINUTE
  }

  const EVERY_MINUTE: Cron := Cron(_ => true, NextMinute)

  lemma EveryMinuteIsLawful()
    ensures EVERY_MINUTE.Lawful()
  {
    forall s, t
      ensures NextMinute(s, t) > t && Stamp(NextMinute(s, t)) == NextMinute(s, t)
    {
      assert NextMinute(s, t) == (t / MINUTE + 1) * 60 * SECOND;
    }
  }

  const OBS: Obs := Obs(Ready, SpawnOk, Parsed(Report([], None, Pass, Pass, 1, 0, 0.0)), None, 0)

  const FRESH: World := World(
    Some(Cr(Spec("* * * * *", false, None), 1, false, false, 0, 0, EMPTY_STATUS)),
    None, 61 * SECOND, Idle, NO_HISTORY)

  const WAITING: World := FRESH.(
    cr := Some(FRESH.cr.value.(finalizer := true, rv := 2, status := EMPTY_STATUS.(phase := Pending))))

  const FORGOTTEN: World := WAITING.(
    job := Some(Job(0, Active, false)),
    h := NO_HISTORY.(
      jobsCreated := 1, lostStarts := 1, creations := [Start(61 * SECOND, First, 0, 0)]))

  const REPORTED: Status := ReportedStatus(WAITING.cr.value, OBS.report.report, 70 * SECOND)

  const JUDGED: World := FORGOTTEN.(
    cr := Some(WAITING.cr.value.(rv := 3, status := REPORTED)),
    job := Some(Job(0, Complete, false)),
    now := 70 * SECOND,
    h := FORGOTTEN.h.(verdicts := [Summary(REPORTED, 70 * SECOND)]))

  const CLEARED: World := JUDGED.(job := None, h := JUDGED.h.(jobDeletes := 1))

  const RESET: World := CLEARED.(
    cr := Some(JUDGED.cr.value.(rv := 4, status := ResetStatus(JUDGED.cr.value))),
    h := CLEARED.h.(epoch := 1, dueResets := 1, cause := Due("* * * * *"), jobsCreated := 0, lostStarts := 0))

  lemma RunOne(cron: Cron, w: World, a: Step)
    ensures Run(cron, w, [a]) == Next(cron, w, a)
  {
    assert [a][..0] == [];
  }

  lemma {:induction false} RunConcat(cron: Cron, w: World, a: seq<Step>, b: seq<Step>)
    ensures Run(cron, w, a + b) == Run(cron, Run(cron, w, a), b)
    decreases |b|
  {
    if b == [] {
      assert a + b == a;
    } else {
      RunConcat(cron, w, a, b[..|b| - 1]);
      assert (a + b)[..|a + b| - 1] == a + b[..|b| - 1];
    }
  }

  lemma RunFour(cron: Cron, w: World, a: Step, b: Step, c: Step, d: Step)
    ensures Run(cron, w, [a, b, c, d]) == Next(cron, Next(cron, Next(cron, Next(cron, w, a), b), c), d)
  {
    RunOne(cron, w, a);
    RunConcat(cron, w, [a], [b]);
    RunOne(cron, Run(cron, w, [a]), b);
    RunConcat(cron, w, [a, b], [c]);
    RunOne(cron, Run(cron, w, [a, b]), c);
    RunConcat(cron, w, [a, b, c], [d]);
    RunOne(cron, Run(cron, w, [a, b, c]), d);
    assert [a] + [b] == [a, b] && [a, b] + [c] == [a, b, c] && [a, b, c] + [d] == [a, b, c, d];
  }

  const ADOPT: seq<Step> := [Begin, AddFinalizer, Observe(OBS), Exec]
  const LOSE: seq<Step> := [Begin, Observe(OBS), Exec, Abort]
  const ONE_CALL: seq<Step> := [Begin, Observe(OBS), Exec, Exec]

  lemma Adopting()
    ensures Next(EVERY_MINUTE, Run(EVERY_MINUTE, FRESH, ADOPT), Abort) == WAITING
  {
    RunFour(EVERY_MINUTE, FRESH, Begin, AddFinalizer, Observe(OBS), Exec);
  }

  lemma Losing()
    ensures Run(EVERY_MINUTE, WAITING, LOSE) == FORGOTTEN
  {
    RunFour(EVERY_MINUTE, WAITING, Begin, Observe(OBS), Exec, Abort);
  }

  lemma Judging()
    ensures Run(EVERY_MINUTE, FORGOTTEN.(now := 70 * SECOND, job := JUDGED.job), ONE_CALL) == JUDGED
  {
    RunFour(EVERY_MINUTE, FORGOTTEN.(now := 70 * SECOND, job := JUDGED.job), Begin, Observe(OBS), Exec, Exec);
  }

  lemma Clearing()
    ensures Run(EVERY_MINUTE, JUDGED, ONE_CALL).(job := None) == CLEARED
  {
    RunFour(EVERY_MINUTE, JUDGED, Begin, Observe(OBS), Exec, Exec);
  }

  lemma Resetting()
    ensures Run(EVERY_MINUTE, CLEARED, ONE_CALL) == RESET
  {
    RunFour(EVERY_MINUTE, CLEARED, Begin, Observe(OBS), Exec, Exec);
  }

  lemma Respawning()
    ensures Run(EVERY_MINUTE, RESET, LOSE).h.creations
            == [Start(61 * SECOND, First, 0, 0), Start(70 * SECOND, Due("* * * * *"), 0, 0)]
  {
    RunFour(EVERY_MINUTE, RESET, Begin, Observe(OBS), Exec, Abort);
  }

  const FIRST_RUN: seq<Step> := ADOPT + [Abort] + LOSE + [JobFinishes(Complete)] + [Tick(9 * SECOND)] + ONE_CALL
  const SECOND_RUN: seq<Step> := ONE_CALL + [JobGone] + ONE_CALL + LOSE

  lemma FirstRun()
    ensures Run(EVERY_MINUTE, FRESH, FIRST_RUN) == JUDGED
  {
    var cron := EVERY_MINUTE;
    var a := ADOPT + [Abort];
    var b := a + LOSE;
    var c := b + [JobFinishes(Complete)];
    var d := c + [Tick(9 * SECOND)];
    Adopting();
    RunConcat(cron, FRESH, ADOPT, [Abort]);
    RunOne(cron, Run(cron, FRESH, ADOPT), Abort);
    Losing();
    RunConcat(cron, FRESH, a, LOSE);
    RunConcat(cron, FRESH, b, [JobFinishes(Complete)]);
    RunOne(cron, FORGOTTEN, JobFinishes(Complete));
    RunConcat(cron, FRESH, c, [Tick(9 * SECOND)]);
    RunOne(cron, Next(cron, FORGOTTEN, JobFinishes(Complete)), Tick(9 * SECOND));
    Judging();
    RunConcat(cron, FRESH, d, ONE_CALL);
  }

  lemma SecondRun()
    ensures Run(EVERY_MINUTE, JUDGED, SECOND_RUN) == Run(EVERY_MINUTE, RESET, LOSE)
  {
    var cron := EVERY_MINUTE;
    var a := ONE_CALL + [JobGone];
    Clearing();
    RunConcat(cron, JUDGED, ONE_CALL, [JobGone]);
    RunOne(cron, Run(cron, JUDGED, ONE_CALL), JobGone);
    Resetting();
    RunConcat(cron, JUDGED, a, ONE_CALL);
    RunConcat(cron, JUDGED, a + ONE_CALL, LOSE);
  }

  lemma NobodyEdits()
    ensures NoEdits(FIRST_RUN + SECOND_RUN)
  {
  }

  lemma WholeRun()
    ensures Run(EVERY_MINUTE, FRESH, FIRST_RUN + SECOND_RUN) == Run(EVERY_MINUTE, RESET, LOSE)
  {
    FirstRun();
    SecondRun();
    RunConcat(EVERY_MINUTE, FRESH, FIRST_RUN, SECOND_RUN);
  }

  /** A run without edits, under a lawful cron, whose second Job the schedule starts before it is due. */
  lemma JobSpacingNeedsCommittedStarts() returns (cron: Cron, w0: World, steps: seq<Step>)
    ensures Init(w0) && cron.Lawful() && NoEdits(steps)
    ensures var jobs := Run(cron, w0, steps).h.creations;
            |jobs| == 2 && !StartStored(jobs, 0) && jobs[1].cause.Due? && jobs[1].at < cron.next(jobs[1].cause.schedule, jobs[0].at)
  {
    cron, w0, steps := EVERY_MINUTE, FRESH, FIRST_RUN + SECOND_RUN;
    EveryMinuteIsLawful();
    NobodyEdits();
    WholeRun();
    Respawning();
  }
}

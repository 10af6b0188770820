/** Invariants that tie the stored status to the whole history of a run. */
module Ledgers {
  import opened Basics
  import opened Api
  import opened Decisions
  import opened World
  import opened Invariants
  import opened Preservation

  /** The next API call is a status write that the server will accept. */
  predicate AtCommit(w: World) {
    && w.ctl.Executing? && w.ctl.ops != [] && w.ctl.ops[0].WriteStatus?
    && w.cr.Some? && w.cr.value.rv == w.ctl.snap.rv
  }

  // ----- bounded history

  function Reversed<T>(s: seq<T>): (r: seq<T>)
    ensures |r| == |s|
    ensures forall k :: 0 <= k < |s| ==> r[k] == s[|s| - 1 - k]
  {
    if s == [] then [] else [s[|s| - 1]] + Reversed(s[..|s| - 1])
  }

  /** The newest RUN_HISTORY_LIMIT entries of a log, newest first. */
  function Newest(log: seq<RunSummary>): seq<RunSummary> {
    if |log| <= RUN_HISTORY_LIMIT then Reversed(log) else Reversed(log)[..RUN_HISTORY_LIMIT]
  }

  lemma PushIsNewest(log: seq<RunSummary>, e: RunSummary)
    ensures PushHistory(Newest(log), e) == Newest(log + [e])
  {
    assert (log + [e])[..|log|] == log;
    assert Reversed(log + [e]) == [e] + Reversed(log);
  }

  lemma NewestEntries(log: seq<RunSummary>)
    ensures |Newest(log)| == if |log| <= RUN_HISTORY_LIMIT then |log| else RUN_HISTORY_LIMIT
    ensures forall k :: 0 <= k < |Newest(log)| ==> Newest(log)[k] == log[|log| - 1 - k]
  {
  }

  predicate HistoryOk(w: World) {
    w.cr.Some? ==> w.cr.value.status.history == Newest(w.h.verdicts)
  }

  lemma CommitKeepsHistory(cron: Cron, w: World)
    requires Inv(cron, w) && HistoryOk(w) && AtCommit(w)
    ensures HistoryOk(DoWriteStatus(w))
  {
    PushIsNewest(w.h.verdicts, Summary(w.ctl.ops[0].status, w.ctl.at));
  }

  lemma StepKeepsHistory(cron: Cron, w: World, step: Step)
    requires Inv(cron, w) && HistoryOk(w)
    ensures HistoryOk(Next(cron, w, step))
  {
    if step.Exec? && AtCommit(w) {
      CommitKeepsHistory(cron, w);
    }
  }

  // ----- chaos

  predicate WasDeleted(w: World) {
    w.ctl.Executing? && w.ctl.did.PodWasDeleted?
  }

  /** Either no decision of this epoch is recorded, or at most one deletion is not yet paid for. */
  predicate ChaosOk(w: World) {
    && w.h.epochDeletions <= w.h.lostDecisions
         + (if WasDeleted(w) || w.cr.None? || HasDisruption(w.cr.value.status) then 1 else 0)
    && (forall d :: d in w.h.deletions ==>
          DeletionOk(d.victim, d.at, d.snap, d.pods) && d.committed == d.snap.status)
  }

  lemma CommitKeepsChaos(cron: Cron, w: World)
    requires Inv(cron, w) && ChaosOk(w) && AtCommit(w)
    ensures ChaosOk(DoWriteStatus(w))
  {
    assert w.ctl.snap == w.cr.value;
  }

  lemma StepKeepsChaos(cron: Cron, w: World, step: Step)
    requires Inv(cron, w) && ChaosOk(w)
    ensures ChaosOk(Next(cron, w, step))
  {
    if step.Exec? && AtCommit(w) {
      CommitKeepsChaos(cron, w);
    }
  }

  // ----- starts

  predicate WasCreated(w: World) {
    w.ctl.Executing? && w.ctl.did.JobWasCreated?
  }

  predicate BeforeStart(p: Phase) {
    p.NoPhase? || p.Pending?
  }

  function LastStart(starts: seq<Start>): Option<Time> {
    if starts == [] then None else Some(starts[|starts| - 1].at)
  }

  predicate StartsOk(w: World) {
    && w.h.jobsCreated <= w.h.lostStarts
         + (if WasCreated(w) || w.cr.None? || !BeforeStart(w.cr.value.status.phase) then 1 else 0)
    && (w.cr.Some? ==> w.cr.value.status.lastRun == LastStart(w.h.starts))
  }

  lemma CommitKeepsStarts(cron: Cron, w: World)
    requires Inv(cron, w) && StartsOk(w) && AtCommit(w)
    ensures StartsOk(DoWriteStatus(w))
  {
    assert w.ctl.snap == w.cr.value;
  }

  lemma StepKeepsStarts(cron: Cron, w: World, step: Step)
    requires Inv(cron, w) && StartsOk(w)
    ensures StartsOk(Next(cron, w, step))
  {
    if step.Exec? && AtCommit(w) {
      CommitKeepsStarts(cron, w);
    }
  }

  // ----- anchors

  /** Where the schedule is measured from after the first n starts of a CR created at `born`. */
  function AnchorAfter(starts: seq<Start>, born: Time, n: nat): Time
    requires n <= |starts|
  {
    if n == 0 then born else starts[n - 1].at
  }

  predicate Anchored(s: Start, starts: seq<Start>, born: Time) {
    s.recorded <= |starts| && s.anchor == AnchorAfter(starts, born, s.recorded)
  }

  /** With n starts stored, either the Job's own start is the last of them, stamped no earlier than
      the Job, or it is not among them. */
  predicate Settled(job: Start, starts: seq<Start>, n: nat) {
    n == job.recorded || (n == job.recorded + 1 <= |starts| && job.at <= starts[job.recorded].at)
  }

  /** Between Job i and the next, Job i's start was stored or it was not. */
  predicate Linked(starts: seq<Start>, jobs: seq<Start>, i: nat)
    requires i + 1 < |jobs|
  {
    Settled(jobs[i], starts, jobs[i + 1].recorded)
  }

  /** Every start and every Job is measured from the last start stored before it. */
  predicate Chained(starts: seq<Start>, jobs: seq<Start>, born: Time) {
    && (forall i :: 0 <= i < |starts| ==> starts[i].recorded == i && Anchored(starts[i], starts, born))
    && (forall i :: 0 <= i < |jobs| ==> Anchored(jobs[i], starts, born))
    && (forall i: nat :: i + 1 < |jobs| ==> Linked(starts, jobs, i))
    && (if jobs == [] then starts == [] else Settled(jobs[|jobs| - 1], starts, |starts|))
  }

  lemma OneMoreStart(starts: seq<Start>, jobs: seq<Start>, born: Time, s: Start)
    requires Chained(starts, jobs, born)
    requires s.recorded == |starts| && s.anchor == AnchorAfter(starts, born, |starts|)
    requires jobs != [] && jobs[|jobs| - 1].recorded == |starts| && jobs[|jobs| - 1].at <= s.at
    ensures Chained(starts + [s], jobs, born)
  {
    var more := starts + [s];
    forall x: Start | Anchored(x, starts, born)
      ensures Anchored(x, more, born)
    {
    }
    forall i: nat | i + 1 < |jobs|
      ensures Linked(more, jobs, i)
    {
      assert Linked(starts, jobs, i);
    }
  }

  lemma OneMoreJob(starts: seq<Start>, jobs: seq<Start>, born: Time, job: Start)
    requires Chained(starts, jobs, born)
    requires job.recorded == |starts| && job.anchor == AnchorAfter(starts, born, |starts|)
    ensures Chained(starts, jobs + [job], born)
  {
    var more := jobs + [job];
    forall i: nat | i + 1 < |more|
      ensures Linked(starts, more, i)
    {
      if i + 1 < |jobs| { assert Linked(starts, jobs, i); }
    }
  }

  /** The CR and the snapshot are those of the CR created at `born`. */
  predicate SameCr(w: World, born: Time) {
    && (w.cr.Some? ==> w.cr.value.creation == born)
    && (!w.ctl.Idle? ==> w.ctl.snap.creation == born)
  }

  lemma StampMonotone(s: Time, t: Time)
    requires s <= t
    ensures Stamp(s) <= Stamp(t)
  {
  }

  /** A start waiting to be stamped or stored is that of the last Job. */
  predicate StartPending(w: World) {
    WasCreated(w) ==>
      var jobs := w.h.creations;
      && jobs != [] && jobs[|jobs| - 1].recorded == |w.h.starts| && jobs[|jobs| - 1].at <= Stamp(w.now)
      && (w.ctl.ops != [] && w.ctl.ops[0].WriteStatus? && w.ctl.ops[0].status.lastRun.Some? ==>
            jobs[|jobs| - 1].at <= w.ctl.ops[0].status.lastRun.value)
  }

  predicate AnchorsOk(w: World, born: Time) {
    SameCr(w, born) && StartPending(w) && Chained(w.h.starts, w.h.creations, born)
  }

  lemma CommitKeepsAnchors(cron: Cron, w: World, born: Time)
    requires Inv(cron, w) && StartsOk(w) && AnchorsOk(w, born) && AtCommit(w)
    ensures AnchorsOk(DoWriteStatus(w), born)
  {
    assert w.ctl.snap == w.cr.value;
    if IsStart(w.ctl.snap.status, w.ctl.ops[0].status) {
      var starts := w.h.starts;
      var s := Start(w.ctl.ops[0].status.lastRun.value, w.h.cause, LastRunAnchor(w.ctl.snap), |starts|);
      assert s.anchor == AnchorAfter(starts, born, |starts|);
      OneMoreStart(starts, w.h.creations, born, s);
    }
  }

  lemma CreateKeepsAnchors(cron: Cron, w: World, born: Time)
    requires Inv(cron, w) && StartsOk(w) && AnchorsOk(w, born)
    requires w.ctl.Executing? && w.ctl.ops != [] && w.ctl.ops[0].CreateJob?
    ensures AnchorsOk(DoCreateJob(w), born)
  {
    var starts := w.h.starts;
    var job := Start(Stamp(w.now), w.h.cause, LastRunAnchor(w.ctl.snap), |starts|);
    assert job.anchor == AnchorAfter(starts, born, |starts|);
    OneMoreJob(starts, w.h.creations, born, job);
  }

  lemma OthersKeepAnchors(cron: Cron, w: World, step: Step, born: Time)
    requires Inv(cron, w) && SameCr(w, born) && StartPending(w)
    requires step.Exec? ==> !AtCommit(w) && !(w.ctl.Executing? && w.ctl.ops != [] && w.ctl.ops[0].CreateJob?)
    ensures var w' := Next(cron, w, step);
            SameCr(w', born) && StartPending(w') && w'.h.starts == w.h.starts && w'.h.creations == w.h.creations
  {
    if step.Tick? { StampMonotone(w.now, w.now + step.d); }
  }

  lemma StepKeepsAnchors(cron: Cron, w: World, step: Step, born: Time)
    requires Inv(cron, w) && StartsOk(w) && AnchorsOk(w, born)
    ensures AnchorsOk(Next(cron, w, step), born)
  {
    if step.Exec? && AtCommit(w) {
      CommitKeepsAnchors(cron, w, born);
    } else if step.Exec? && w.ctl.Executing? && w.ctl.ops != [] && w.ctl.ops[0].CreateJob? {
      CreateKeepsAnchors(cron, w, born);
    } else {
      OthersKeepAnchors(cron, w, step, born);
    }
  }

  // ----- restarts

  predicate RestartsOk(w: World) {
    && w.h.epoch == w.h.driftResets + w.h.dueResets
    && w.h.driftResets <= w.h.edits
    && (w.cr.Some? ==>
          && w.cr.value.generation == 1 + w.h.edits + (if w.cr.value.deleting then 1 else 0)
          && w.cr.value.status.observedGeneration <= 1 + w.h.edits
          && (Terminal(w.cr.value.status.phase) ==> w.h.driftResets <= w.cr.value.status.observedGeneration - 1))
  }

  lemma CommitKeepsRestarts(cron: Cron, w: World)
    requires Inv(cron, w) && RestartsOk(w) && AtCommit(w)
    ensures RestartsOk(DoWriteStatus(w))
  {
    assert w.ctl.snap == w.cr.value;
  }

  lemma StepKeepsRestarts(cron: Cron, w: World, step: Step)
    requires Inv(cron, w) && RestartsOk(w)
    ensures RestartsOk(Next(cron, w, step))
  {
    if step.Exec? && AtCommit(w) {
      CommitKeepsRestarts(cron, w);
    }
  }

  // ----- spacing

  predicate IsDueAt(cron: Cron, cause: Cause, anchor: Time, t: Time) {
    cause.Due? ==> cron.next(cause.schedule, anchor) <= t
  }

  /** Whatever the schedule started came no earlier than the schedule says. */
  ghost predicate Spaced(cron: Cron, starts: seq<Start>) {
    forall i :: 0 <= i < |starts| ==> IsDueAt(cron, starts[i].cause, starts[i].anchor, starts[i].at)
  }

  ghost predicate SpacingOk(cron: Cron, w: World) {
    && Spaced(cron, w.h.starts) && Spaced(cron, w.h.creations)
    && (w.cr.Some? && BeforeStart(w.cr.value.status.phase) ==>
          IsDueAt(cron, w.h.cause, LastRunAnchor(w.cr.value), w.now))
    && (w.ctl.Executing? && w.ctl.ops != [] && w.ctl.ops[0].WriteStatus?
        && IsStart(w.ctl.snap.status, w.ctl.ops[0].status) && w.ctl.ops[0].status.lastRun.Some? ==>
          IsDueAt(cron, w.h.cause, LastRunAnchor(w.ctl.snap), w.ctl.ops[0].status.lastRun.value))
  }

  /** A whole-second due time that has come is also past in whole seconds. */
  lemma StampKeepsDue(cron: Cron, schedule: string, last: Time, now: Time)
    requires cron.Lawful() && cron.next(schedule, last) <= now
    ensures cron.next(schedule, last) <= Stamp(now)
  {
    assert Stamp(cron.next(schedule, last)) == cron.next(schedule, last);
  }

  lemma CommitKeepsSpacing(cron: Cron, w: World)
    requires Inv(cron, w) && SpacingOk(cron, w) && AtCommit(w)
    ensures SpacingOk(cron, DoWriteStatus(w))
  {
    assert w.ctl.snap == w.cr.value;
  }

  lemma StartKeepsSpacing(cron: Cron, w: World)
    requires cron.Lawful() && Inv(cron, w) && SpacingOk(cron, w)
    requires w.ctl.Executing? && w.ctl.ops != [] && (w.ctl.ops[0].CreateJob? || w.ctl.ops[0].StampStart?)
    ensures SpacingOk(cron, DoExec(w))
  {
    assert LastRunAnchor(w.ctl.snap) == LastRunAnchor(w.cr.value);
    if w.h.cause.Due? {
      StampKeepsDue(cron, w.h.cause.schedule, LastRunAnchor(w.ctl.snap), w.now);
    }
  }

  lemma ObserveKeepsSpacing(cron: Cron, w: World, obs: Obs)
    requires Inv(cron, w) && SpacingOk(cron, w)
    ensures SpacingOk(cron, DoObserve(cron, w, obs))
  {
    if w.ctl.Loaded? && w.ctl.snap.finalizer {
      DecisionJustified(cron, w, w.ctl.snap, obs);
      assert Justified(cron, w, w.ctl.snap, obs, DoObserve(cron, w, obs).ctl.ops);
    }
  }

  lemma OthersKeepSpacing(cron: Cron, w: World, step: Step)
    requires SpacingOk(cron, w) && !step.Exec? && !step.Observe?
    ensures SpacingOk(cron, Next(cron, w, step))
  {
  }

  lemma ExecKeepsSpacing(cron: Cron, w: World)
    requires cron.Lawful() && Inv(cron, w) && SpacingOk(cron, w)
    ensures SpacingOk(cron, DoExec(w))
  {
    if AtCommit(w) {
      CommitKeepsSpacing(cron, w);
    } else if w.ctl.Executing? && w.ctl.ops != [] && (w.ctl.ops[0].CreateJob? || w.ctl.ops[0].StampStart?) {
      StartKeepsSpacing(cron, w);
    }
  }

  lemma StepKeepsSpacing(cron: Cron, w: World, step: Step)
    requires cron.Lawful() && Inv(cron, w) && SpacingOk(cron, w)
    ensures SpacingOk(cron, Next(cron, w, step))
  {
    match step
    case Observe(obs) => ObserveKeepsSpacing(cron, w, obs);
    case Exec => ExecKeepsSpacing(cron, w);
    case _ => OthersKeepSpacing(cron, w, step);
  }

  // ----- together

  predicate LedgersOk(w: World, born: Time) {
    HistoryOk(w) && ChaosOk(w) && StartsOk(w) && AnchorsOk(w, born) && RestartsOk(w)
  }

  lemma StepKeepsLedgers(cron: Cron, w: World, step: Step, born: Time)
    requires Inv(cron, w) && LedgersOk(w, born)
    ensures LedgersOk(Next(cron, w, step), born)
  {
    StepKeepsHistory(cron, w, step);
    StepKeepsChaos(cron, w, step);
    StepKeepsStarts(cron, w, step);
    StepKeepsAnchors(cron, w, step, born);
    StepKeepsRestarts(cron, w, step);
  }

  lemma {:induction false} RunKeepsLedgers(cron: Cron, w: World, steps: seq<Step>, born: Time)
    requires Inv(cron, w) && LedgersOk(w, born)
    ensures Inv(cron, Run(cron, w, steps)) && LedgersOk(Run(cron, w, steps), born)
    decreases |steps|
  {
    if steps != [] {
      var before := steps[..|steps| - 1];
      RunKeepsLedgers(cron, w, before, born);
      StepKeepsInv(cron, Run(cron, w, before), steps[|steps| - 1]);
      StepKeepsLedgers(cron, Run(cron, w, before), steps[|steps| - 1], born);
    }
  }

  lemma {:induction false} RunKeepsSpacing(cron: Cron, w: World, steps: seq<Step>)
    requires cron.Lawful() && Inv(cron, w) && SpacingOk(cron, w)
    ensures SpacingOk(cron, Run(cron, w, steps))
    decreases |steps|
  {
    if steps != [] {
      var before := steps[..|steps| - 1];
      RunKeepsInv(cron, w, before);
      RunKeepsSpacing(cron, w, before);
      StepKeepsSpacing(cron, Run(cron, w, before), steps[|steps| - 1]);
    }
  }
}

/** What each look of the controller leads to in every reachable world, and what a run comes to
    that nothing disturbs. Everything is said of the calls made and the statuses stored. */
module Looks {
  import opened Basics
  import opened Api
  import opened Chaos
  import opened Decisions
  import opened World
  import opened Invariants
  import opened RunTheorems
  import opened Outcomes

  /** A reconcile that has read a CR nobody deletes and is about to read its Job. */
  predicate Looking(w: World) {
    w.ctl.Loaded? && w.ctl.snap.finalizer && !w.ctl.snap.deleting
  }

  /** The calls it goes on to make. */
  function Calls(cron: Cron, w: World, obs: Obs): seq<Op>
    requires Looking(w)
  {
    Next(cron, w, Observe(obs)).ctl.ops
  }

  lemma EveryLook(cron: Cron, w: World, obs: Obs)
    requires Inv(cron, w) && Looking(w)
    ensures Outcome(cron, w.ctl.snap, w.job, w.now, obs, Calls(cron, w, obs))
    ensures StatusOk(w.ctl.snap.status, w.ctl.snap.generation, false)
  {
    DecisionOutcome(cron, w.ctl.snap, w.job, w.now, obs);
  }

  predicate JobIs(job: Option<Job>, state: JobState) {
    job.Some? && job.value.state == state
  }

  // ----- a run in progress

  predicate InProgress(cr: Cr) {
    cr.status.phase.Pending? || cr.status.phase.Running?
  }

  lemma RunOutcome(cron: Cron, cr: Cr, job: Option<Job>, now: Time, obs: Obs, ops: seq<Op>)
    requires Outcome(cron, cr, job, now, obs, ops) && !cr.deleting && InProgress(cr) && RunScopedEmpty(cr.status)
    ensures JobIs(job, JobFailed) ==> EndsInError(cr, LoadgenJobFailed, [], ops)
    ensures job.None? && cr.status.phase.Running? ==> EndsInError(cr, LoadgenJobVanished, [], ops)
    ensures JobIs(job, Complete) && obs.report.Parsed? ==> StoresReport(cr, obs.report.report, now, ops)
    ensures CreateJob in ops ==> ops == [CreateJob]
    ensures CreateJob in ops <==> job.None? && cr.status.phase.Pending? && obs.target.Ready? && obs.spawn.SpawnOk?
  {
  }

  /** A failed Job ends the run in Error whatever the report says, and so does a Job that has
      vanished; a complete one with a report ends it with the report's verdict; and the Job is
      created exactly when there is none yet and nothing stands in its way. */
  lemma LookAtRun(cron: Cron, w0: World, steps: seq<Step>, obs: Obs)
    requires Init(w0)
    ensures var w := Run(cron, w0, steps);
            Looking(w) && InProgress(w.ctl.snap) ==>
              var cr, ops := w.ctl.snap, Calls(cron, w, obs);
              && (JobIs(w.job, JobFailed) ==> EndsInError(cr, LoadgenJobFailed, [], ops))
              && (w.job.None? && cr.status.phase.Running? ==> EndsInError(cr, LoadgenJobVanished, [], ops))
              && (JobIs(w.job, Complete) && obs.report.Parsed? ==> StoresReport(cr, obs.report.report, w.now, ops))
              && (CreateJob in ops ==> ops == [CreateJob])
              && (CreateJob in ops <==>
                    w.job.None? && cr.status.phase.Pending? && obs.target.Ready? && obs.spawn.SpawnOk?)
  {
    var w := Run(cron, w0, steps);
    Reachable(cron, w0, steps);
    if Looking(w) && InProgress(w.ctl.snap) {
      EveryLook(cron, w, obs);
      RunOutcome(cron, w.ctl.snap, w.job, w.now, obs, Calls(cron, w, obs));
    }
  }

  // ----- the disruption

  predicate Decides(cr: Cr, job: Option<Job>, now: Time, obs: Obs) {
    JobIs(job, Active) && TimeToDecide(cr, now, obs)
  }

  lemma PodsOutcome(cron: Cron, cr: Cr, job: Option<Job>, now: Time, obs: Obs, ops: seq<Op>)
    requires Outcome(cron, cr, job, now, obs, ops) && !cr.deleting
    ensures (exists op :: op in ops && op.DeletePod?) <==> Decides(cr, job, now, obs) && Enough(cr, obs)
    ensures Decides(cr, job, now, obs) && Enough(cr, obs) ==> Injects(cr, obs.pods.value, ops)
    ensures Decides(cr, job, now, obs) && !Enough(cr, obs) ==> Skips(cr, ops)
  {
  }

  /** Only the disruption's own decision adds its condition. */
  lemma SkipOutcome(cron: Cron, cr: Cr, job: Option<Job>, now: Time, obs: Obs, ops: seq<Op>)
    requires Outcome(cron, cr, job, now, obs, ops) && !cr.deleting && !HasDisruption(cr.status)
    ensures forall op :: op in ops && op.WriteStatus? && HasDisruption(op.status) ==> Decides(cr, job, now, obs)
  {
  }

  /** A pod is deleted exactly when the Job is active, it is time to decide, and enough pods are
      healthy; the decision is stored behind it. It is skipped, for good, exactly when only the
      number of healthy pods falls short. */
  lemma LookAtPods(cron: Cron, w0: World, steps: seq<Step>, obs: Obs)
    requires Init(w0)
    ensures var w := Run(cron, w0, steps);
            Looking(w) ==>
              var cr, ops := w.ctl.snap, Calls(cron, w, obs);
              var decides := Decides(cr, w.job, w.now, obs);
              && (decides ==> cr.status.lastRun.Some?)
              && ((exists op :: op in ops && op.DeletePod?) <==> decides && Enough(cr, obs))
              && (decides && Enough(cr, obs) ==> Injects(cr, obs.pods.value, ops))
              && (Skips(cr, ops) && !HasDisruption(cr.status) <==> decides && !Enough(cr, obs))
  {
    var w := Run(cron, w0, steps);
    Reachable(cron, w0, steps);
    if Looking(w) {
      EveryLook(cron, w, obs);
      PodsOutcome(cron, w.ctl.snap, w.job, w.now, obs, Calls(cron, w, obs));
      if !HasDisruption(w.ctl.snap.status) {
        SkipOutcome(cron, w.ctl.snap, w.job, w.now, obs, Calls(cron, w, obs));
      }
    }
  }

  // ----- a finished run

  predicate Waits(cron: Cron, cr: Cr, now: Time) {
    && cr.spec.schedule != "" && cron.parses(cr.spec.schedule)
    && cron.next(cr.spec.schedule, Began(cr)) > now
  }

  /** A new run is called for: the spec has changed, or the schedule's next time has come. */
  predicate CalledFor(cron: Cron, cr: Cr, now: Time) {
    && !cr.spec.suspend && !BadSchedule(cron, cr)
    && (Drifted(cr) || (cr.spec.schedule != "" && cron.next(cr.spec.schedule, Began(cr)) <= now))
  }

  lemma ResultOutcome(cron: Cron, cr: Cr, job: Option<Job>, now: Time, obs: Obs, ops: seq<Op>)
    requires Outcome(cron, cr, job, now, obs, ops) && !cr.deleting && Terminal(cr.status.phase)
    requires cr.status.observedGeneration != 0
    ensures Restarts(cr, ops) <==> CalledFor(cron, cr, now) && job.None?
    ensures DeleteJob in ops <==> CalledFor(cron, cr, now) && job.Some? && !job.value.deleting
    ensures CalledFor(cron, cr, now) && job.Some? && job.value.deleting ==> ops == []
    ensures cr.spec.suspend ==> Publishes(cr, None, cr.generation, ops)
    ensures !cr.spec.suspend && !Drifted(cr) && Waits(cron, cr, now) ==>
              Publishes(cr, Some(cron.next(cr.spec.schedule, Began(cr))), cr.generation, ops)
  {
  }

  /** A finished run. The next one begins exactly when it is called for and the old Job is gone;
      the old Job is deleted exactly when it is in the way of a run called for; until then the
      status shows the schedule's next time after the last start, or none while suspended. */
  lemma LookAtResult(cron: Cron, w0: World, steps: seq<Step>, obs: Obs)
    requires Init(w0)
    ensures var w := Run(cron, w0, steps);
            Looking(w) && Terminal(w.ctl.snap.status.phase) ==>
              var cr, ops := w.ctl.snap, Calls(cron, w, obs);
              && (Restarts(cr, ops) <==> CalledFor(cron, cr, w.now) && w.job.None?)
              && (DeleteJob in ops <==> CalledFor(cron, cr, w.now) && w.job.Some? && !w.job.value.deleting)
              && (CalledFor(cron, cr, w.now) && w.job.Some? && w.job.value.deleting ==> ops == [])
              && (cr.spec.suspend ==> Publishes(cr, None, cr.generation, ops))
              && (!cr.spec.suspend && !Drifted(cr) && Waits(cron, cr, w.now) ==>
                    Publishes(cr, Some(cron.next(cr.spec.schedule, Began(cr))), cr.generation, ops))
  {
    var w := Run(cron, w0, steps);
    Reachable(cron, w0, steps);
    if Looking(w) && Terminal(w.ctl.snap.status.phase) {
      EveryLook(cron, w, obs);
      ResultOutcome(cron, w.ctl.snap, w.job, w.now, obs, Calls(cron, w, obs));
    }
  }
}

/** What every step of the run protocol keeps. */
module Invariants {
  import opened Basics
  import opened Api
  import opened Chaos
  import opened Decisions
  import opened World

  /** Everything scoped to one run is still empty. */
  predicate RunScopedEmpty(s: Status) {
    && s.diagnostics == [] && s.scaleUp.None? && s.sla.NoVerdict? && s.traffic.NoVerdict?
    && s.total == 0 && s.failed == 0 && s.rateBp == 0 && s.nextRun.None?
  }

  /** Finished is True exactly in the terminal phases, and appears at most once. */
  predicate FinishedTracksPhase(s: Status) {
    && CountConditions(s.conditions, Finished) <= 1
    && CountConditions(s.conditions, DisruptionInjected) <= 1
    && (!s.phase.Terminating? ==> (Terminal(s.phase) <==> FinishedTrue(s)))
  }

  predicate VerdictsMatchPhase(s: Status) {
    && (s.phase.NoPhase? || s.phase.Pending? || s.phase.Running? ==> RunScopedEmpty(s))
    && (s.phase.Succeeded? ==> s.sla != Fail && s.traffic != Fail)
    && (s.phase.Failed? ==> s.sla == Fail || s.traffic == Fail)
  }

  /** What holds of every status that is ever stored on a CR with this generation. */
  predicate StatusOk(s: Status, generation: int, deleting: bool) {
    && FinishedTracksPhase(s)
    && VerdictsMatchPhase(s)
    && (s.phase.Terminating? ==> deleting)
    && (s.phase.Running? ==> s.lastRun.Some?)
    && (s.phase.NoPhase? || s.phase.Pending? ==> !HasDisruption(s))
    && 0 <= s.observedGeneration <= generation
    && (Terminal(s.phase) ==> 1 <= s.observedGeneration)
  }

  /** The stored CR has moved on from the snapshot by edits and deletion only. */
  predicate Follows(snap: Cr, cr: Cr) {
    && snap.rv <= cr.rv && snap.generation <= cr.generation
    && snap.status == cr.status && snap.creation == cr.creation
    && (snap.rv == cr.rv ==> snap == cr)
    && (snap.deleting ==> cr.deleting) && (snap.finalizer ==> cr.finalizer)
  }

  predicate SnapOk(w: World, snap: Cr) {
    && StatusOk(snap.status, snap.generation, snap.deleting) && 1 <= snap.generation
    && (snap.deleting ==> snap.finalizer)
    && (snap.finalizer ==> w.cr.Some?)
    && (w.cr.Some? ==> Follows(snap, w.cr.value))
  }

  /** Due by the clock: the schedule's next time after the last start has come. */
  predicate IsDue(cron: Cron, cr: Cr, now: Time) {
    cr.spec.schedule != "" && cron.next(cr.spec.schedule, LastRunAnchor(cr)) <= now
  }

  /** What justifies replacing the snapshot's status by `s`. */
  predicate WriteOk(cron: Cron, w: World, snap: Cr, did: Effect, at: Time, s: Status) {
    && StatusOk(s, snap.generation, snap.deleting)
    && snap.status.observedGeneration <= s.observedGeneration
    && (s.phase.Terminating? <==> snap.deleting)
    && (snap.deleting ==> s == snap.status.(phase := Terminating))
    && !s.phase.NoPhase?
    // a run is reset only when nothing of the old one is left
    && (s.phase.Pending? ==> snap.status.phase.NoPhase? || Terminal(snap.status.phase))
    && (IsReset(snap.status, s) ==>
          w.job.None? && !snap.spec.suspend && (Drifted(snap) || IsDue(cron, snap, at)))
    // Running is entered only behind a Job creation, and LastRunTime moves only then
    && (did.JobWasCreated? <==> IsStart(snap.status, s))
    && (IsStart(snap.status, s) ==> snap.status.phase.Pending? && s.lastRun.Some? && s.lastRun.value <= w.now)
    && (!IsStart(snap.status, s) ==> s.lastRun == snap.status.lastRun)
    // the chaos decision
    && (did.PodWasDeleted? ==> snap.status.phase.Running? && HasDisruption(s))
    && (HasDisruption(snap.status) && !HasDisruption(s) ==> IsReset(snap.status, s))
    // history
    && s.history == (if IsVerdict(snap.status, s)
                     then PushHistory(snap.status.history, Summary(s, at)) else snap.status.history)
    // a terminal result is renewed, reset, or kept; a finished run takes the generation it saw
    && (Terminal(snap.status.phase) && Terminal(s.phase) && snap.spec.suspend ==> s == ParkedStatus(snap))
    && (Terminal(s.phase) && !Terminal(snap.status.phase) ==> s.observedGeneration == snap.generation)
  }

  /** What justifies deleting `victim`. */
  predicate DeletionOk(victim: Pod, at: Time, snap: Cr, pods: seq<Pod>) {
    && snap.status.phase.Running? && snap.status.lastRun.Some? && !HasDisruption(snap.status)
    && snap.spec.disruption.Some?
    && var d := snap.spec.disruption.value;
    && d.inject
    && snap.status.lastRun.value + TriggerDelay(d) <= at
    && victim in pods && Healthy(victim)
    && |HealthyPods(pods)| >= Quorum(d.minReplicas)
  }

  predicate OpsOk(cron: Cron, w: World, c: Ctl)
    requires c.Executing?
  {
    var snap := c.snap;
    if c.ops == [] then c.did.NoEffect?
    else match c.ops[0]
      case CreateJob =>
        |c.ops| == 1 && c.did.NoEffect? && w.job.None? && !snap.deleting && snap.status.phase.Pending?
      case StampStart =>
        |c.ops| == 1 && c.did.JobWasCreated? && !snap.deleting && snap.status.phase.Pending?
      case DeleteJob =>
        |c.ops| == 1 && c.did.NoEffect?
        && (snap.deleting || (Terminal(snap.status.phase) && !snap.spec.suspend))
      case DeletePod(victim) =>
        && c.did.NoEffect? && c.obs.pods.Some?
        && c.ops == [DeletePod(victim), WriteStatus(DisruptedStatus(snap, true))]
        && !snap.deleting
        && DeletionOk(victim, c.at, snap, c.obs.pods.value)
      case WriteStatus(s) =>
        && WriteOk(cron, w, snap, c.did, c.at, s)
        && (|c.ops| == 1 || (c.ops == [WriteStatus(s), DeleteJob] && snap.deleting))
      case RemoveFinalizer =>
        |c.ops| == 1 && c.did.NoEffect? && w.job.None? && snap.deleting
  }

  predicate CrOk(cr: Cr) {
    && StatusOk(cr.status, cr.generation, cr.deleting) && 1 <= cr.generation
    && (cr.deleting ==> cr.finalizer)
  }

  predicate JobOk(w: World) {
    w.job.Some? ==> w.cr.Some? && w.cr.value.finalizer && w.job.value.epoch == w.h.epoch
                    && !w.cr.value.status.phase.NoPhase?
  }

  predicate CtlOk(cron: Cron, w: World) {
    && (!w.ctl.Idle? ==> SnapOk(w, w.ctl.snap))
    && (w.ctl.Executing? ==> w.ctl.snap.finalizer && w.ctl.at <= w.now && OpsOk(cron, w, w.ctl))
  }

  predicate Inv(cron: Cron, w: World) {
    && (w.cr.Some? ==> CrOk(w.cr.value))
    && JobOk(w)
    && CtlOk(cron, w)
  }

  lemma InitInv(cron: Cron, w: World)
    requires Init(w)
    ensures Inv(cron, w)
  {
  }

  // ----- each decision is justified

  /** Every way a run ends without a verdict. */
  lemma ErrorJustified(cron: Cron, w: World, snap: Cr, at: Time, diagnostics: seq<Diagnostic>, reason: Reason)
    requires SnapOk(w, snap) && !snap.deleting
    requires !Terminal(snap.status.phase) || !snap.spec.suspend
    ensures WriteOk(cron, w, snap, NoEffect, at,
                    TerminalStatus(snap.(status := snap.status.(diagnostics := diagnostics)), Errored, reason))
  {
  }

  lemma VerdictJustified(cron: Cron, w: World, snap: Cr, at: Time, rep: Report)
    requires SnapOk(w, snap) && !snap.deleting && !Terminal(snap.status.phase)
    ensures WriteOk(cron, w, snap, NoEffect, at, ReportedStatus(snap, rep, at))
  {
  }

  lemma ResetJustified(cron: Cron, w: World, snap: Cr, at: Time)
    requires SnapOk(w, snap) && !snap.deleting && Terminal(snap.status.phase) && w.job.None?
    requires !snap.spec.suspend && (Drifted(snap) || IsDue(cron, snap, at))
    ensures WriteOk(cron, w, snap, NoEffect, at, ResetStatus(snap))
  {
  }

  lemma RenewalJustified(cron: Cron, w: World, snap: Cr, at: Time, nextRun: Option<Time>, generation: int)
    requires SnapOk(w, snap) && !snap.deleting && Terminal(snap.status.phase)
    requires snap.status.observedGeneration <= generation <= snap.generation
    requires snap.spec.suspend ==> nextRun.None? && generation == snap.generation
    ensures WriteOk(cron, w, snap, NoEffect, at,
                    snap.status.(nextRun := nextRun, observedGeneration := generation))
  {
  }

  lemma DisruptionJustified(cron: Cron, w: World, snap: Cr, at: Time, injected: bool, did: Effect)
    requires SnapOk(w, snap) && !snap.deleting && snap.status.phase.Running? && !did.JobWasCreated?
    ensures WriteOk(cron, w, snap, did, at, DisruptedStatus(snap, injected))
  {
    assert FinishedTrue(DisruptedStatus(snap, injected)) == FinishedTrue(snap.status);
  }

  lemma StartJustified(cron: Cron, w: World, snap: Cr, at: Time)
    requires SnapOk(w, snap) && !snap.deleting && snap.status.phase.Pending?
    ensures WriteOk(cron, w, snap, JobWasCreated, at, StartedStatus(snap, w.now))
  {
    assert FinishedTrue(StartedStatus(snap, w.now)) == FinishedTrue(snap.status);
  }

  predicate Justified(cron: Cron, w: World, snap: Cr, obs: Obs, ops: seq<Op>) {
    OpsOk(cron, w, Executing(snap, obs, w.now, ops, NoEffect))
  }

  lemma NextRunDecision(cron: Cron, w: World, snap: Cr, obs: Obs)
    requires SnapOk(w, snap) && !snap.deleting && Terminal(snap.status.phase)
    requires !snap.spec.suspend && (Drifted(snap) || IsDue(cron, snap, w.now))
    ensures Justified(cron, w, snap, obs, DecideNextRun(snap, w.job))
  {
    if w.job.None? { ResetJustified(cron, w, snap, w.now); }
  }

  lemma SpecChangeDecision(cron: Cron, w: World, snap: Cr, obs: Obs)
    requires SnapOk(w, snap) && !snap.deleting && Terminal(snap.status.phase)
    requires !snap.spec.suspend && Drifted(snap)
    ensures Justified(cron, w, snap, obs, DecideSpecChange(cron, snap, w.job))
  {
    NextRunDecision(cron, w, snap, obs);
    var only := [Diagnostic("ScheduleInvalid", Critical)];
    assert [] + only == only;
    ErrorJustified(cron, w, snap, w.now, only, ScheduleInvalid);
  }

  lemma TerminalDecision(cron: Cron, w: World, snap: Cr, obs: Obs)
    requires SnapOk(w, snap) && !snap.deleting && Terminal(snap.status.phase)
    ensures Justified(cron, w, snap, obs, DecideTerminal(cron, snap, w.job, w.now))
  {
    if snap.spec.suspend {
      RenewalJustified(cron, w, snap, w.now, None, snap.generation);
    } else if Drifted(snap) {
      SpecChangeDecision(cron, w, snap, obs);
    } else if IsDue(cron, snap, w.now) {
      NextRunDecision(cron, w, snap, obs);
    } else {
      RenewalJustified(cron, w, snap, w.now,
        Some(cron.next(snap.spec.schedule, LastRunAnchor(snap))), snap.status.observedGeneration);
    }
  }

  lemma WithoutJobDecision(cron: Cron, w: World, snap: Cr, obs: Obs)
    requires SnapOk(w, snap) && !snap.deleting && w.job.None?
    requires snap.status.phase.Pending? || snap.status.phase.Running?
    ensures Justified(cron, w, snap, obs, DecideWithoutJob(snap, w.now, obs))
  {
    forall diagnostics, reason {
      ErrorJustified(cron, w, snap, w.now, diagnostics, reason);
    }
    assert snap.(status := snap.status.(diagnostics := snap.status.diagnostics)) == snap;
  }

  lemma WithJobDecision(cron: Cron, w: World, snap: Cr, obs: Obs)
    requires SnapOk(w, snap) && !snap.deleting && w.job.Some?
    requires snap.status.phase.Pending? || snap.status.phase.Running?
    ensures Justified(cron, w, snap, obs, Decide(cron, snap, w.job, w.now, obs))
  {
    assert snap.(status := snap.status.(diagnostics := snap.status.diagnostics)) == snap;
    match w.job.value.state
    case JobFailed =>
      ErrorJustified(cron, w, snap, w.now, snap.status.diagnostics, LoadgenJobFailed);
    case Complete =>
      ErrorJustified(cron, w, snap, w.now, snap.status.diagnostics, ObserverReportUnreadable);
      if obs.report.Parsed? { VerdictJustified(cron, w, snap, w.now, obs.report.report); }
    case Active =>
      if snap.status.phase.Running? { DisruptionJustified(cron, w, snap, w.now, false, NoEffect); }
  }

  lemma FirstDecision(cron: Cron, w: World, snap: Cr, obs: Obs)
    requires SnapOk(w, snap) && !snap.deleting && snap.status.phase.NoPhase?
    ensures Justified(cron, w, snap, obs, Decide(cron, snap, w.job, w.now, obs))
  {
    ErrorJustified(cron, w, snap, w.now,
      snap.status.diagnostics + [Diagnostic("ScheduleInvalid", Critical)], ScheduleInvalid);
    assert FinishedTrue(snap.status.(phase := Pending)) == FinishedTrue(snap.status);
  }

  lemma DecisionJustified(cron: Cron, w: World, snap: Cr, obs: Obs)
    requires SnapOk(w, snap) && snap.finalizer
    ensures Justified(cron, w, snap, obs, Decide(cron, snap, w.job, w.now, obs))
  {
    if snap.deleting {
    } else if Terminal(snap.status.phase) {
      TerminalDecision(cron, w, snap, obs);
    } else if snap.status.phase.NoPhase? {
      FirstDecision(cron, w, snap, obs);
    } else if w.job.None? {
      WithoutJobDecision(cron, w, snap, obs);
    } else {
      WithJobDecision(cron, w, snap, obs);
    }
  }
}

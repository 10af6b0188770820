/** The invariant survives every step, hence holds along every run. */
module Preservation {
  import opened Api
  import opened Decisions
  import opened World
  import opened Invariants

  /** What is justified stays justified while the clock runs and the Job goes away. */
  lemma OpsStable(cron: Cron, w: World, w': World, c: Ctl)
    requires c.Executing? && OpsOk(cron, w, c)
    requires w.now <= w'.now && (w.job.None? ==> w'.job.None?)
    ensures OpsOk(cron, w', c)
  {
  }

  lemma CreateJobKeepsInv(cron: Cron, w: World)
    requires Inv(cron, w) && w.ctl.Executing? && w.ctl.ops != [] && w.ctl.ops[0].CreateJob?
    ensures Inv(cron, DoCreateJob(w))
  {
    var w' := DoCreateJob(w);
    assert OpsOk(cron, w', w'.ctl);
  }

  lemma StampStartKeepsInv(cron: Cron, w: World)
    requires Inv(cron, w) && w.ctl.Executing? && w.ctl.ops != [] && w.ctl.ops[0].StampStart?
    ensures Inv(cron, DoStampStart(w))
  {
    StartJustified(cron, w, w.ctl.snap, w.ctl.at);
    var w' := DoStampStart(w);
    assert OpsOk(cron, w', w'.ctl);
  }

  lemma DeletePodKeepsInv(cron: Cron, w: World)
    requires Inv(cron, w) && w.ctl.Executing? && w.ctl.ops != [] && w.ctl.ops[0].DeletePod?
    ensures Inv(cron, DoDeletePod(w))
  {
    DisruptionJustified(cron, w, w.ctl.snap, w.ctl.at, true, PodWasDeleted);
    var w' := DoDeletePod(w);
    assert OpsOk(cron, w', w'.ctl);
  }

  lemma WriteStatusKeepsInv(cron: Cron, w: World)
    requires Inv(cron, w) && w.ctl.Executing? && w.ctl.ops != [] && w.ctl.ops[0].WriteStatus?
    ensures Inv(cron, DoWriteStatus(w))
  {
    var w' := DoWriteStatus(w);
    if w'.ctl.Executing? {
      assert OpsOk(cron, w', w'.ctl);
    }
  }

  lemma ExecKeepsInv(cron: Cron, w: World)
    requires Inv(cron, w)
    ensures Inv(cron, DoExec(w))
  {
    if w.ctl.Executing? && w.ctl.ops != [] {
      match w.ctl.ops[0]
      case CreateJob => CreateJobKeepsInv(cron, w);
      case StampStart => StampStartKeepsInv(cron, w);
      case DeletePod(_) => DeletePodKeepsInv(cron, w);
      case WriteStatus(_) => WriteStatusKeepsInv(cron, w);
      case DeleteJob =>
      case RemoveFinalizer =>
    }
  }

  lemma ObserveKeepsInv(cron: Cron, w: World, obs: Obs)
    requires Inv(cron, w)
    ensures Inv(cron, DoObserve(cron, w, obs))
  {
    if w.ctl.Loaded? && w.ctl.snap.finalizer {
      DecisionJustified(cron, w, w.ctl.snap, obs);
      var w' := DoObserve(cron, w, obs);
      OpsStable(cron, w, w', w'.ctl);
    }
  }

  predicate ByController(step: Step) {
    step.Begin? || step.AddFinalizer? || step.Observe? || step.Exec? || step.Abort?
  }

  lemma OthersKeepInv(cron: Cron, w: World, step: Step)
    requires Inv(cron, w) && !ByController(step)
    ensures Inv(cron, Next(cron, w, step))
  {
    if w.ctl.Executing? {
      OpsStable(cron, w, Next(cron, w, step), w.ctl);
    }
  }

  lemma StepKeepsInv(cron: Cron, w: World, step: Step)
    requires Inv(cron, w)
    ensures Inv(cron, Next(cron, w, step))
  {
    match step
    case Begin =>
    case AddFinalizer =>
    case Observe(obs) => ObserveKeepsInv(cron, w, obs);
    case Exec => ExecKeepsInv(cron, w);
    case Abort =>
    case _ => OthersKeepInv(cron, w, step);
  }

  lemma {:induction false} RunKeepsInv(cron: Cron, w: World, steps: seq<Step>)
    requires Inv(cron, w)
    ensures Inv(cron, Run(cron, w, steps))
    decreases |steps|
  {
    if steps != [] {
      var before := steps[..|steps| - 1];
      RunKeepsInv(cron, w, before);
      StepKeepsInv(cron, Run(cron, w, before), steps[|steps| - 1]);
    }
  }
}

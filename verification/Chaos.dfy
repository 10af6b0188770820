/** internal/chaos: whether a disruption may be injected, and on which pod. */
module Chaos {
  import opened Basics

  datatype PodPhase = PodPending | PodRunning | PodSucceeded | PodFailed | PodUnknown
  datatype PodCondition = PodCondition(isReady: bool, status: bool)
  datatype Pod = Pod(name: string, deleting: bool, phase: PodPhase, conditions: seq<PodCondition>)

  datatype Config = Config(inject: bool, minReplicas: int, delay: Duration)

  datatype Decision = Decision(inject: bool, skipped: bool, disruptAt: Time, victim: Option<Pod>, healthyCount: nat)

  /** The first Ready condition decides; later ones are never looked at. */
  predicate PodReady(cs: seq<PodCondition>)
    ensures PodReady(cs) <==>
              exists k :: 0 <= k < |cs| && cs[k].isReady && cs[k].status && forall j :: 0 <= j < k ==> !cs[j].isReady
  {
    cs != [] && if cs[0].isReady then cs[0].status else PodReady(cs[1..])
  }

  predicate Healthy(p: Pod) {
    !p.deleting && p.phase == PodRunning && PodReady(p.conditions)
  }

  /** The healthy pods in list order. */
  function HealthyPods(pods: seq<Pod>): (r: seq<Pod>)
    ensures forall p :: multiset(r)[p] == if Healthy(p) then multiset(pods)[p] else 0
  {
    if pods == [] then []
    else
      var last := pods[|pods| - 1];
      assert pods == pods[..|pods| - 1] + [last];
      HealthyPods(pods[..|pods| - 1]) + if Healthy(last) then [last] else []
  }

  method SelectHealthy(pods: seq<Pod>) returns (healthy: seq<Pod>)
    ensures forall p :: p in healthy <==> p in pods && !p.deleting && p.phase.PodRunning? && PodReady(p.conditions)
    ensures healthy == HealthyPods(pods)
  {
    healthy := [];
    for i := 0 to |pods|
      invariant healthy == HealthyPods(pods[..i])
    {
      var p := pods[i];
      assert pods[..i + 1][..i] == pods[..i];
      if p.deleting { continue; }
      if p.phase != PodRunning { continue; }
      if !PodReady(p.conditions) { continue; }
      healthy := healthy + [p];
    }
    assert pods[..|pods|] == pods;
    HealthyMembers(pods);
  }

  lemma HealthyMembers(pods: seq<Pod>)
    ensures forall p :: p in HealthyPods(pods) <==> p in pods && Healthy(p)
  {
    forall p
      ensures p in HealthyPods(pods) <==> p in pods && Healthy(p)
    {
      assert p in HealthyPods(pods) <==> multiset(HealthyPods(pods))[p] > 0;
      assert p in pods <==> multiset(pods)[p] > 0;
    }
  }

  /** The number of healthy pods a disruption must leave evidence of. */
  function Quorum(minReplicas: int): int {
    if minReplicas < 1 then 1 else minReplicas
  }

  function Plan(cfg: Config, loadStart: Time, pods: seq<Pod>, pick: int): (d: Decision)
    ensures d.inject <==> cfg.inject && |HealthyPods(pods)| >= Quorum(cfg.minReplicas)
    ensures d.inject ==> d.victim.Some? && d.victim.value in pods && Healthy(d.victim.value)
    ensures d.inject ==> d.victim.value == HealthyPods(pods)[if 0 <= pick < |HealthyPods(pods)| then pick else 0]
    ensures d.inject ==> d.disruptAt == loadStart + cfg.delay && d.healthyCount == |HealthyPods(pods)|
    ensures d.skipped <==> cfg.inject && !d.inject
    ensures !d.inject ==> d.victim.None?
  {
    if !cfg.inject then Decision(false, false, 0, None, 0)
    else
      var healthy := HealthyPods(pods);
      if |healthy| == 0 || |healthy| < cfg.minReplicas then Decision(false, true, 0, None, |healthy|)
      else
        var idx := if 0 <= pick < |healthy| then pick else 0;
        var victim := healthy[idx];
        assert victim in multiset(healthy);
        assert multiset(healthy)[victim] > 0;
        assert victim in multiset(pods);
        Decision(true, false, loadStart + cfg.delay, Some(victim), |healthy|)
  }
}

/** The ScaleValidation resource as the controller reads and writes it
    (api/v1beta1), the loadgen Job it owns, and the status-condition helpers. */
module Api {

  import opened Basics

  /** metav1.Time keeps whole seconds once it has been through the API server. */
  function Stamp(t: Time): (s: Time)
    ensures s <= t < s + SECOND && s % SECOND == 0
  {
    t / SECOND * SECOND
  }

  datatype Phase = NoPhase | Pending | Running | Succeeded | Failed | Errored | Terminating

  predicate Terminal(p: Phase) {
    p.Succeeded? || p.Failed? || p.Errored?
  }

  datatype Verdict = NoVerdict | Pass | Fail | Unknown

  datatype Severity = Info | Warning | Critical

  datatype Diagnostic = Diagnostic(kind: string, severity: Severity)

  datatype RunSummary = RunSummary(finishedAt: Time, phase: Phase, sla: Verdict, traffic: Verdict, rateBp: int)

  const RUN_HISTORY_LIMIT: nat := 10

  datatype ConditionType = Finished | DisruptionInjected

  datatype Reason =
    | RunSucceeded | VerdictFailed | TargetNotReady | TargetUnsupported | TLSCABundleMissing
    | LoadgenJobFailed | LoadgenJobVanished | ObserverReportUnreadable | TargetURLUnresolved
    | JobBuildFailed | ScheduleInvalid | Rescheduled | PodDeleted | Skipped

  datatype Condition = Condition(ctype: ConditionType, status: bool, reason: Reason, observedGeneration: int)

  datatype Disruption = Disruption(inject: bool, minReplicas: int, delay: Option<Duration>)

  datatype Spec = Spec(schedule: string, suspend: bool, disruption: Option<Disruption>)

  datatype Status = Status(
    phase: Phase,
    scaleUp: Option<Duration>,
    sla: Verdict,
    traffic: Verdict,
    total: int,
    failed: int,
    rateBp: int,
    diagnostics: seq<Diagnostic>,
    lastRun: Option<Time>,
    history: seq<RunSummary>,
    nextRun: Option<Time>,
    observedGeneration: int,
    conditions: seq<Condition>)

  const EMPTY_STATUS: Status :=
    Status(NoPhase, None, NoVerdict, NoVerdict, 0, 0, 0, [], None, [], None, 0, [])

  /** One stored ScaleValidation. `rv` is the resourceVersion: every accepted write bumps it. */
  datatype Cr = Cr(
    spec: Spec,
    generation: int,
    deleting: bool,
    finalizer: bool,
    creation: Time,
    rv: nat,
    status: Status)

  datatype JobState = Active | Complete | JobFailed

  /** The loadgen Job. `epoch` is a history variable: the run it was created in. */
  datatype Job = Job(epoch: nat, state: JobState, deleting: bool)

  /** What the observer sidecar reports for a completed run. */
  datatype Report = Report(
    diagnostics: seq<Diagnostic>,
    scaleUp: Option<Duration>,
    sla: Verdict,
    traffic: Verdict,
    total: int,
    failed: int,
    rate: real)

  /** The cron library: which expressions parse, and the first due time after a given one. */
  datatype Cron = Cron(parses: string -> bool, next: (string, Time) -> Time) {
    /** What the library promises: strictly later, on a whole second. */
    ghost predicate Lawful() {
      forall s, t :: next(s, t) > t && Stamp(next(s, t)) == next(s, t)
    }
  }

  // ----- status conditions (apimachinery's meta helpers)

  function FindCondition(cs: seq<Condition>, t: ConditionType): Option<Condition> {
    if cs == [] then None
    else if cs[0].ctype == t then Some(cs[0])
    else FindCondition(cs[1..], t)
  }

  function CountConditions(cs: seq<Condition>, t: ConditionType): nat {
    if cs == [] then 0
    else (if cs[0].ctype == t then 1 else 0) + CountConditions(cs[1..], t)
  }

  function SetCondition(cs: seq<Condition>, c: Condition): (r: seq<Condition>)
    ensures forall t :: FindCondition(r, t) == if t == c.ctype then Some(c) else FindCondition(cs, t)
    ensures forall t :: t != c.ctype ==> CountConditions(r, t) == CountConditions(cs, t)
    ensures CountConditions(cs, c.ctype) <= 1 ==> CountConditions(r, c.ctype) == 1
  {
    if cs == [] then [c]
    else if cs[0].ctype == c.ctype then [c] + cs[1..]
    else [cs[0]] + SetCondition(cs[1..], c)
  }

  function RemoveCondition(cs: seq<Condition>, t: ConditionType): (r: seq<Condition>)
    ensures FindCondition(r, t) == None && CountConditions(r, t) == 0
    ensures forall u :: u != t ==> FindCondition(r, u) == FindCondition(cs, u)
    ensures forall u :: u != t ==> CountConditions(r, u) == CountConditions(cs, u)
  {
    if cs == [] then []
    else if cs[0].ctype == t then RemoveCondition(cs[1..], t)
    else [cs[0]] + RemoveCondition(cs[1..], t)
  }

  /** At most one condition of each type. */
  predicate OneEach(s: Status) {
    CountConditions(s.conditions, Finished) <= 1 && CountConditions(s.conditions, DisruptionInjected) <= 1
  }

  predicate HasDisruption(s: Status) {
    FindCondition(s.conditions, DisruptionInjected).Some?
  }

  predicate FinishedTrue(s: Status) {
    var f := FindCondition(s.conditions, Finished);
    f.Some? && f.value.status
  }
}

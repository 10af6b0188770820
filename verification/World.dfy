/** The run protocol as a state machine: one ScaleValidation, its Job, the clock,
    at most one reconcile in progress, and everyone else who may touch them.

    `Next` is total: a step that is not enabled leaves the world alone, so a run is
    any sequence of steps at all, and a theorem over runs covers every interleaving. */
module World {
  import opened Basics
  import opened Api
  import opened Chaos
  import opened Decisions

  /** The external effect of this reconcile that still waits for its status write. */
  datatype Effect = NoEffect | JobWasCreated | PodWasDeleted

  datatype Ctl =
    | Idle
    | Loaded(snap: Cr)
    | Executing(snap: Cr, obs: Obs, at: Time, ops: seq<Op>, did: Effect)

  /** Why the current run was started. */
  datatype Cause = First | Drift | Due(schedule: string)

  /** The start of a run, or the creation of its Job: when, why, the time its schedule is
      measured from, and how many LastRunTime values had been stored before. */
  datatype Start = Start(at: Time, cause: Cause, anchor: Time, recorded: nat)

  /** One victim deletion: what the reconcile had read, and what was committed at that moment. */
  datatype Deletion = Deletion(victim: Pod, at: Time, snap: Cr, pods: seq<Pod>, committed: Status)

  /** History variables. Nothing the controller decides reads them. */
  datatype History = History(
    edits: nat,
    epoch: nat,                // bumped at each reset
    driftResets: nat,
    dueResets: nat,
    cause: Cause,
    jobsCreated: nat,          // in this epoch
    lostStarts: nat,           // status writes lost after a Job creation, in this epoch
    jobDeletes: nat,
    deletions: seq<Deletion>,
    epochDeletions: nat,       // in this epoch
    lostDecisions: nat,        // status writes lost after a pod deletion, in this epoch
    verdicts: seq<RunSummary>, // every committed verdict, oldest first
    starts: seq<Start>,        // every committed LastRunTime, oldest first
    creations: seq<Start>)     // every Job created, oldest first

  datatype World = World(cr: Option<Cr>, job: Option<Job>, now: Time, ctl: Ctl, h: History)

  datatype Step =
    | Begin                       // the reconcile reads the CR
    | AddFinalizer
    | Observe(obs: Obs)           // it reads the Job and decides
    | Exec                        // its next API call reaches the server, or it takes the clock
    | Abort                       // error or crash: the reconcile ends here
    | EditSpec(spec: Spec)
    | UserDelete
    | JobFinishes(state: JobState)
    | JobMarked                   // someone else asks for the Job's deletion
    | JobGone                     // cleared after a delete, or removed by someone else
    | Tick(d: nat)

  // ----- the controller's steps

  function Lost(w: World): World {
    w.(ctl := Idle, h := w.h.(
      lostStarts := w.h.lostStarts + (if w.ctl.Executing? && w.ctl.did.JobWasCreated? then 1 else 0),
      lostDecisions := w.h.lostDecisions + (if w.ctl.Executing? && w.ctl.did.PodWasDeleted? then 1 else 0)))
  }

  function DoBegin(w: World): World {
    if w.ctl.Idle? && w.cr.Some? then w.(ctl := Loaded(w.cr.value)) else w
  }

  function DoAddFinalizer(w: World): World {
    if !w.ctl.Loaded? || w.ctl.snap.deleting || w.ctl.snap.finalizer then w
    else if w.cr.None? || w.cr.value.rv != w.ctl.snap.rv then w.(ctl := Idle)
    else
      var cr := w.cr.value.(finalizer := true, rv := w.cr.value.rv + 1);
      w.(cr := Some(cr), ctl := Loaded(cr))
  }

  function DoObserve(cron: Cron, w: World, obs: Obs): World {
    if w.ctl.Loaded? && (w.ctl.snap.deleting || w.ctl.snap.finalizer)
    then w.(ctl := Executing(w.ctl.snap, obs, w.now, Decide(cron, w.ctl.snap, w.job, w.now, obs), NoEffect))
    else w
  }

  function DoCreateJob(w: World): World
    requires w.ctl.Executing? && w.ctl.ops != []
  {
    if w.job.Some? then Lost(w)
    else w.(
      job := Some(Job(w.h.epoch, Active, false)),
      ctl := w.ctl.(ops := [StampStart], did := JobWasCreated),
      h := w.h.(
        jobsCreated := w.h.jobsCreated + 1,
        creations := w.h.creations + [Start(Stamp(w.now), w.h.cause, LastRunAnchor(w.ctl.snap), |w.h.starts|)]))
  }

  function DoStampStart(w: World): World
    requires w.ctl.Executing? && w.ctl.ops != []
  {
    w.(ctl := w.ctl.(ops := [WriteStatus(StartedStatus(w.ctl.snap, w.now))]))
  }

  function DoDeleteJob(w: World): World
    requires w.ctl.Executing? && w.ctl.ops != []
  {
    w.(job := if w.job.Some? then Some(w.job.value.(deleting := true)) else None,
       ctl := w.ctl.(ops := w.ctl.ops[1..]),
       h := w.h.(jobDeletes := w.h.jobDeletes + 1))
  }

  function DoDeletePod(w: World): World
    requires w.ctl.Executing? && w.ctl.ops != [] && w.ctl.ops[0].DeletePod?
  {
    var entry := Deletion(
      w.ctl.ops[0].victim, w.now, w.ctl.snap,
      if w.ctl.obs.pods.Some? then w.ctl.obs.pods.value else [],
      if w.cr.Some? then w.cr.value.status else EMPTY_STATUS);
    w.(ctl := w.ctl.(ops := w.ctl.ops[1..], did := PodWasDeleted),
       h := w.h.(deletions := w.h.deletions + [entry], epochDeletions := w.h.epochDeletions + 1))
  }

  predicate IsReset(before: Status, after: Status) {
    Terminal(before.phase) && after.phase.Pending?
  }

  predicate IsVerdict(before: Status, after: Status) {
    !Terminal(before.phase) && (after.phase.Succeeded? || after.phase.Failed?)
  }

  predicate IsStart(before: Status, after: Status) {
    !before.phase.Running? && after.phase.Running?
  }

  predicate Drifted(cr: Cr) {
    cr.generation != cr.status.observedGeneration
  }

  /** How the history variables follow a committed status write. */
  function Committed(h: History, snap: Cr, after: Status, at: Time): History {
    var h := if !IsReset(snap.status, after) then h else h.(
      epoch := h.epoch + 1,
      driftResets := h.driftResets + (if Drifted(snap) then 1 else 0),
      dueResets := h.dueResets + (if Drifted(snap) then 0 else 1),
      cause := if Drifted(snap) then Drift else Due(snap.spec.schedule),
      jobsCreated := 0, lostStarts := 0, epochDeletions := 0, lostDecisions := 0);
    var h := if !IsVerdict(snap.status, after) then h else h.(verdicts := h.verdicts + [Summary(after, at)]);
    if !IsStart(snap.status, after) || after.lastRun.None? then h
    else h.(starts := h.starts + [Start(after.lastRun.value, h.cause, LastRunAnchor(snap), |h.starts|)])
  }

  function DoWriteStatus(w: World): World
    requires w.ctl.Executing? && w.ctl.ops != [] && w.ctl.ops[0].WriteStatus?
  {
    if w.cr.None? || w.cr.value.rv != w.ctl.snap.rv then Lost(w)
    else
      var s := w.ctl.ops[0].status;
      var cr := w.cr.value.(status := s, rv := w.cr.value.rv + 1);
      w.(cr := Some(cr),
         ctl := w.ctl.(snap := cr, ops := w.ctl.ops[1..], did := NoEffect),
         h := Committed(w.h, w.ctl.snap, s, w.ctl.at))
  }

  function DoRemoveFinalizer(w: World): World
    requires w.ctl.Executing? && w.ctl.ops != []
  {
    if w.cr.None? || w.cr.value.rv != w.ctl.snap.rv then Lost(w)
    else if w.cr.value.deleting then w.(cr := None, ctl := Idle)
    else w.(cr := Some(w.cr.value.(finalizer := false, rv := w.cr.value.rv + 1)), ctl := Idle)
  }

  function DoExec(w: World): World {
    if !w.ctl.Executing? then w
    else if w.ctl.ops == [] then w.(ctl := Idle)
    else match w.ctl.ops[0]
      case CreateJob => DoCreateJob(w)
      case StampStart => DoStampStart(w)
      case DeleteJob => DoDeleteJob(w)
      case DeletePod(_) => DoDeletePod(w)
      case WriteStatus(_) => DoWriteStatus(w)
      case RemoveFinalizer => DoRemoveFinalizer(w)
  }

  // ----- everyone else's steps

  function DoEdit(w: World, spec: Spec): World {
    if w.cr.None? || w.cr.value.spec == spec then w
    else w.(
      cr := Some(w.cr.value.(spec := spec, generation := w.cr.value.generation + 1, rv := w.cr.value.rv + 1)),
      h := w.h.(edits := w.h.edits + 1))
  }

  function DoUserDelete(w: World): World {
    if w.cr.None? || w.cr.value.deleting then w
    else if !w.cr.value.finalizer then w.(cr := None)
    else w.(cr := Some(w.cr.value.(
      deleting := true, generation := w.cr.value.generation + 1, rv := w.cr.value.rv + 1)))
  }

  function DoJobFinishes(w: World, state: JobState): World {
    if w.job.Some? && w.job.value.state.Active? then w.(job := Some(w.job.value.(state := state))) else w
  }

  function Next(cron: Cron, w: World, step: Step): World {
    match step
    case Begin => DoBegin(w)
    case AddFinalizer => DoAddFinalizer(w)
    case Observe(obs) => DoObserve(cron, w, obs)
    case Exec => DoExec(w)
    case Abort => Lost(w)
    case EditSpec(spec) => DoEdit(w, spec)
    case UserDelete => DoUserDelete(w)
    case JobFinishes(state) => DoJobFinishes(w, state)
    case JobMarked => if w.job.Some? then w.(job := Some(w.job.value.(deleting := true))) else w
    case JobGone => w.(job := None)
    case Tick(d) => w.(now := w.now + d)
  }

  function Run(cron: Cron, w: World, steps: seq<Step>): World
    decreases |steps|
  {
    if steps == [] then w
    else Next(cron, Run(cron, w, steps[..|steps| - 1]), steps[|steps| - 1])
  }

  const NO_HISTORY: History := History(0, 0, 0, 0, First, 0, 0, 0, [], 0, 0, [], [], [])

  /** A ScaleValidation just created, which the controller has not seen yet. */
  predicate Init(w: World) {
    && w.cr.Some?
    && var cr := w.cr.value;
    && cr.generation == 1 && !cr.deleting && !cr.finalizer && cr.status == EMPTY_STATUS
    && cr.creation <= w.now
    && w.job.None? && w.ctl.Idle? && w.h == NO_HISTORY
  }
}

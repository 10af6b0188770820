# scale-sentry in Dafny

A model of [scale-sentry](https://github.com/ethan-kane-ops/scale-sentry), a Kubernetes operator
that validates how a workload scales under load, with proofs about the parts where it is easiest
to be wrong. `dafny verify dfyconfig.toml` checks everything.

**The run protocol** (`Api`, `Chaos`, `Decisions`, `Outcomes`, `Reconciler`, `World`, `Invariants`,
`Preservation`, `Ledgers`, `RunTheorems`, `Looks`, `Progress`, `LostStart`, `Witnesses`). One
ScaleValidation, its loadgen Job, the clock and the reconciler. `Decisions` computes what a reconcile
decides from what it has read: an ordered list of API calls. `Outcomes` says what those calls must be,
as a relation on the calls and the statuses they carry, and names none of the functions that compute
them; the two are proved to agree on every input. `Reconciler` is the same logic as the controller
writes it, a class whose methods rewrite their working copy of the status field by field, each proved
to keep the status coherent, to have the outcome asked for, and to agree with its decision function;
`Simulate` plays whole runs with it.
`World` takes a reconcile apart into steps (read the CR, add the finalizer, read the Job and decide,
one API call at a time, taking the clock for LastRunTime after the Job's creation) and lets
everything else happen between any two of them: spec edits, deletion by the user, Job completion,
failure and disappearance, clock ticks, and an error or crash that ends the reconcile. A status
write is refused when the resourceVersion has moved, as section "Concurrency Control and
Consistency" of the Kubernetes API Conventions says; a Job creation, Job deletion or pod deletion is
not. A run is any sequence of steps, so every theorem in `RunTheorems` covers every interleaving and
every pattern of lost writes. Counters and logs in `History` record what happened; no decision reads
them. `Looks` states what each look leads to in every reachable world, `Progress` that undisturbed
runs end and schedules go on.

**Correlation** (`Correlation`, `Endpoints`). The quadratic match of failures to endpoint events is
the specification, the two-cursor scan is proved to compute it; the EndpointSlice tracker is proved
to agree with the whole event log, and the events it emits to rebuild its ready set.

**Load shape** (`Phases`, `LoadProfile`, `SpikeMeaning`, `BuildPhases`, `Emitters`). A spike profile
is compiled into a flat list of phases; what the list denotes as a rate over time is proved to be
what the profile asks for. The emitters turn a phase into arrival times.

**Generator and watcher** (`Generator`, `Collector`, `HpaWatcher`). The bounded channels and worker
pool as interleaved steps; the collector's counters against the log of outcomes; the online HPA
watcher against first matches over the sample history.

Assumptions: reconciles of one CR are serial, the CR and the Job are read as they are, only the
controller creates the Job or writes status, nobody else removes the controller's finalizer, and it
is the only one on the CR, so that releasing it removes the CR. Times are nanoseconds; a time stored
in the status is cut to whole seconds (`Stamp`), as metav1.Time is. The cron library is a parameter:
`next(s, t)` is later than `t` and on a whole second (`Cron.Lawful`), which the spacing theorems ask
for and nothing else does. Pod lists, readiness checks, reports and random picks are inputs of the
step that observes them.

## Where the code and its comments differ

The model follows the code.

- A Job whose status write is lost keeps its run in Pending, so LastRunTime stays at the run before
  and the next due time is measured from there (`LostStart.JobSpacingNeedsCommittedStarts`). Spacing
  of the recorded LastRunTime values is unconditional; `RunTheorems.JobSpacing` says for each pair of
  Jobs what the later one is measured from.
- Suspend is said to outrank everything else on a terminal CR; a reconcile that read the CR before
  suspend was stored may still delete the finished Job, once (`RunTheorems.SuspendDominates`,
  `RunTheorems.DeletionPossibleIffOwed`, `Witnesses.SuspendDoesNotRecallDeletion`).
- A run is said to fail when its target is not ready within the wait window; the window is measured
  from the creation of the CR, so a run that begins later has none left (`RunTheorems.ReadinessWaitIsFromCreation`,
  `Witnesses.LaterRunGetsNoWait`).
- Suspend is said to stop future runs; it is looked at only in a terminal phase, so a ScaleValidation
  created suspended still has its first run (`RunTheorems.SuspendLeavesRunAlone`,
  `Witnesses.CreatedSuspendedRuns`).
- `decomposeSpike` adds two int64 durations before comparing, and a sum that wraps is accepted. The
  phases then outlast the window, and spikes behind the first wrapped one are not heard; the rate is
  wrong exactly where one of those asks for something else (`SpikeMeaning.CompiledMeaning`), which
  may be somewhere (`SpikeMeaning.OverflowIsAccepted`) or nowhere (`SpikeMeaning.OverflowMayBeHarmless`).
- `peakRPS` is described as the highest rate reached; for Step it is one step too high exactly when
  StepEvery divides Duration (`Emitters.HighestIsHeld`, `Emitters.PeakIsMissed`).
- `failureRateBasisPoints` is said not to read a real failure rate as zero; it does below half a
  basis point (`Decisions.FailureRateBasisPoints`).
- A reported SLA breach can be withdrawn when two samples carry the same time
  (`HpaWatcher.BreachWithdrawn`, `HpaWatcher.BreachIsTakenBack`).
- A phase is said to end once its in-flight requests drain; its context ends with it, so a request
  still in flight then is sent and not recorded (`Generator.InFlightIsDiscarded`), unless its worker
  had already looked at the context (`Generator.RecordsAfterDone`, `Generator.RecordedAfterDone`).

## Model

| member | source | states |
|---|---|---|
| `RunTheorems.NoRunOverlap` | internal/controller/scalevalidation_controller.go:180-242 | on every run a Job that exists belongs to the current run; a reset happens only with no Job before and after; a run creates at most one Job plus one per lost start |
| `RunTheorems.NoSecondJob` | internal/controller/scalevalidation_controller.go:501-542 | once Running is stored, no further Job is created before the next reset, whatever happens in between |
| `RunTheorems.CleanTeardown` | internal/controller/scalevalidation_controller.go:550-593 | the CR disappears only with its Job gone and no Job appears afterwards, also when the delete lands inside a reconcile; Terminating is shown only while the CR is being deleted |
| `RunTheorems.TeardownProgress` | internal/controller/scalevalidation_controller.go:550-593 | from any state of a CR being deleted one uninterrupted reconcile releases it, or leaves its Job marked for deletion |
| `RunTheorems.ChaosOncePerDecision` | internal/controller/disruption.go:41-91 | per run at most one victim plus one per lost decision write; each a healthy pod, deleted in Running, not before LastRunTime + triggerDelay, out of at least max(1, minReplicasForChaos) healthy pods |
| `RunTheorems.NoDeletionAfterDecision` | internal/controller/disruption.go:46-48 | once a decision is stored nothing more is deleted until a reset |
| `RunTheorems.NoSelfRestart` | internal/controller/schedule.go:58-107 | restarts through drift never exceed spec edits on any run, and are the only ones without a schedule; observedGeneration is never ahead of generation and never zero in a terminal phase |
| `RunTheorems.ObservedGenerationNeverDrops` | internal/controller/conditions.go:61-70 | no step lowers observedGeneration or generation |
| `RunTheorems.StatusIsCoherent` | internal/controller/conditions.go:61-89 | in every stored status Finished is True exactly in a terminal phase and occurs at most once, Pending and Running show nothing of an earlier run, and phase and verdicts agree |
| `RunTheorems.HistoryRefinesLog` | internal/controller/scalevalidation_controller.go:424-436 | status.history is the newest ten of all verdicts ever stored, newest first, on every run |
| `RunTheorems.ScheduledSpacing` | internal/controller/schedule.go:95-106 | a run the schedule started has LastRunTime >= next(previous LastRunTime), or next(creation) when there is none, with lost writes, failed runs and edits |
| `RunTheorems.SpacingWithoutEdits` | internal/controller/schedule.go:43-52 | without spec edits all successive LastRunTime values are a whole schedule step apart |
| `RunTheorems.DueJobIsDue` | internal/controller/schedule.go:95-106 | on every run, whatever was lost, a due Job is created no earlier than next(the anchor stored at that moment) |
| `RunTheorems.JobSpacing` | internal/controller/scalevalidation_controller.go:532-541 | for every pair of successive Jobs on every run: the later one is due by its anchor, and that anchor is the LastRunTime stored for the earlier one, taken once its creation has returned and so no earlier than the Job, or, when that was lost, the earlier Job's own anchor |
| `LostStart.JobSpacingNeedsCommittedStarts` | internal/controller/scalevalidation_controller.go:532-541 | a concrete run with one lost start in which the next scheduled Job comes too early |
| `RunTheorems.SuspendDominates` | internal/controller/schedule.go:72-77 | while suspend stays set no sequence of steps leaves the terminal phase, changes the result or history, starts a run or creates a Job; the finished Job's deletion is asked for at most once more, and only when owed |
| `RunTheorems.DeletionPossibleIffOwed` | internal/controller/schedule.go:95-128 | that deletion is possible if and only if a reconcile that read the CR before suspend has decided on it, or will find the Job and drift or a schedule |
| `Witnesses.SuspendDoesNotRecallDeletion` | internal/controller/schedule.go:118-128 | a concrete run in which the Job is deleted after suspend was stored |
| `RunTheorems.ParkingIsIdempotent` | internal/controller/schedule.go:192-209 | a parked CR is reconciled without any API call; the edit that clears suspend always leaves drift and so restarts |
| `RunTheorems.SuspendLeavesRunAlone` | api/v1beta1/scalevalidation_types.go:259-267 | outside a terminal phase every decision is the same with and without suspend, so a run in flight is left alone, and so is the first one |
| `Witnesses.CreatedSuspendedRuns` | internal/controller/scalevalidation_controller.go:185-223 | a concrete run of a CR created suspended and never edited that is Running with its Job |
| `RunTheorems.ReadinessWaitIsFromCreation` | internal/controller/scalevalidation_controller.go:211-222 | in any run, a look that finds the target unready fails the run exactly when the CR is older than the timeout |
| `Witnesses.LaterRunGetsNoWait` | internal/controller/scalevalidation_controller.go:216-218 | a concrete second run that is reset and, at the same instant, failed for an unready target |
| `RunTheorems.OneShotIsFinal` | internal/controller/schedule.go:83-93 | a finished one-shot validation stays exactly as it is, with no API call, until it is edited or deleted |
| `Looks.LookAtRun` | internal/controller/scalevalidation_controller.go:194-242 | in every reachable world, of the calls made: a failed Job ends the run in Error with LoadgenJobFailed whatever the report says, a vanished one with LoadgenJobVanished, history kept; a complete one with a report stores Succeeded or Failed with every field of the report and its history entry; the Job is created exactly when the run is Pending without one, the target ready and nothing wrong with it |
| `Looks.LookAtPods` | internal/controller/disruption.go:41-91 | in every reachable world a pod is deleted if and only if the Job is active, the run Running, injection asked for and undecided, LastRunTime + triggerDelay past, the pods listed and at least max(1, minReplicasForChaos) healthy; the decision True/PodDeleted is stored behind it; False/Skipped is stored if and only if the count alone falls short |
| `Looks.LookAtResult` | internal/controller/schedule.go:58-138 | in every reachable world a finished run is reset if and only if a new one is called for (drift or due, not suspended, a schedule that parses) and no Job is there; the old Job is deleted if and only if it is in the way; otherwise the published next time is the schedule's after the last start, and none while suspended |
| `Progress.UndisturbedRun` | internal/controller/scalevalidation_controller.go:194-302 | from any Pending run without a Job two whole reconciles around the Job's end store what the report says, with this run's LastRunTime and its entry ahead of the older ones, or an Error when the Job failed |
| `Progress.NextRunBegins` | internal/controller/schedule.go:95-168 | from any finished scheduled run: the time comes, one reconcile deletes the Job, the next stores a Pending that keeps only LastRunTime, history and observedGeneration |
| `Progress.ScheduleGoesOn` | internal/controller/schedule.go:54-138 | for every n there is a run without edits that stores n more verdicts and is Pending again |
| `Outcomes.DecisionOutcome` | internal/controller/scalevalidation_controller.go:159-242 | for every CR, Job, clock and answer of the cluster the decided calls are the ones asked for, branch by branch and field by field |
| `Outcomes.TerminalOutcome` | internal/controller/schedule.go:58-107 | the same for a finished run: adopt, park, fail a bad schedule, renew, publish or rest |
| `Outcomes.DisruptionOutcome` | internal/controller/disruption.go:41-91 | the same for the disruption: nothing before its time, one deletion and one record, or one skip |
| `Outcomes.FinishOutcome` | internal/controller/scalevalidation_controller.go:247-302 | the same for a complete Job: every field of the report, or ObserverReportUnreadable, or no call |
| `Outcomes.SpawnOutcome` | internal/controller/scalevalidation_controller.go:501-534 | the same for a ready target: a Job, or the error that stands in its way |
| `Preservation.RunKeepsInv` | internal/controller/scalevalidation_controller.go:159-242 | the invariant behind the theorems holds along every run |
| `Preservation.StepKeepsInv` | internal/controller/scalevalidation_controller.go:159-242 | every step of the controller or of anyone else keeps it |
| `Ledgers.RunKeepsLedgers` | internal/controller/scalevalidation_controller.go:288-296 | stored history, chaos, starts and generations stay tied to the logs along every run |
| `Ledgers.RunKeepsSpacing` | internal/controller/schedule.go:47-106 | every start and every Job the schedule caused is due by the anchor it was measured from, the creation of the CR included, along every run |
| `Ledgers.PushIsNewest` | internal/controller/scalevalidation_controller.go:432-435 | prepending and trimming is the newest-ten view of the longer log |
| `Invariants.DecisionJustified` | internal/controller/scalevalidation_controller.go:180-242 | every API call a reconcile decides on is justified by what it read |
| `Invariants.ErrorJustified` | internal/controller/conditions.go:75-78 | every way a run ends without a verdict stores a coherent status |
| `Invariants.VerdictJustified` | internal/controller/scalevalidation_controller.go:288-293 | a verdict is stored with its phase, condition, generation and history entry together |
| `Invariants.ResetJustified` | internal/controller/schedule.go:144-168 | a reset leaves no trace of the old run and needs drift or a due time |
| `Invariants.StartJustified` | internal/controller/scalevalidation_controller.go:539-541 | Running is entered from Pending, with a LastRunTime not in the future |
| `Invariants.DisruptionJustified` | internal/controller/disruption.go:114-126 | recording the decision changes nothing else a reader sees |
| `Reconciler.ScaleValidation.Reconcile` | internal/controller/scalevalidation_controller.go:159-242 | the step-by-step reconcile has the outcome asked for on every input: which calls, in which order, with which status, in each branch; it makes the calls the decision function lists, and each is justified in any world the snapshot fits |
| `Reconciler.Play` | internal/controller/scalevalidation_controller.go:159-242 | one protocol step played with the reconciler itself is the protocol's step and keeps its invariant |
| `Reconciler.Simulate` | internal/controller/scalevalidation_controller.go:159-242 | whole runs played with the reconciler, interrupted anywhere, are the protocol's runs |
| `Reconciler.ScaleValidation.ReconcileTerminal` | internal/controller/schedule.go:58-107 | a finished run is adopted, parked, failed for a bad schedule, renewed, told its next time or left alone, each with the status this calls for |
| `Reconciler.ScaleValidation.RestartForSpecChange` | internal/controller/schedule.go:222-237 | a bad schedule fails the CR, otherwise the next run starts |
| `Reconciler.ScaleValidation.StartNextRun` | internal/controller/schedule.go:113-138 | a Job is deleted and nothing else done, one being deleted is waited for, without one the run is reset and only LastRunTime, history and observedGeneration kept |
| `Reconciler.ScaleValidation.ResetForNextRun` | internal/controller/schedule.go:144-168 | nothing of the old run shows, the chaos decision is gone, Finished is not True, history, LastRunTime and observedGeneration are kept |
| `Reconciler.ScaleValidation.ParkSuspended` | internal/controller/schedule.go:192-209 | the parked status, written only when it differs |
| `Reconciler.ScaleValidation.MaybeInjectDisruption` | internal/controller/disruption.go:41-91 | a pod is deleted if and only if it is time to decide and enough pods are healthy, and is a healthy one of those listed; True/PodDeleted is recorded behind it; with too few healthy False/Skipped is recorded; before its time there is no call |
| `Reconciler.ScaleValidation.RecordDisruption` | internal/controller/disruption.go:114-126 | the decision is recorded once; Finished and everything outside the conditions stay as they were |
| `Reconciler.ScaleValidation.FinishRun` | internal/controller/scalevalidation_controller.go:247-302 | a parsed report is stored in one write: verdicts, totals, failure rate, diagnostics, scale-up duration, phase, Finished and history entry, and they agree; a missing or unreadable report ends the run in Error; a failed listing or a running observer makes no call |
| `Reconciler.ScaleValidation.AppendRunHistory` | internal/controller/scalevalidation_controller.go:424-436 | the finished run comes first, the rest is a prefix of the old history, all of it while there is room, never more than ten |
| `Reconciler.ScaleValidation.SpawnJob` | internal/controller/scalevalidation_controller.go:501-534 | the Job is created exactly when nothing stands in the way; otherwise the run ends in Error with the reason and finding that belong to it, keeping LastRunTime and history, or nothing is written |
| `Reconciler.ScaleValidation.RecordStart` | internal/controller/scalevalidation_controller.go:539-541 | Running with a LastRunTime less than a second old, in one write that leaves conditions and results alone |
| `Reconciler.ScaleValidation.Finalize` | internal/controller/scalevalidation_controller.go:550-593 | the finalizer is released exactly when there is no Job; a Job not yet being deleted is deleted, and Terminating shown |
| `Reconciler.ScaleValidation.MarkFinished` | internal/controller/conditions.go:61-70 | Finished is True, still at most once, at the current generation; the chaos decision is untouched |
| `Reconciler.ScaleValidation.SetTerminalPhase` | internal/controller/conditions.go:75-78 | phase and Finished agree in the one status written, which keeps LastRunTime and history |
| `Decisions.FailureRateBasisPoints` | internal/controller/scalevalidation_controller.go:408-417 | the rate in basis points rounded half up, within half a point; zero exactly below half a point, clamped exactly from half a point below the int32 maximum |
| `Api.SetCondition` | internal/controller/conditions.go:63-69 | one condition per type: the new one replaces the old, the others stay |
| `Api.RemoveCondition` | internal/controller/schedule.go:157 | no condition of that type is left, the others stay |
| `Chaos.SelectHealthy` | internal/chaos/chaos.go:44-59 | exactly the running, undeleted pods whose first Ready condition is true, in order |
| `Chaos.Plan` | internal/chaos/chaos.go:75-103 | a victim is named exactly when enough healthy pods exist, and is the picked one of them, or the first when the pick is out of range |
| `Correlation.Scan` | internal/analyzer/leakage/leakage.go:136-147 | the two-cursor scan gives every error to the first event whose window holds it, counts the rest clean, in at most events + errors moves |
| `Correlation.CursorIsFirstMatch` | internal/analyzer/drain/drain.go:112-123 | with a lookback too, the cursor is the naive match for events in time order, ties and overlaps included |
| `Correlation.Correlate` | internal/analyzer/drain/drain.go:76-128 | counts, spread and breakdown in terms of the unsorted inputs, for any sort that breaks ties anyhow |
| `Correlation.CorrelateLeakage` | internal/analyzer/leakage/leakage.go:93-152 | the same for Ready events and [t, t+W), with the default window |
| `Correlation.CorrelateDrain` | internal/analyzer/drain/drain.go:76-128 | the same for Removed events and [t-lookback, t+W), with the default window |
| `Correlation.Conservation` | internal/analyzer/drain/drain.go:112-123 | per-event lists plus clean errors are the input multiset |
| `Correlation.HitsIgnoreOrder` | internal/analyzer/leakage/leakage.go:87-90 | the count does not depend on the order of either input |
| `Correlation.ReportsIgnoreOrder` | internal/analyzer/leakage/leakage.go:87-90 | reports on reordered inputs agree in all counts |
| `Correlation.ReportConserves` | internal/analyzer/leakage/leakage.go:145-149 | the breakdown lists each covered error as often as it occurred and no other |
| `Correlation.TotalWindow` | internal/analyzer/leakage/leakage.go:154-159 | the largest distance between two errors |
| `Endpoints.Tracker.Apply` | internal/observer/endpoints.go:32-68 | keeps the index in agreement with the log, and emits exactly the changes of the ready set |
| `Endpoints.ReadSlice` | internal/observer/endpoints.go:36-43 | an address is ready when some endpoint listing it is |
| `Endpoints.Union` | internal/observer/endpoints.go:46-53 | an IP is ready when some slice has it ready, in any map order |
| `Endpoints.Diff` | internal/observer/endpoints.go:55-65 | one Ready or Removed event per IP that changed and none for the others, in any order |
| `Endpoints.TellsMore` | internal/observer/endpoints.go:55-67 | every IP's events keep alternating Ready, Removed, starting with Ready, over the whole log |
| `Endpoints.ReplayRebuilds` | internal/observer/endpoints.go:55-67 | replaying all emitted events from nothing gives the ready set |
| `Endpoints.UnionIsReady` | internal/observer/endpoints.go:46-53 | the index's union is readiness in the latest version of some undeleted slice |
| `LoadProfile.AcceptsIff` | internal/controller/loadprofile.go:127-136 | a list is accepted exactly when every spike is above the base rate, ends in the window and does not begin before the one before it ends, in int64 arithmetic |
| `LoadProfile.DecomposeSpike` | internal/controller/loadprofile.go:121-165 | accepts exactly the lists that are in order, otherwise blames the first offending spike for the first thing wrong with it, and emits the slices |
| `SpikeMeaning.CompiledMeaning` | internal/controller/loadprofile.go:121-165 | for an accepted list of positive durations the phases fill the window if and only if no spike's end wraps, and have the asked rate at every instant if and only if no spike behind the first wrapped one asks for anything else |
| `SpikeMeaning.CompiledValid` | internal/loadgen/phase.go:69-99 | with a positive base rate every phase passes Validate if and only if every spike lasts a positive time |
| `SpikeMeaning.RateIsAsked` | internal/controller/loadprofile.go:121-165 | the rate at an instant is what the spikes up to the first wrapped one ask for |
| `SpikeMeaning.OverflowIsAccepted` | internal/controller/loadprofile.go:131-133 | a wrapped list that is accepted and does not mean what it says |
| `SpikeMeaning.OverflowMayBeHarmless` | internal/controller/loadprofile.go:131-133 | a wrapped list that is accepted and has the asked rate throughout, with a wrong total only |
| `BuildPhases.BuildPhases` | internal/controller/loadprofile.go:24-115 | when it falls back, when it refuses and with which error; otherwise the warmup at the base rate, then one phase at the base rate (Constant, Poisson), one whose rate goes from base to endRps (Ramp), one whose plateau s begins at s * stepDuration and runs at base + s * stepRps (Step), or the spike slices; with a positive base rate all phases validate if and only if the numbers of the pattern are positive |
| `BuildPhases.BuiltAsAsked` | internal/controller/loadprofile.go:44-115 | the same of the specification, pattern by pattern, on the list itself |
| `BuildPhases.BuiltDuration` | internal/controller/loadprofile.go:44-115 | exactly when the phases add up to the SLA, pattern by pattern |
| `BuildPhases.BuiltSpikes` | internal/controller/loadprofile.go:102-110 | base rate through the warmup, then up to the SLA the asked rate exactly where every spike is heard |
| `BuildPhases.OnlyWarmupUnrecorded` | internal/controller/loadprofile.go:48-56 | all and only the warmup is left out of the statistics |
| `Emitters.EmitConstant` | internal/loadgen/schedule.go:60-68 | arrival k is at start + k s / rps, never later and at most k ns earlier; at least rps arrivals in every whole second up to the end; a prefix when cancelled |
| `Emitters.GridKeepsRate` | internal/loadgen/schedule.go:60-68 | for every rate up to one per nanosecond each arrival is on time and every whole second is full |
| `Emitters.GridPoint` | internal/loadgen/schedule.go:60-68 | the k-th arrival is start + k * interval |
| `Emitters.GridReachesEnd` | internal/loadgen/schedule.go:60-68 | no arrival before the end is missing |
| `Emitters.EmitStep` | internal/loadgen/schedule.go:117-136 | every plateau s that begins before the end is held: from start + s * StepEvery on, arrivals on time at StartRPS + s * StepRPS, with every whole second of it full; a prefix when cancelled |
| `Emitters.StepHolds` | internal/loadgen/schedule.go:117-136 | each plateau is a part of the whole schedule that holds its rate until it is over |
| `Emitters.ExtraStepsAreEmpty` | internal/loadgen/schedule.go:118 | any step count that reaches the end gives the same arrivals |
| `Emitters.PlateauBelowPeak` | internal/loadgen/phase.go:111-114 | no plateau that starts before the end exceeds peakRPS |
| `Emitters.HighestIsHeld` | internal/loadgen/phase.go:101-114 | the highest rate held is peakRPS, or one step less when StepEvery divides Duration: some plateau runs at it and none above |
| `Emitters.PeakIsReached` | internal/loadgen/phase.go:101-114 | peakRPS is a rate actually held if and only if StepEvery does not divide Duration |
| `Emitters.PeakIsMissed` | internal/loadgen/phase.go:101-114 | a phase sized for 20 rps that never exceeds 15 |
| `Emitters.EmitRamp` | internal/loadgen/schedule.go:88-112 | the first request at once, then each a second by the rate at the one before it, that rate being StartRPS and EndRPS weighted by the time left and gone; the last is the one whose successor would come after the end |
| `Emitters.RateIsAffine` | internal/loadgen/schedule.go:98-103 | the rate is StartRPS at the start, EndRPS at the end, and equal times bring equal changes |
| `Emitters.RateBetween` | internal/loadgen/phase.go:106-110 | a ramp's rate stays between one per second and peakRPS |
| `Emitters.RampGaps` | internal/loadgen/schedule.go:88-112 | every gap is the one its rate calls for, and the last one reaches the end |
| `Emitters.RampGapsMonotone` | internal/loadgen/schedule.go:98-110 | a rising ramp never lengthens a gap, a falling one never shortens one |
| `Emitters.RunSchedule` | internal/loadgen/schedule.go:31-57 | the arrivals the pattern asks for, at their rates, or a prefix of exactly as many as were taken before the cancellation; it ends |
| `Emitters.ScheduleArrives` | internal/loadgen/schedule.go:26-30 | arrivals are strictly increasing and inside [start, start+duration) |
| `Generator.EverySlotOnce` | internal/loadgen/generator.go:80-114 | at any moment every emitted slot is in exactly one of buffered, in flight, recorded, discarded |
| `Generator.RecordsAreHonest` | internal/loadgen/generator.go:122-159 | buffers and pool stay in bounds; a record belongs to a counted phase, its own, and its latency is queueing plus response time, never negative |
| `Generator.NoLateRecords` | internal/loadgen/generator.go:90-96 | once a later phase has begun nothing of an earlier one is recorded, and nothing ever whose response came after its context was done |
| `Generator.RecordsAfterDone` | internal/loadgen/generator.go:143-158 | after a phase's context is done only workers that had already found it live still record, each at most once |
| `Generator.OldestFirst` | internal/loadgen/generator.go:102-112 | on every run buffered slots are in the order they were emitted and behind every slot a worker has |
| `Generator.OneRequest` | internal/loadgen/generator.go:122-158 | in every state that keeps the invariant, in a counted phase with a live context, a waiting worker sends the oldest slot at its time, or at once when late, and records the time from the slot to the response as its latency |
| `Generator.NothingIsMissed` | internal/loadgen/generator.go:80-114 | a counted phase that its workers leave with a live context has recorded every request it emitted, and its emitter is done |
| `Generator.InFlightIsDiscarded` | internal/loadgen/generator.go:143-146 | a concrete request in flight at the end of its phase that is answered and not counted |
| `Generator.RecordedAfterDone` | internal/loadgen/generator.go:143-158 | a concrete request recorded after the context is done, having passed the check before |
| `Generator.RunKeepsInv` | internal/loadgen/generator.go:63-159 | buffers, phases and times stay consistent along every run |
| `Generator.RunConserves` | internal/loadgen/generator.go:98-159 | no step loses or duplicates a slot |
| `Collector.Collector.RecordStatus` | internal/loadgen/generator.go:225-243 | all counters, the histogram input and the capped samples stay those of the log of outcomes; a code from 400 on counts as one failure, Client4xx or from 500 on Server5xx |
| `Collector.Collector.RecordError` | internal/loadgen/generator.go:245-253 | the same for transport failures |
| `Collector.Collector.RecordLatency` | internal/loadgen/generator.go:260-269 | the value is recorded as it is inside the histogram range, and as the end it lies beyond outside |
| `Collector.CategoriesPartition` | internal/loadgen/generator.go:231-242 | the category counts add up to the failures |
| `Collector.CountsIgnoreOrder` | internal/loadgen/generator.go:161-188 | counters do not depend on the order in which workers record |
| `HpaWatcher.Watcher.Record` | internal/analyzer/hpa/hpa.go:58-73 | reactAt, settleAt and the peak stay the first matches and the maximum over all samples; the reactAt guard on settling makes no difference |
| `HpaWatcher.Watcher.Summarize` | internal/analyzer/hpa/hpa.go:101-138 | the report is that of the whole history: reacted and settled if and only if some sample qualifies, breached if and only if settled after the SLA or unsettled at its end |
| `HpaWatcher.FirstAtIsFirst` | internal/analyzer/hpa/hpa.go:54-57 | the recorded time is that of the first qualifying sample |
| `HpaWatcher.ReactionBeforeSettle` | internal/analyzer/hpa/hpa.go:81-88 | settling implies an earlier or simultaneous reaction |
| `HpaWatcher.BreachIsFinal` | internal/analyzer/hpa/hpa.go:123-136 | with strictly increasing times a reported breach is never withdrawn |
| `HpaWatcher.BreachWithdrawn` | internal/analyzer/hpa/hpa.go:123-136 | with repeated times any further samples withdraw it exactly when the first of them that settles does so at exactly the SLA |
| `HpaWatcher.BreachIsTakenBack` | internal/analyzer/hpa/hpa.go:123-136 | two samples of one instant, the second of which withdraws the breach |

## Left out

- Kubernetes clients, caches and watch streams, Events, metrics, messages and log texts, TLS, HTTP and gRPC clients, commands: I/O or texts nothing decides on.
- Cron parsing and the HDR histogram: library code; the first is a parameter, of the second only the recorded values are modelled.
- A schedule for which the cron library finds no next time: it is assumed lawful where spacing is stated.
- EndpointSlice watches that are re-established: slices deleted in between are the watch's matter, not the tracker's.
- Poisson arrivals: gaps are random and may be zero, so neither an end nor strictly increasing times can be promised.
- Emitters.Scheduled: rates above one per nanosecond are excluded, since Constant and Step then have a zero interval and do not end by themselves.
- Emitters.EmitRamp: the rate is exact rational arithmetic, so float64 rounding of the interpolation is not modelled; nor is it for the constant and step intervals, where truncation gives the same whole number of nanoseconds.
- Emitters.EmitStep: the step count is the exact quotient rounded up; ExtraStepsAreEmpty shows that a rounding of the quotient does not matter while the count reaches the end.
- Observed generations: that a result's observedGeneration is the one its Job started from is not claimed, since an edit during the run is absorbed when it ends.
- Which pod the observer report is read from: the lookup is by label, so the report is an input.
- The report, dns, probe, probelag, cgroup and pdb analyzers, URL building, target resolution and the Deployment shadow controller: thin logic that would only add easy members.
- Diagnostics of the analyzers: thresholds on counts that are proved above.

/** internal/loadgen/generator.go: the emitters, the bounded channel of each phase and the
    worker pool, as steps that may interleave in any order. As in the run protocol, a step
    that is not enabled changes nothing, so a run is any sequence of steps. */
module Generator {
  import opened Basics

  const SCHEDULE_BUFFER: nat := 64

  /** One open-loop request slot: when it should be sent, and in which phase it was scheduled. */
  datatype Slot = Slot(id: nat, phase: nat, time: Time)

  /** A worker has its slot, waits for the slot's time, sends, has the response, has found its
      context still live and is about to record. `inTime` is a history variable: the context was
      live when the response came. */
  datatype Worker =
    | Waiting
    | Holding(slot: Slot)
    | Sleeping(slot: Slot)
    | Sending(slot: Slot, dispatched: Time)
    | Answered(slot: Slot, dispatched: Time, completed: Time, inTime: bool)
    | Passed(slot: Slot, dispatched: Time, completed: Time, inTime: bool)
    | Exited

  /** One recorded request; `during` is the phase that was running when it was recorded. */
  datatype Record = Record(slot: Slot, dispatched: Time, completed: Time, latency: Duration, inTime: bool, during: nat)

  /** `recordStats` gives each configured phase's flag. */
  datatype Config = Config(recordStats: seq<bool>, concurrency: nat)

  datatype State = State(
    now: Time,
    phase: nat,
    channels: seq<seq<Slot>>,   // one per phase begun so far; earlier ones are abandoned
    closed: seq<bool>,          // whether that phase's emitter has returned
    cancelled: bool,            // the phase's context is done
    stopped: bool,              // the run's context is done
    workers: seq<Worker>,
    emitted: seq<Slot>,
    recorded: seq<Record>,
    discarded: seq<Slot>)

  datatype Step =
    | Emit(p: nat, time: Time)  // also an emitter that outlives its phase
    | Close(p: nat)
    | Pull(i: nat)
    | Sleep(i: nat)             // early: wait for the slot's time
    | Dispatch(i: nat)
    | DropEarly(i: nat)         // cancelled while waiting for the slot's time
    | Respond(i: nat)           // the response is there and its time is taken
    | Check(i: nat)             // the worker looks at its context and its phase
    | Write(i: nat)             // it takes the collector's lock and records
    | Exit(i: nat)
    | Cancel
    | StopRun
    | NextPhase
    | Tick(d: nat)

  function DoEmit(st: State, p: nat, time: Time): State {
    if p < |st.channels| && p < |st.closed| && !st.closed[p] && |st.channels[p]| < SCHEDULE_BUFFER then
      var slot := Slot(|st.emitted|, p, time);
      st.(channels := st.channels[p := st.channels[p] + [slot]], emitted := st.emitted + [slot])
    else st
  }

  function DoPull(st: State, i: nat): State {
    if i < |st.workers| && st.workers[i].Waiting? && st.phase < |st.channels| && st.channels[st.phase] != [] then
      var slot := st.channels[st.phase][0];
      st.(channels := st.channels[st.phase := st.channels[st.phase][1..]], workers := st.workers[i := Holding(slot)])
    else st
  }

  function DoSleep(st: State, i: nat): State {
    if i < |st.workers| && st.workers[i].Holding? && st.now < st.workers[i].slot.time
    then st.(workers := st.workers[i := Sleeping(st.workers[i].slot)])
    else st
  }

  function DoDispatch(st: State, i: nat): State {
    if i < |st.workers| && (st.workers[i].Holding? || st.workers[i].Sleeping?) && st.workers[i].slot.time <= st.now
    then st.(workers := st.workers[i := Sending(st.workers[i].slot, st.now)])
    else st
  }

  /** The select may take the done context even when the timer has fired as well. */
  function DoDropEarly(st: State, i: nat): State {
    if i < |st.workers| && st.workers[i].Sleeping? && st.cancelled
    then st.(workers := st.workers[i := Waiting], discarded := st.discarded + [st.workers[i].slot])
    else st
  }

  function DoRespond(st: State, i: nat): State {
    if i < |st.workers| && st.workers[i].Sending? then
      var w := st.workers[i];
      st.(workers := st.workers[i := Answered(w.slot, w.dispatched, st.now, !st.cancelled)])
    else st
  }

  /** Sent, but not counted: the context is done, or the phase is a warmup. */
  function DoDiscard(st: State, i: nat): State
    requires i < |st.workers| && st.workers[i].Answered?
  {
    st.(workers := st.workers[i := Waiting], discarded := st.discarded + [st.workers[i].slot])
  }

  function DoPass(st: State, i: nat): State
    requires i < |st.workers| && st.workers[i].Answered?
  {
    var w := st.workers[i];
    st.(workers := st.workers[i := Passed(w.slot, w.dispatched, w.completed, w.inTime)])
  }

  function DoCheck(cfg: Config, st: State, i: nat): State {
    if i >= |st.workers| || !st.workers[i].Answered? then st
    else if st.cancelled || st.phase >= |cfg.recordStats| || !cfg.recordStats[st.phase] then DoDiscard(st, i)
    else DoPass(st, i)
  }

  /** Nothing looks at the context between the check and the record. */
  function DoWrite(st: State, i: nat): State {
    if i < |st.workers| && st.workers[i].Passed? then
      var w := st.workers[i];
      var latency := if w.completed - w.slot.time < 0 then 0 else w.completed - w.slot.time;
      st.(workers := st.workers[i := Waiting],
          recorded := st.recorded + [Record(w.slot, w.dispatched, w.completed, latency, w.inTime, st.phase)])
    else st
  }

  function DoExit(st: State, i: nat): State {
    if i < |st.workers| && st.workers[i].Waiting? && st.phase < |st.channels| && st.phase < |st.closed|
       && (st.cancelled || (st.closed[st.phase] && st.channels[st.phase] == []))
    then st.(workers := st.workers[i := Exited])
    else st
  }

  function Pool(concurrency: nat): seq<Worker> {
    seq(concurrency, _ => Waiting)
  }

  /** wg.Wait has returned, so the next phase may begin. */
  function DoNextPhase(cfg: Config, st: State): State {
    if (forall w :: w in st.workers ==> w.Exited?) && !st.stopped && st.phase + 1 < |cfg.recordStats|
    then st.(phase := st.phase + 1, channels := st.channels + [[]], closed := st.closed + [false],
             cancelled := false, workers := Pool(cfg.concurrency))
    else st
  }

  function Next(cfg: Config, st: State, step: Step): State {
    match step
    case Emit(p, time) => DoEmit(st, p, time)
    case Close(p) => if p < |st.closed| then st.(closed := st.closed[p := true]) else st
    case Pull(i) => DoPull(st, i)
    case Sleep(i) => DoSleep(st, i)
    case Dispatch(i) => DoDispatch(st, i)
    case DropEarly(i) => DoDropEarly(st, i)
    case Respond(i) => DoRespond(st, i)
    case Check(i) => DoCheck(cfg, st, i)
    case Write(i) => DoWrite(st, i)
    case Exit(i) => DoExit(st, i)
    case Cancel => st.(cancelled := true)
    case StopRun => st.(cancelled := true, stopped := true)
    case NextPhase => DoNextPhase(cfg, st)
    case Tick(d) => st.(now := st.now + d)
  }

  function Run(cfg: Config, st: State, steps: seq<Step>): State
    decreases |steps|
  {
    if steps == [] then st
    else Next(cfg, Run(cfg, st, steps[..|steps| - 1]), steps[|steps| - 1])
  }

  predicate Init(cfg: Config, st: State) {
    && 0 < |cfg.recordStats|
    && st == State(st.now, 0, [[]], [false], false, false, Pool(cfg.concurrency), [], [], [])
  }

  // ----- where the slots are

  function Held(w: Worker): seq<Slot> {
    if w.Waiting? || w.Exited? then [] else [w.slot]
  }

  function HeldBy(workers: seq<Worker>): seq<seq<Slot>> {
    seq(|workers|, i requires 0 <= i < |workers| => Held(workers[i]))
  }

  function Slots(recorded: seq<Record>): seq<Slot> {
    seq(|recorded|, i requires 0 <= i < |recorded| => recorded[i].slot)
  }

  /** How often a slot occurs in a family of lists. */
  function Occurs(lists: seq<seq<Slot>>, slot: Slot): nat {
    if lists == [] then 0 else Occurs(lists[..|lists| - 1], slot) + multiset(lists[|lists| - 1])[slot]
  }

  lemma {:induction false} OccursUpdate(lists: seq<seq<Slot>>, i: nat, x: seq<Slot>, slot: Slot)
    requires i < |lists|
    ensures Occurs(lists[i := x], slot) == Occurs(lists, slot) - multiset(lists[i])[slot] + multiset(x)[slot]
    decreases |lists|
  {
    var n := |lists| - 1;
    if i < n {
      assert lists[i := x][..n] == lists[..n][i := x];
      OccursUpdate(lists[..n], i, x, slot);
    } else {
      assert lists[i := x][..n] == lists[..n];
    }
  }

  lemma {:induction false} OccursNowhere(lists: seq<seq<Slot>>, slot: Slot)
    requires forall i :: 0 <= i < |lists| ==> lists[i] == []
    ensures Occurs(lists, slot) == 0
    decreases |lists|
  {
    if lists != [] { OccursNowhere(lists[..|lists| - 1], slot); }
  }

  lemma SwitchWorker(workers: seq<Worker>, i: nat, w: Worker, slot: Slot)
    requires i < |workers|
    ensures Occurs(HeldBy(workers[i := w]), slot)
            == Occurs(HeldBy(workers), slot) - multiset(Held(workers[i]))[slot] + multiset(Held(w))[slot]
  {
    assert HeldBy(workers[i := w]) == HeldBy(workers)[i := Held(w)];
    OccursUpdate(HeldBy(workers), i, Held(w), slot);
  }

  /** How many places hold a slot: buffered, in flight, recorded and discarded, taken together. */
  function Places(st: State, slot: Slot): nat {
    Occurs(st.channels, slot) + Occurs(HeldBy(st.workers), slot)
    + multiset(Slots(st.recorded))[slot] + multiset(st.discarded)[slot]
  }

  // ----- the invariants

  predicate Shape(cfg: Config, st: State) {
    && |st.channels| == |st.closed| == st.phase + 1 <= |cfg.recordStats|
    && |st.workers| == cfg.concurrency
    && (forall p :: 0 <= p < |st.channels| ==> |st.channels[p]| <= SCHEDULE_BUFFER)
    && (forall k :: 0 <= k < |st.emitted| ==> st.emitted[k].id == k)
  }

  /** Slots stay with the phase they were scheduled in. */
  predicate InPhase(st: State) {
    && (forall p, k :: 0 <= p < |st.channels| && 0 <= k < |st.channels[p]| ==> st.channels[p][k].phase == p)
    && (forall i :: 0 <= i < |st.workers| && Held(st.workers[i]) != [] ==> st.workers[i].slot.phase == st.phase)
  }

  predicate RecordOk(cfg: Config, r: Record) {
    && r.slot.phase == r.during < |cfg.recordStats| && cfg.recordStats[r.during]
    && r.slot.time <= r.dispatched <= r.completed
    && r.latency == r.completed - r.slot.time
    && r.inTime
  }

  /** A response that came too late finds its context done; one that passed had come in time. */
  predicate WorkerOk(cfg: Config, st: State, w: Worker) {
    && (w.Sending? ==> w.slot.time <= w.dispatched <= st.now)
    && (w.Answered? ==> w.slot.time <= w.dispatched <= w.completed && (w.inTime || st.cancelled))
    && (w.Passed? ==>
          w.slot.time <= w.dispatched <= w.completed && w.inTime
          && st.phase < |cfg.recordStats| && cfg.recordStats[st.phase])
  }

  predicate Honest(cfg: Config, st: State) {
    && (forall i :: 0 <= i < |st.workers| ==> WorkerOk(cfg, st, st.workers[i]))
    && (forall k :: 0 <= k < |st.recorded| ==> RecordOk(cfg, st.recorded[k]))
  }

  predicate Conserved(st: State, slot: Slot) {
    Places(st, slot) == multiset(st.emitted)[slot]
  }

  predicate Inv(cfg: Config, st: State) {
    Shape(cfg, st) && InPhase(st) && Honest(cfg, st)
  }

  lemma StepKeepsShape(cfg: Config, st: State, step: Step)
    requires Shape(cfg, st)
    ensures Shape(cfg, Next(cfg, st, step))
  {
  }

  lemma StepKeepsPhase(cfg: Config, st: State, step: Step)
    requires Shape(cfg, st) && InPhase(st)
    ensures InPhase(Next(cfg, st, step))
  {
  }

  lemma StepKeepsHonest(cfg: Config, st: State, step: Step)
    requires Shape(cfg, st) && InPhase(st) && Honest(cfg, st)
    ensures Honest(cfg, Next(cfg, st, step))
  {
  }

  lemma EmitConserves(st: State, p: nat, time: Time, slot: Slot)
    requires Conserved(st, slot)
    ensures Conserved(DoEmit(st, p, time), slot)
  {
    if DoEmit(st, p, time) != st {
      OccursUpdate(st.channels, p, st.channels[p] + [Slot(|st.emitted|, p, time)], slot);
    }
  }

  lemma PullConserves(st: State, i: nat, slot: Slot)
    requires Conserved(st, slot)
    ensures Conserved(DoPull(st, i), slot)
  {
    if DoPull(st, i) != st {
      var ch := st.channels[st.phase];
      assert ch == [ch[0]] + ch[1..];
      OccursUpdate(st.channels, st.phase, ch[1..], slot);
      SwitchWorker(st.workers, i, Holding(ch[0]), slot);
    }
  }

  lemma RespondConserves(st: State, i: nat, slot: Slot)
    requires Conserved(st, slot)
    ensures Conserved(DoRespond(st, i), slot)
  {
    if DoRespond(st, i) != st {
      SwitchWorker(st.workers, i, DoRespond(st, i).workers[i], slot);
    }
  }

  lemma DiscardConserves(st: State, i: nat, slot: Slot)
    requires Conserved(st, slot) && i < |st.workers| && st.workers[i].Answered?
    ensures Conserved(DoDiscard(st, i), slot)
  {
    SwitchWorker(st.workers, i, Waiting, slot);
  }

  lemma PassConserves(st: State, i: nat, slot: Slot)
    requires Conserved(st, slot) && i < |st.workers| && st.workers[i].Answered?
    ensures Conserved(DoPass(st, i), slot)
  {
    SwitchWorker(st.workers, i, DoPass(st, i).workers[i], slot);
  }

  lemma CheckConserves(cfg: Config, st: State, i: nat, slot: Slot)
    requires Conserved(st, slot)
    ensures Conserved(DoCheck(cfg, st, i), slot)
  {
    if i < |st.workers| && st.workers[i].Answered? {
      if DoCheck(cfg, st, i) == DoDiscard(st, i) { DiscardConserves(st, i, slot); } else { PassConserves(st, i, slot); }
    }
  }

  lemma SlotsOneMore(recorded: seq<Record>, r: Record)
    ensures Slots(recorded + [r]) == Slots(recorded) + [r.slot]
  {
  }

  lemma WriteConserves(st: State, i: nat, slot: Slot)
    requires Conserved(st, slot)
    ensures Conserved(DoWrite(st, i), slot)
  {
    var st' := DoWrite(st, i);
    if i < |st.workers| && st.workers[i].Passed? {
      SwitchWorker(st.workers, i, Waiting, slot);
      SlotsOneMore(st.recorded, st'.recorded[|st.recorded|]);
    }
  }

  lemma NextPhaseConserves(cfg: Config, st: State, slot: Slot)
    requires Conserved(st, slot)
    ensures Conserved(DoNextPhase(cfg, st), slot)
  {
    var st' := DoNextPhase(cfg, st);
    if st'.phase != st.phase {
      assert forall i :: 0 <= i < |st.workers| ==> st.workers[i] in st.workers;
      OccursNowhere(HeldBy(st.workers), slot);
      OccursNowhere(HeldBy(st'.workers), slot);
      assert st'.channels[..|st.channels|] == st.channels;
    }
  }

  lemma SleepConserves(st: State, i: nat, slot: Slot)
    requires Conserved(st, slot)
    ensures Conserved(DoSleep(st, i), slot)
  {
    if DoSleep(st, i) != st {
      SwitchWorker(st.workers, i, Sleeping(st.workers[i].slot), slot);
    }
  }

  lemma DispatchConserves(st: State, i: nat, slot: Slot)
    requires Conserved(st, slot)
    ensures Conserved(DoDispatch(st, i), slot)
  {
    if DoDispatch(st, i) != st {
      SwitchWorker(st.workers, i, Sending(st.workers[i].slot, st.now), slot);
    }
  }

  lemma DropConserves(st: State, i: nat, slot: Slot)
    requires Conserved(st, slot)
    ensures Conserved(DoDropEarly(st, i), slot)
  {
    if DoDropEarly(st, i) != st {
      SwitchWorker(st.workers, i, Waiting, slot);
    }
  }

  lemma ExitConserves(st: State, i: nat, slot: Slot)
    requires Conserved(st, slot)
    ensures Conserved(DoExit(st, i), slot)
  {
    if DoExit(st, i) != st {
      SwitchWorker(st.workers, i, Exited, slot);
    }
  }

  lemma StepConserves(cfg: Config, st: State, step: Step, slot: Slot)
    requires Conserved(st, slot)
    ensures Conserved(Next(cfg, st, step), slot)
  {
    match step
    case Emit(p, time) => EmitConserves(st, p, time, slot);
    case Pull(i) => PullConserves(st, i, slot);
    case Sleep(i) => SleepConserves(st, i, slot);
    case Dispatch(i) => DispatchConserves(st, i, slot);
    case DropEarly(i) => DropConserves(st, i, slot);
    case Exit(i) => ExitConserves(st, i, slot);
    case Respond(i) => RespondConserves(st, i, slot);
    case Check(i) => CheckConserves(cfg, st, i, slot);
    case Write(i) => WriteConserves(st, i, slot);
    case NextPhase => NextPhaseConserves(cfg, st, slot);
    case _ =>
  }

  lemma {:induction false} RunKeepsInv(cfg: Config, st: State, steps: seq<Step>)
    requires Init(cfg, st)
    ensures Inv(cfg, Run(cfg, st, steps))
    decreases |steps|
  {
    if steps != [] {
      var before := Run(cfg, st, steps[..|steps| - 1]);
      var step := steps[|steps| - 1];
      RunKeepsInv(cfg, st, steps[..|steps| - 1]);
      StepKeepsShape(cfg, before, step);
      StepKeepsPhase(cfg, before, step);
      StepKeepsHonest(cfg, before, step);
    }
  }

  lemma {:induction false} RunConserves(cfg: Config, st: State, steps: seq<Step>, slot: Slot)
    requires Init(cfg, st)
    ensures Conserved(Run(cfg, st, steps), slot)
    decreases |steps|
  {
    if steps == [] {
      OccursNowhere(HeldBy(st.workers), slot);
      OccursNowhere(st.channels, slot);
    } else {
      RunConserves(cfg, st, steps[..|steps| - 1], slot);
      StepConserves(cfg, Run(cfg, st, steps[..|steps| - 1]), steps[|steps| - 1], slot);
    }
  }

  // ----- what every run guarantees

  /** A slot that was emitted is, at any moment, in exactly one place, and no other slot is anywhere. */
  lemma EverySlotOnce(cfg: Config, st0: State, steps: seq<Step>, slot: Slot)
    requires Init(cfg, st0)
    ensures Places(Run(cfg, st0, steps), slot) == if slot in Run(cfg, st0, steps).emitted then 1 else 0
  {
    RunKeepsInv(cfg, st0, steps);
    RunConserves(cfg, st0, steps, slot);
    EmittedOnce(Run(cfg, st0, steps).emitted, slot);
  }

  lemma {:induction false} EmittedOnce(emitted: seq<Slot>, slot: Slot)
    requires forall k :: 0 <= k < |emitted| ==> emitted[k].id == k
    ensures multiset(emitted)[slot] == if slot in emitted then 1 else 0
    decreases |emitted|
  {
    if emitted != [] {
      var n := |emitted| - 1;
      assert emitted == emitted[..n] + [emitted[n]];
      EmittedOnce(emitted[..n], slot);
    }
  }

  // ----- first come, first served

  predicate Ascending(ch: seq<Slot>, n: nat) {
    && (forall k :: 0 <= k < |ch| ==> ch[k].id < n)
    && (forall j, k :: 0 <= j < k < |ch| ==> ch[j].id < ch[k].id)
  }

  predicate AheadOf(slots: seq<Slot>, ch: seq<Slot>, n: nat) {
    forall j :: 0 <= j < |slots| ==> slots[j].id < n && forall k :: 0 <= k < |ch| ==> slots[j].id < ch[k].id
  }

  /** Buffered slots are in the order they were emitted, and behind every slot a worker has. */
  predicate Queued(cfg: Config, st: State)
    requires Shape(cfg, st)
  {
    && (forall p :: 0 <= p < |st.channels| ==> Ascending(st.channels[p], |st.emitted|))
    && (forall i :: 0 <= i < |st.workers| ==> AheadOf(Held(st.workers[i]), st.channels[st.phase], |st.emitted|))
  }

  lemma EmitKeepsQueued(cfg: Config, st: State, p: nat, time: Time)
    requires Shape(cfg, st) && Queued(cfg, st) && Shape(cfg, DoEmit(st, p, time))
    ensures Queued(cfg, DoEmit(st, p, time))
  {
  }

  lemma PullKeepsQueued(cfg: Config, st: State, i: nat)
    requires Shape(cfg, st) && Queued(cfg, st) && Shape(cfg, DoPull(st, i))
    ensures Queued(cfg, DoPull(st, i))
  {
    if DoPull(st, i) != st {
      var ch := st.channels[st.phase];
      assert Ascending(ch, |st.emitted|);
      assert AheadOf([ch[0]], ch[1..], |st.emitted|);
      assert Ascending(ch[1..], |st.emitted|);
    }
  }

  /** The other steps leave the channels alone, and no worker takes up a slot. */
  predicate NothingTaken(st: State, st': State) {
    && st'.channels == st.channels && st'.emitted == st.emitted && st'.phase == st.phase
    && |st'.workers| == |st.workers|
    && forall i :: 0 <= i < |st.workers| ==> Held(st'.workers[i]) == [] || Held(st'.workers[i]) == Held(st.workers[i])
  }

  lemma OthersTakeNothing(cfg: Config, st: State, step: Step)
    requires !step.Emit? && !step.Pull? && !step.NextPhase?
    ensures NothingTaken(st, Next(cfg, st, step))
  {
  }

  lemma NothingTakenKeepsQueued(cfg: Config, st: State, st': State)
    requires Shape(cfg, st) && Queued(cfg, st) && Shape(cfg, st') && NothingTaken(st, st')
    ensures Queued(cfg, st')
  {
  }

  lemma NextPhaseKeepsQueued(cfg: Config, st: State)
    requires Shape(cfg, st) && Queued(cfg, st) && Shape(cfg, DoNextPhase(cfg, st))
    ensures Queued(cfg, DoNextPhase(cfg, st))
  {
  }

  lemma StepKeepsQueued(cfg: Config, st: State, step: Step)
    requires Shape(cfg, st) && Queued(cfg, st) && Shape(cfg, Next(cfg, st, step))
    ensures Queued(cfg, Next(cfg, st, step))
  {
    match step
    case Emit(p, time) => EmitKeepsQueued(cfg, st, p, time);
    case Pull(i) => PullKeepsQueued(cfg, st, i);
    case NextPhase => NextPhaseKeepsQueued(cfg, st);
    case _ =>
      OthersTakeNothing(cfg, st, step);
      NothingTakenKeepsQueued(cfg, st, Next(cfg, st, step));
  }

  /** Of the slots of a phase, a worker always has an older one than those still buffered. */
  lemma {:induction false} OldestFirst(cfg: Config, st0: State, steps: seq<Step>)
    requires Init(cfg, st0)
    ensures Inv(cfg, Run(cfg, st0, steps)) && Queued(cfg, Run(cfg, st0, steps))
    decreases |steps|
  {
    RunKeepsInv(cfg, st0, steps);
    if steps != [] {
      var before := steps[..|steps| - 1];
      RunKeepsInv(cfg, st0, before);
      OldestFirst(cfg, st0, before);
      StepKeepsQueued(cfg, Run(cfg, st0, before), steps[|steps| - 1]);
    }
  }

  // ----- a phase that ends by itself

  /** While the phase's context is live, a worker leaves only an empty channel that is closed, and
      nothing of a counted phase is discarded. */
  predicate Undisturbed(cfg: Config, st: State)
    requires Shape(cfg, st)
  {
    && (forall k :: 0 <= k < |st.discarded| ==> st.discarded[k].phase <= st.phase)
    && (!st.cancelled ==>
          && ((exists i :: 0 <= i < |st.workers| && st.workers[i].Exited?) ==>
                st.closed[st.phase] && st.channels[st.phase] == [])
          && (cfg.recordStats[st.phase] ==> forall k :: 0 <= k < |st.discarded| ==> st.discarded[k].phase < st.phase))
  }

  lemma StepKeepsUndisturbed(cfg: Config, st: State, step: Step)
    requires Inv(cfg, st) && Undisturbed(cfg, st)
    ensures Shape(cfg, Next(cfg, st, step)) && Undisturbed(cfg, Next(cfg, st, step))
  {
    StepKeepsShape(cfg, st, step);
  }

  lemma {:induction false} RunKeepsUndisturbed(cfg: Config, st: State, steps: seq<Step>)
    requires Init(cfg, st)
    ensures Inv(cfg, Run(cfg, st, steps)) && Undisturbed(cfg, Run(cfg, st, steps))
    decreases |steps|
  {
    RunKeepsInv(cfg, st, steps);
    if steps != [] {
      var before := steps[..|steps| - 1];
      RunKeepsInv(cfg, st, before);
      RunKeepsUndisturbed(cfg, st, before);
      StepKeepsUndisturbed(cfg, Run(cfg, st, before), steps[|steps| - 1]);
    }
  }

  lemma {:induction false} OccursInNone(lists: seq<seq<Slot>>, slot: Slot)
    requires forall i :: 0 <= i < |lists| ==> slot !in lists[i]
    ensures Occurs(lists, slot) == 0
    decreases |lists|
  {
    if lists != [] { OccursInNone(lists[..|lists| - 1], slot); }
  }

  /** The pool has left and the phase's context is still live. */
  predicate EndedByItself(cfg: Config, st: State) {
    0 < |st.workers| && (forall i :: 0 <= i < |st.workers| ==> st.workers[i].Exited?) && !st.cancelled
  }

  /** A counted phase that its workers leave with a live context has recorded every request it
      emitted, and its emitter is done. */
  lemma NothingIsMissed(cfg: Config, st0: State, steps: seq<Step>, slot: Slot)
    requires Init(cfg, st0)
    ensures var st := Run(cfg, st0, steps);
            EndedByItself(cfg, st) && st.phase < |cfg.recordStats| && cfg.recordStats[st.phase] ==>
              && st.phase < |st.closed| && st.closed[st.phase]
              && (slot in st.emitted && slot.phase == st.phase ==> slot in Slots(st.recorded))
  {
    var st := Run(cfg, st0, steps);
    RunKeepsUndisturbed(cfg, st0, steps);
    if EndedByItself(cfg, st) && cfg.recordStats[st.phase] {
      assert st.workers[0].Exited?;
      if slot in st.emitted && slot.phase == st.phase {
        EverySlotOnce(cfg, st0, steps, slot);
        OccursInNone(st.channels, slot);
        OccursNowhere(HeldBy(st.workers), slot);
        assert slot !in st.discarded;
        assert multiset(Slots(st.recorded))[slot] == 1;
      }
    }
  }

  /** How many workers have taken a slot and not finished with it. */
  function InFlight(workers: seq<Worker>): nat {
    if workers == [] then 0
    else InFlight(workers[..|workers| - 1]) + |Held(workers[|workers| - 1])|
  }

  lemma {:induction false} InFlightBounded(workers: seq<Worker>)
    ensures InFlight(workers) <= |workers|
    decreases |workers|
  {
    if workers != [] { InFlightBounded(workers[..|workers| - 1]); }
  }

  /** Channels stay within their buffer, the pool within its size, and what is recorded was
      scheduled in the phase that recorded it, in a phase that counts, with the whole delay
      since its scheduled time, which is at least the delay since it was sent. */
  lemma RecordsAreHonest(cfg: Config, st0: State, steps: seq<Step>)
    requires Init(cfg, st0)
    ensures var st := Run(cfg, st0, steps);
            && InFlight(st.workers) <= cfg.concurrency
            && (forall p :: 0 <= p < |st.channels| ==> |st.channels[p]| <= SCHEDULE_BUFFER)
            && forall k :: 0 <= k < |st.recorded| ==>
                 var r := st.recorded[k];
                 && r.during < |cfg.recordStats| && cfg.recordStats[r.during]
                 && r.slot.phase == r.during
                 && 0 <= r.completed - r.dispatched <= r.latency
                 && r.latency == (r.dispatched - r.slot.time) + (r.completed - r.dispatched)
  {
    RunKeepsInv(cfg, st0, steps);
    InFlightBounded(Run(cfg, st0, steps).workers);
  }

  /** Once a later phase has begun, nothing scheduled in an earlier one is recorded any more; and
      nothing is ever recorded whose response came after its phase's context was done. */
  lemma NoLateRecords(cfg: Config, st0: State, steps: seq<Step>, step: Step)
    requires Init(cfg, st0)
    ensures var st, st' := Run(cfg, st0, steps), Run(cfg, st0, steps + [step]);
            && st.recorded <= st'.recorded
            && forall k :: |st.recorded| <= k < |st'.recorded| ==>
                 st'.recorded[k].slot.phase == st.phase && st'.recorded[k].inTime
  {
    assert (steps + [step])[..|steps|] == steps;
    RunKeepsInv(cfg, st0, steps);
  }

  /** How many workers have found their context live and are yet to record. */
  function Passing(workers: seq<Worker>): nat {
    if workers == [] then 0
    else Passing(workers[..|workers| - 1]) + if workers[|workers| - 1].Passed? then 1 else 0
  }

  lemma {:induction false} PassingUpdate(workers: seq<Worker>, i: nat, w: Worker)
    requires i < |workers|
    ensures Passing(workers[i := w])
            == Passing(workers) - (if workers[i].Passed? then 1 else 0) + (if w.Passed? then 1 else 0)
    decreases |workers|
  {
    var n := |workers| - 1;
    if i < n {
      assert workers[i := w][..n] == workers[..n][i := w];
      PassingUpdate(workers[..n], i, w);
    } else {
      assert workers[i := w][..n] == workers[..n];
    }
  }

  lemma {:induction false} PassingBounded(workers: seq<Worker>)
    ensures Passing(workers) <= |workers|
    decreases |workers|
  {
    if workers != [] { PassingBounded(workers[..|workers| - 1]); }
  }

  lemma DoneStep(cfg: Config, st: State, step: Step)
    requires st.cancelled && !step.NextPhase?
    ensures var st' := Next(cfg, st, step);
            && st'.cancelled && st.recorded <= st'.recorded && |st'.workers| == |st.workers|
            && |st'.recorded| + Passing(st'.workers) <= |st.recorded| + Passing(st.workers)
  {
    var st' := Next(cfg, st, step);
    if st'.workers != st.workers {
      assert st'.workers == st.workers[step.i := st'.workers[step.i]];
      PassingUpdate(st.workers, step.i, st'.workers[step.i]);
    }
  }

  /** After a phase's context is done, and until the next phase begins, only the workers that had
      already found it live still record, each at most once. */
  lemma {:induction false} RecordsAfterDone(cfg: Config, st: State, steps: seq<Step>)
    requires st.cancelled && forall i :: 0 <= i < |steps| ==> !steps[i].NextPhase?
    ensures var st' := Run(cfg, st, steps);
            && st'.cancelled && st.recorded <= st'.recorded && |st'.workers| == |st.workers|
            && |st'.recorded| + Passing(st'.workers) <= |st.recorded| + Passing(st.workers)
            && |st'.recorded| - |st.recorded| <= |st.workers|
    decreases |steps|
  {
    PassingBounded(st.workers);
    if steps != [] {
      RecordsAfterDone(cfg, st, steps[..|steps| - 1]);
      DoneStep(cfg, Run(cfg, st, steps[..|steps| - 1]), steps[|steps| - 1]);
    }
  }

  // ----- one request from its slot to its record

  /** Worker i takes a slot, waits for its time if it is early, and sends. */
  function Sent(cfg: Config, st: State, i: nat, wait: nat): State {
    Next(cfg, Next(cfg, Next(cfg, Next(cfg, st, Pull(i)), Sleep(i)), Tick(wait)), Dispatch(i))
  }

  /** The response comes d later, and is recorded. */
  function Finished(cfg: Config, st: State, i: nat, d: nat): State {
    Next(cfg, Next(cfg, Next(cfg, Next(cfg, st, Tick(d)), Respond(i)), Check(i)), Write(i))
  }

  function Until(now: Time, time: Time): nat {
    if now < time then time - now else 0
  }

  lemma OldestIsSent(cfg: Config, st: State, i: nat)
    requires Shape(cfg, st) && i < |st.workers| && st.workers[i].Waiting? && st.channels[st.phase] != []
    ensures var slot := st.channels[st.phase][0];
            var now := st.now + Until(st.now, slot.time);
            var st' := Sent(cfg, st, i, Until(st.now, slot.time));
            && st' == st.(now := now, channels := st.channels[st.phase := st.channels[st.phase][1..]],
                          workers := st.workers[i := Sending(slot, now)])
            && slot.time <= now
  {
    var slot := st.channels[st.phase][0];
    var st1 := Next(cfg, st, Pull(i));
    assert st1.workers[i] == Holding(slot);
    var st2 := Next(cfg, st1, Sleep(i));
    assert st2.workers[i].slot == slot && (st2.workers[i].Holding? || st2.workers[i].Sleeping?);
  }

  lemma ResponseIsRecorded(cfg: Config, st: State, i: nat, d: nat)
    requires Shape(cfg, st) && i < |st.workers| && st.workers[i].Sending? && st.workers[i].slot.time <= st.now
    requires !st.cancelled && cfg.recordStats[st.phase]
    ensures var w := st.workers[i];
            var st' := Finished(cfg, st, i, d);
            && st'.workers == st.workers[i := Waiting] && st'.discarded == st.discarded
            && st'.recorded == st.recorded
                 + [Record(w.slot, w.dispatched, st.now + d, st.now + d - w.slot.time, true, st.phase)]
  {
    var w := st.workers[i];
    var st1 := Next(cfg, Next(cfg, st, Tick(d)), Respond(i));
    assert st1.workers[i] == Answered(w.slot, w.dispatched, st.now + d, true);
    var st2 := Next(cfg, st1, Check(i));
    assert st2.workers[i] == Passed(w.slot, w.dispatched, st.now + d, true);
  }

  /** A worker waits, a slot is there, and what comes of it counts. */
  predicate CanServe(cfg: Config, st: State, i: nat) {
    && i < |st.workers| && st.workers[i].Waiting?
    && st.phase < |st.channels| && st.channels[st.phase] != []
    && !st.cancelled && st.phase < |cfg.recordStats| && cfg.recordStats[st.phase]
  }

  /** In a counted phase that nothing disturbs, the oldest slot is sent at its time, or at once when
      that has passed, and recorded with the time from then to its response as its latency. */
  lemma OneRequest(cfg: Config, st: State, i: nat, d: nat)
    requires Inv(cfg, st) && CanServe(cfg, st, i)
    ensures var slot := st.channels[st.phase][0];
            var sent := if st.now < slot.time then slot.time else st.now;
            Finished(cfg, Sent(cfg, st, i, Until(st.now, slot.time)), i, d).recorded
            == st.recorded + [Record(slot, sent, sent + d, sent - slot.time + d, true, st.phase)]
  {
    var slot := st.channels[st.phase][0];
    OldestIsSent(cfg, st, i);
    SentKeepsShape(cfg, st, i, Until(st.now, slot.time));
    SentIsRecorded(cfg, st, Sent(cfg, st, i, Until(st.now, slot.time)), i, d, slot, st.now + Until(st.now, slot.time));
  }

  lemma SentIsRecorded(cfg: Config, st: State, sent: State, i: nat, d: nat, slot: Slot, at: Time)
    requires Shape(cfg, sent) && CanServe(cfg, st, i) && slot.time <= at
    requires sent == st.(now := at, channels := sent.channels, workers := st.workers[i := Sending(slot, at)])
    ensures Finished(cfg, sent, i, d).recorded
            == st.recorded + [Record(slot, at, at + d, at - slot.time + d, true, st.phase)]
  {
    ResponseIsRecorded(cfg, sent, i, d);
  }

  lemma SentKeepsShape(cfg: Config, st: State, i: nat, wait: nat)
    requires Shape(cfg, st)
    ensures Shape(cfg, Sent(cfg, st, i, wait))
  {
    var st1 := Next(cfg, st, Pull(i));
    var st2 := Next(cfg, st1, Sleep(i));
    var st3 := Next(cfg, st2, Tick(wait));
    StepKeepsShape(cfg, st, Pull(i));
    StepKeepsShape(cfg, st1, Sleep(i));
    StepKeepsShape(cfg, st2, Tick(wait));
    StepKeepsShape(cfg, st3, Dispatch(i));
  }

  // ----- two requests around the end of a phase

  const ONE_WORKER: Config := Config([true], 1)
  const FRESH: State := State(0, 0, [[]], [false], false, false, [Waiting], [], [], [])
  const SLOT: Slot := Slot(0, 0, 0)
  const IN_FLIGHT: State := FRESH.(workers := [Sending(SLOT, 0)], emitted := [SLOT])

  lemma RunOneMore(cfg: Config, st: State, steps: seq<Step>, step: Step)
    ensures Run(cfg, st, steps + [step]) == Next(cfg, Run(cfg, st, steps), step)
  {
    assert (steps + [step])[..|steps|] == steps;
  }

  lemma RunThree(cfg: Config, st: State, a: Step, b: Step, c: Step)
    ensures Run(cfg, st, [a, b, c]) == Next(cfg, Next(cfg, Next(cfg, st, a), b), c)
  {
    RunOneMore(cfg, st, [], a);
    RunOneMore(cfg, st, [a], b);
    RunOneMore(cfg, st, [a, b], c);
    assert [] + [a] == [a] && [a] + [b] == [a, b] && [a, b] + [c] == [a, b, c];
  }

  const SEND: seq<Step> := [Emit(0, 0), Pull(0), Dispatch(0)]

  const QUEUED: State := FRESH.(channels := [[SLOT]], emitted := [SLOT])

  lemma Queueing()
    ensures DoEmit(FRESH, 0, 0) == QUEUED
  {
    assert FRESH.channels[0] + [SLOT] == [SLOT];
    assert FRESH.channels[0 := [SLOT]] == [[SLOT]];
    assert FRESH.emitted + [SLOT] == [SLOT];
  }

  lemma Pulling()
    ensures DoPull(QUEUED, 0) == QUEUED.(channels := [[]], workers := [Holding(SLOT)])
  {
    assert QUEUED.channels[0][1..] == [];
    assert QUEUED.channels[0 := []] == [[]];
    assert QUEUED.workers[0 := Holding(SLOT)] == [Holding(SLOT)];
  }

  lemma SendingOne()
    ensures Init(ONE_WORKER, FRESH) && Run(ONE_WORKER, FRESH, SEND) == IN_FLIGHT
  {
    RunThree(ONE_WORKER, FRESH, Emit(0, 0), Pull(0), Dispatch(0));
    Queueing();
    Pulling();
    assert Pool(1) == [Waiting];
  }

  /** A request in flight when its phase ends is answered, and not counted. */
  lemma InFlightIsDiscarded() returns (steps: seq<Step>)
    ensures Run(ONE_WORKER, FRESH, SEND).workers == [Sending(SLOT, 0)]
    ensures steps == [Cancel, Respond(0), Check(0)]
    ensures var st := Run(ONE_WORKER, Run(ONE_WORKER, FRESH, SEND), steps);
            st.recorded == [] && st.discarded == [SLOT]
  {
    steps := [Cancel, Respond(0), Check(0)];
    SendingOne();
    RunThree(ONE_WORKER, IN_FLIGHT, Cancel, Respond(0), Check(0));
  }

  /** A request that found its context live is recorded although the context is done by then. */
  lemma RecordedAfterDone() returns (steps: seq<Step>)
    ensures var st := Run(ONE_WORKER, Run(ONE_WORKER, FRESH, SEND), steps);
            && st.cancelled && st.recorded == []
            && |Next(ONE_WORKER, st, Write(0)).recorded| == 1
  {
    steps := [Respond(0), Check(0), Cancel];
    SendingOne();
    RunThree(ONE_WORKER, IN_FLIGHT, Respond(0), Check(0), Cancel);
  }
}

/**
 The delivery worker (entrypoint/background/deliveryworker/worker.go): its lease
 arithmetic, the tracker of running executions, and the flow of slots and tasks
 between the coordinator and the executions it starts.
 */
module Workers {
  import opened Options
  import opened Traces

  // ------------------------------------------------------------ 64-bit durations

  const MAX_DURATION := 0x7FFF_FFFF_FFFF_FFFF
  const MIN_DURATION := -0x8000_0000_0000_0000
  const OUTCOME_FINALIZATION_TIMEOUT := 2_000_000_000

  /** time.Duration */
  type Duration = d: int | MIN_DURATION <= d <= MAX_DURATION

  /** Go's addition and subtraction of durations wrap around. */
  function Wrapped(x: int): Duration {
    (x - MIN_DURATION) % 0x1_0000_0000_0000_0000 + MIN_DURATION
  }

  datatype Config = Config(
    emptyPoll: Duration, executionTimeout: Duration, drainTimeout: Duration, cleanupTimeout: Duration,
    leaseDuration: Duration, leaseSafetyMargin: Duration)

  function LeaseSafetyDuration(c: Config): Option<Duration> {
    if c.executionTimeout <= 0 then None
    else if c.leaseSafetyMargin <= 0 then None
    else if c.executionTimeout > Wrapped(MAX_DURATION - OUTCOME_FINALIZATION_TIMEOUT) then None
    else
      var withoutMargin := Wrapped(c.executionTimeout + OUTCOME_FINALIZATION_TIMEOUT);
      if withoutMargin > Wrapped(MAX_DURATION - c.leaseSafetyMargin) then None
      else Some(Wrapped(withoutMargin + c.leaseSafetyMargin))
  }

  predicate AllPositive(c: Config) {
    && c.emptyPoll > 0 && c.executionTimeout > 0 && c.drainTimeout > 0 && c.cleanupTimeout > 0
    && c.leaseDuration > 0 && c.leaseSafetyMargin > 0
  }

  predicate Validate(c: Config) {
    && AllPositive(c)
    && LeaseSafetyDuration(c).Some? && c.leaseDuration > LeaseSafetyDuration(c).value
    && c.drainTimeout <= Wrapped(MAX_DURATION - c.cleanupTimeout)
  }

  /** Without overflow, the safety bound is the exact sum; an overflowing sum is refused. */
  lemma SafetyIsExact(c: Config)
    requires c.executionTimeout > 0 && c.leaseSafetyMargin > 0
    ensures var exact := c.executionTimeout + 2_000_000_000 + c.leaseSafetyMargin;
            LeaseSafetyDuration(c) == if exact <= 0x7FFF_FFFF_FFFF_FFFF then Some(exact) else None
  {
  }

  /** A configuration is accepted exactly if, in unbounded integers, its lease outlasts execution, finalization and margin. */
  lemma ValidatesExactly(c: Config)
    ensures Validate(c) <==>
      && c.emptyPoll > 0 && c.executionTimeout > 0 && c.drainTimeout > 0 && c.cleanupTimeout > 0 && c.leaseSafetyMargin > 0
      && c.executionTimeout + 2_000_000_000 + c.leaseSafetyMargin < c.leaseDuration
      && c.drainTimeout + c.cleanupTimeout <= 0x7FFF_FFFF_FFFF_FFFF
  {
    if AllPositive(c) { SafetyIsExact(c); }
  }

  // ------------------------------------------------------------------ activeTracker

  /** `done` is "doneCh is closed". */
  datatype Tracker = Tracker(count: int, stopped: bool, done: bool)

  const IDLE_TRACKER := Tracker(0, false, true)

  function Counted(tr: Tracker): (Tracker, bool) {
    if tr.stopped then (tr, false)
    else (tr.(count := tr.count + 1, done := if tr.count == 0 then false else tr.done), true)
  }

  function Uncounted(tr: Tracker): Tracker {
    tr.(count := tr.count - 1, done := if tr.count == 1 then true else tr.done)
  }

  class ActiveTracker {
    var count: int
    var stopped: bool
    var done: bool

    ghost function Value(): Tracker
      reads this
    {
      Tracker(count, stopped, done)
    }

    constructor ()
      ensures Value() == IDLE_TRACKER
    {
      count, stopped, done := 0, false, true;
    }

    method Add() returns (added: bool)
      modifies this
      ensures (Value(), added) == Counted(old(Value()))
    {
      if stopped {
        return false;
      }
      if count == 0 {
        done := false;
      }
      count := count + 1;
      added := true;
    }

    method DoneOne()
      modifies this
      ensures Value() == Uncounted(old(Value()))
    {
      count := count - 1;
      if count == 0 {
        done := true;
      }
    }

    method Stop()
      modifies this
      ensures Value() == old(Value()).(stopped := true)
    {
      stopped := true;
    }
  }

  // ------------------------------------------------------------- slots and tasks

  const CAPACITY := 4

  type TaskId = nat

  /** The coordinator: without a slot, with one, with a claimed task too, or gone. */
  datatype Coordinator = Looping | Slotted | Deciding(task: TaskId) | Launching(task: TaskId) | Exited

  /** An execution: running, about to release its task, then giving back slot and tracker. */
  datatype Execution = Running | Releasing | Returning | Untracking | Ended

  datatype World = World(
    slots: nat, tracker: Tracker, coordinator: Coordinator, executions: map<TaskId, Execution>,
    // history
    claimed: set<TaskId>, executed: set<TaskId>, failed: set<TaskId>, released: map<TaskId, nat>)

  const START := World(0, IDLE_TRACKER, Looping, map[], {}, {}, {}, map[])

  function Releases(w: World, task: TaskId): nat { if task in w.released then w.released[task] else 0 }

  function Release(w: World, task: TaskId): World {
    w.(released := w.released[task := Releases(w, task) + 1])
  }

  datatype Step =
    | TakeSlot
    | ClaimNothing(goOn: bool)                    // empty, an error without a task, or cancelled
    | ClaimTask(task: TaskId)
    | ClaimTaskWithError(task: TaskId)            // released at once; the coordinator ends
    | Refuse(goOn: bool)                          // late, malformed, unresolved or not renewed: released unexecuted
    | Accept                                      // resolved and renewed
    | Launch                                      // active.add, then either execute or releaseLate
    | Leave                                       // the claim context is done
    | Finish(task: TaskId, failed: bool)          // Execute returned, failed or panicked
    | ReleaseExecuted(task: TaskId)
    | GiveSlot(task: TaskId)
    | Untrack(task: TaskId)
    | StopTracker

  predicate At(w: World, task: TaskId, e: Execution) { task in w.executions && w.executions[task] == e }

  predicate Can(w: World, step: Step) {
    match step
    case TakeSlot => w.coordinator == Looping && w.slots < CAPACITY
    case ClaimNothing(_) => w.coordinator == Slotted
    case ClaimTask(task) => w.coordinator == Slotted && task !in w.claimed
    case ClaimTaskWithError(task) => w.coordinator == Slotted && task !in w.claimed
    case Refuse(_) => w.coordinator.Deciding?
    case Accept => w.coordinator.Deciding?
    case Launch => w.coordinator.Launching?
    case Leave => w.coordinator == Looping
    case Finish(task, _) => At(w, task, Running)
    case ReleaseExecuted(task) => At(w, task, Releasing)
    case GiveSlot(task) => At(w, task, Returning) && w.slots > 0
    case Untrack(task) => At(w, task, Untracking)
    case StopTracker => true
  }

  function Move(w: World, task: TaskId, e: Execution): World { w.(executions := w.executions[task := e]) }

  function Freed(w: World, next: Coordinator): World {
    w.(slots := if w.slots > 0 then w.slots - 1 else 0, coordinator := next)
  }

  function Do(w: World, step: Step): World
    requires Can(w, step)
  {
    match step
    case TakeSlot => w.(slots := w.slots + 1, coordinator := Slotted)
    case ClaimNothing(goOn) => Freed(w, if goOn then Looping else Exited)
    case ClaimTask(task) => w.(claimed := w.claimed + {task}, coordinator := Deciding(task))
    case ClaimTaskWithError(task) => Freed(Release(w.(claimed := w.claimed + {task}), task), Exited)
    case Refuse(goOn) => Freed(Release(w, w.coordinator.task), if goOn then Looping else Exited)
    case Accept => w.(coordinator := Launching(w.coordinator.task))
    case Launch =>
      var (tracker, added) := Counted(w.tracker);
      if added then
        Move(w.(tracker := tracker, coordinator := Looping, executed := w.executed + {w.coordinator.task}),
             w.coordinator.task, Running)
      else Freed(Release(w, w.coordinator.task), Exited)
    case Leave => w.(coordinator := Exited)
    case Finish(task, failed) =>
      Move(w.(failed := if failed then w.failed + {task} else w.failed), task, if failed then Releasing else Returning)
    case ReleaseExecuted(task) => Move(Release(w, task), task, Returning)
    case GiveSlot(task) => Move(w.(slots := w.slots - 1), task, Untracking)
    case Untrack(task) => Move(w.(tracker := Uncounted(w.tracker)), task, Ended)
    case StopTracker => w.(tracker := w.tracker.(stopped := true))
  }

  ghost predicate Takes(w: World, step: Step, w': World) { Can(w, step) && w' == Do(w, step) }

  // ------------------------------------------------------------------ conservation

  predicate HoldsSlot(e: Execution) { e in {Running, Releasing, Returning} }

  /** Executions that hold a slot, and executions the tracker counts. */
  ghost function SlotHolders(w: World): set<TaskId> { set t | t in w.executions && HoldsSlot(w.executions[t]) }

  ghost function Tracked(w: World): set<TaskId> { set t | t in w.executions && w.executions[t] != Ended }

  function Hand(c: Coordinator): set<TaskId> {
    match c
    case Deciding(task) => {task}
    case Launching(task) => {task}
    case _ => {}
  }

  function OwnSlot(c: Coordinator): nat { if c == Slotted || c.Deciding? || c.Launching? then 1 else 0 }

  /** What has become of a claimed task. */
  ghost predicate TaskOk(w: World, task: TaskId) {
    if task in Hand(w.coordinator) then task !in w.executed && task !in w.executions && Releases(w, task) == 0
    else if task in w.executed then
      && task in w.executions && (w.executions[task] == Running ==> task !in w.failed)
      && (w.executions[task] == Releasing ==> task in w.failed)
      && Releases(w, task) == if task in w.failed && w.executions[task] != Releasing then 1 else 0
    else task !in w.executions && Releases(w, task) == 1
  }

  ghost predicate Inv(w: World) {
    && w.slots == OwnSlot(w.coordinator) + |SlotHolders(w)| && w.slots <= CAPACITY
    && w.tracker.count == |Tracked(w)| && (w.tracker.done <==> w.tracker.count == 0)
    && (forall task <- w.claimed :: TaskOk(w, task))
    && Hand(w.coordinator) <= w.claimed && w.executed <= w.claimed && w.executions.Keys == w.executed
    && w.released.Keys <= w.claimed && w.failed <= w.executed
  }

  /** The coordinator moves on; a task may come into or leave its hand, unexecuted. */
  lemma HandKeeps(w: World, step: Step)
    requires Inv(w) && Can(w, step)
    requires step.TakeSlot? || step.ClaimNothing? || step.ClaimTask? || step.ClaimTaskWithError? || step.Refuse? || step.Accept?
             || step.Leave? || step.StopTracker?
    ensures Inv(Do(w, step))
  {
  }

  lemma LateKeeps(w: World)
    requires Inv(w) && Can(w, Launch) && w.tracker.stopped
    ensures Inv(Do(w, Launch))
  {
  }

  lemma LaunchedSets(w: World)
    requires Can(w, Launch) && !w.tracker.stopped && w.coordinator.task !in w.executions
    ensures var w', task := Do(w, Launch), w.coordinator.task;
            && SlotHolders(w') == SlotHolders(w) + {task} && task !in SlotHolders(w)
            && Tracked(w') == Tracked(w) + {task} && task !in Tracked(w)
  {
  }

  lemma LaunchedTask(w: World, t: TaskId)
    requires Can(w, Launch) && !w.tracker.stopped && TaskOk(w, t) && w.executions.Keys == w.executed && w.failed <= w.executed
    ensures TaskOk(Do(w, Launch), t)
  {
  }

  lemma LaunchKeeps(w: World)
    requires Inv(w) && Can(w, Launch)
    ensures Inv(Do(w, Launch))
  {
    if w.tracker.stopped {
      LateKeeps(w);
    } else {
      var w' := Do(w, Launch);
      assert TaskOk(w, w.coordinator.task);
      LaunchedSets(w);
      forall t <- w'.claimed ensures TaskOk(w', t) { LaunchedTask(w, t); }
      assert w'.executions.Keys == w.executions.Keys + {w.coordinator.task};
    }
  }

  lemma ExecutionKeeps(w: World, step: Step)
    requires Inv(w) && Can(w, step) && (step.Finish? || step.ReleaseExecuted? || step.GiveSlot? || step.Untrack?)
    ensures Inv(Do(w, step))
  {
    var w' := Do(w, step);
    assert TaskOk(w, step.task);
    ExecutionSets(w, step);
    forall t <- w'.claimed ensures TaskOk(w', t) { ExecutionTask(w, step, t); }
  }

  lemma ExecutionSets(w: World, step: Step)
    requires Can(w, step) && (step.Finish? || step.ReleaseExecuted? || step.GiveSlot? || step.Untrack?)
    ensures var w', task := Do(w, step), step.task;
            && task in Tracked(w) && Tracked(w') == (if step.Untrack? then Tracked(w) - {task} else Tracked(w))
            && (step.GiveSlot? ==> task in SlotHolders(w))
            && SlotHolders(w') == (if step.GiveSlot? then SlotHolders(w) - {task} else SlotHolders(w))
  {
  }

  lemma ExecutionTask(w: World, step: Step, t: TaskId)
    requires Inv(w) && Can(w, step) && (step.Finish? || step.ReleaseExecuted? || step.GiveSlot? || step.Untrack?)
    requires t in w.claimed
    ensures TaskOk(Do(w, step), t)
  {
  }

  lemma StepKeeps(w: World, step: Step, w': World)
    requires Inv(w) && Takes(w, step, w')
    ensures Inv(w')
  {
    match step
    case Launch => LaunchKeeps(w);
    case Finish(_, _) => ExecutionKeeps(w, step);
    case ReleaseExecuted(_) => ExecutionKeeps(w, step);
    case GiveSlot(_) => ExecutionKeeps(w, step);
    case Untrack(_) => ExecutionKeeps(w, step);
    case _ => HandKeeps(w, step);
  }

  ghost predicate Reachable(w: World) { exists steps :: Leads(Takes, START, steps, w) }

  lemma ReachableInv(w: World)
    requires Reachable(w)
    ensures Inv(w)
  {
    var steps :| Leads(Takes, START, steps, w);
    forall x, step, y | Inv(x) && Takes(x, step, y) ensures Inv(y) { StepKeeps(x, step, y); }
    assert SlotHolders(START) == {} && Tracked(START) == {};
    Invariance(Takes, step => true, Inv, START, steps, w);
  }

  /**
   A claimed task is in the coordinator's hand, or was released once unexecuted,
   or was executed once; an executed one is released exactly if it failed, and once.
   */
  lemma TasksAreConserved(w: World, task: TaskId)
    requires Reachable(w) && task in w.claimed
    ensures if task in Hand(w.coordinator) then task !in w.executed && Releases(w, task) == 0
            else if task !in w.executed then Releases(w, task) == 1
            else
              && task in w.executions
              && (w.executions[task] == Ended ==> Releases(w, task) == if task in w.failed then 1 else 0)
              && Releases(w, task) <= 1 && (Releases(w, task) == 1 ==> task in w.failed)
  {
    ReachableInv(w);
    assert TaskOk(w, task);
  }

  /** Slots taken are held by the coordinator or by one running execution each, and are there to be given back. */
  lemma SlotsAreConserved(w: World, task: TaskId)
    requires Reachable(w)
    ensures w.slots == OwnSlot(w.coordinator) + |SlotHolders(w)| <= 4
    ensures At(w, task, Returning) ==> Can(w, GiveSlot(task))
  {
    ReachableInv(w);
    if At(w, task, Returning) { assert task in SlotHolders(w); }
  }

  /** The done channel is closed exactly when nothing is tracked; then, with the coordinator gone, all slots are back. */
  lemma DoneMeansDrained(w: World)
    requires Reachable(w)
    ensures w.tracker.count == |Tracked(w)| && (w.tracker.done <==> w.tracker.count == 0)
    ensures w.tracker.done && w.coordinator == Exited ==>
              w.slots == 0 && forall task <- w.claimed :: task in w.executed || Releases(w, task) == 1
  {
    ReachableInv(w);
    assert SlotHolders(w) <= Tracked(w);
    forall task <- w.claimed | w.coordinator == Exited ensures task in w.executed || Releases(w, task) == 1 {
      assert TaskOk(w, task);
    }
  }

  /** A task in hand is executed exactly if it is accepted before the tracker stops; otherwise it is released. */
  lemma LaunchesExactly(w: World, w': World)
    requires Takes(w, Launch, w')
    ensures var task := w.coordinator.task;
            if w.tracker.stopped then
              w'.coordinator == Exited && w'.executed == w.executed && Releases(w', task) == Releases(w, task) + 1
              && w'.slots == (if w.slots > 0 then w.slots - 1 else 0)
            else
              && w'.coordinator == Looping && w'.executed == w.executed + {task} && w'.executions == w.executions[task := Running]
              && w'.slots == w.slots && w'.released == w.released
              && w'.tracker == w.tracker.(count := w.tracker.count + 1, done := w.tracker.done && w.tracker.count != 0)
  {
  }

  /** What happens to a failed execution's task, and to the slot and the count of every execution. */
  lemma ExecutionEndsExactly(w: World, task: TaskId, step: Step, w': World)
    requires Takes(w, step, w')
    requires (step.Finish? || step.ReleaseExecuted? || step.GiveSlot? || step.Untrack?) && step.task == task
    ensures w'.coordinator == w.coordinator && w'.claimed == w.claimed && w'.executed == w.executed
    ensures if step.Finish? then
              w'.failed == (if step.failed then w.failed + {task} else w.failed) && w'.released == w.released
              && w'.slots == w.slots && w'.tracker == w.tracker
            else if step.ReleaseExecuted? then Releases(w', task) == Releases(w, task) + 1 && w'.slots == w.slots
            else if step.GiveSlot? then w'.slots == w.slots - 1 && w'.tracker == w.tracker && w'.released == w.released
            else w'.tracker.count == w.tracker.count - 1 && (w'.tracker.done <==> w.tracker.count == 1 || w.tracker.done)
  {
  }

  /** The coordinator takes slots up to four, and gives up a task it cannot start with one release and its slot. */
  lemma CoordinatesExactly(w: World, step: Step, w': World)
    requires Takes(w, step, w')
    ensures step.TakeSlot? ==> w.slots < 4 && w' == w.(slots := w.slots + 1, coordinator := Slotted)
    ensures step.ClaimTask? ==> w' == w.(claimed := w.claimed + {step.task}, coordinator := Deciding(step.task))
    ensures step.Accept? ==> w' == w.(coordinator := Launching(w.coordinator.task))
    ensures step.Refuse? ==>
              && Releases(w', w.coordinator.task) == Releases(w, w.coordinator.task) + 1
              && w'.coordinator == (if step.goOn then Looping else Exited) && w'.executed == w.executed
    ensures step.ClaimTaskWithError? ==>
              Releases(w', step.task) == Releases(w, step.task) + 1 && w'.coordinator == Exited && w'.claimed == w.claimed + {step.task}
    ensures step.Leave? ==> w' == w.(coordinator := Exited)
    ensures step.StopTracker? ==> w' == w.(tracker := w.tracker.(stopped := true))
  {
  }

  /** After the tracker was stopped no execution starts, and a claimed task can only be released. */
  lemma {:induction false} NothingStartsAfterStop(w: World, steps: seq<Step>, w': World)
    requires w.tracker.stopped && Leads(Takes, w, steps, w')
    ensures w'.tracker.stopped && w'.executed == w.executed
  {
    var executed := w.executed;
    forall x, step, y | Halted(x, executed) && Takes(x, step, y) ensures Halted(y, executed) {
    }
    Invariance(Takes, step => true, x => Halted(x, executed), w, steps, w');
  }

  predicate Halted(w: World, executed: set<TaskId>) { w.tracker.stopped && w.executed == executed }
}

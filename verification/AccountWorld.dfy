/**
 The state of the account owner registry and of every goroutine inside it
 (accountowner/registry.go, account_slot.go, runtime_entry.go, owner_runtime.go).

 A goroutine's program counter records where it stands between two critical
 sections and what it has read.  The registry mutex is explicit: a section that
 reads a slot before it acts on it is split, because slot.mu-only sections of
 other goroutines run in between.
 */
module AccountWorld {
  import opened Options
  import opened Targets
  import opened Slots
  import Fences

  type Tid = nat
  type SlotId = nat

  /** The gates are one-token channels; the token's holder is named. */
  datatype Slot = Slot(
    key: nat, core: Core, gate: Option<Tid>, teardownGate: Option<Tid>,
    revokeRunning: bool, revokeWaiters: nat)

  /** owner: `callback` is the goroutine whose callback the dispatcher is executing. */
  datatype Owner = Owner(started: bool, stopping: bool, completed: bool, result: Failure, callback: Option<Tid>)

  const NEW_OWNER := Owner(false, false, false, Success, None)

  /** Between the start and the return of Run. */
  predicate Runs(owner: Owner) { owner.started && !owner.completed }

  /** owner.Stop: a stop before Run consumes the owner. */
  function Stopped(owner: Owner): Owner {
    if owner.started then
      if owner.completed then owner else owner.(stopping := true)
    else owner.(started := true, stopping := true, completed := true, result := OwnerStopped)
  }

  /** runtimeEntry: `runner` is the goroutine that builds and runs it. */
  datatype Entry = Entry(
    slot: SlotId, target: Target, privateRevoke: bool,
    built: bool, buildErr: Failure, owner: Option<Owner>, runner: Tid)

  function NewEntry(s: SlotId, target: Target, privateRevoke: bool, runner: Tid): Entry {
    Entry(s, target, privateRevoke, false, Success, None, runner)
  }

  /** Nothing of the entry's owner is running or may still start. */
  predicate Quiescent(entry: Entry) {
    entry.owner.None? || entry.owner.value.completed
  }

  // ------------------------------------------------------------ program counters

  datatype Want = ToExecute(target: Target) | ToRevoke(target: Target)

  datatype ExecAt =
    | Opening | AtGate | Beginning | Operating | Calling | Finishing | Sweeping | Ungating | Closing | Closed

  datatype DownAt =
    | AwaitRevoke | AwaitGate | Checking | AwaitBuilt | AwaitDrain | Stopping | Joining
    | Uninstalling(ok: bool) | Unprotecting(ok: bool) | Removing(ok: bool) | Releasing(ok: bool)

  type Retired = set<(SlotId, Option<EntryId>)>

  /** Where a teardown returns to. */
  datatype Cont = Readmit(want: Want) | EndStopAccount | NextRetired(rest: Retired) | NextStopped(rest: Retired)

  /** `failure` is what executeRevoke returned; `built` what teardownRevoke knows of the build. */
  datatype RevokeAt =
    | Draining | Ready | Privileged
    | TearBuilt(failure: Failure) | TearDrain(failure: Failure, known: bool)
    | TearStop(failure: Failure, known: bool) | TearJoin(failure: Failure, known: bool)
    | TearUninstall | TearUnprotect | TearRemove | TearFence | TearDone

  datatype Pc =
    | Idle
    | Crashed
    // reserve and acquireRevoke
    | Retry(want: Want)
    | NoSlot(want: Want)
    | Victim(want: Want, s: SlotId, e: EntryId)
    | NoRoom(want: Want)
    | Admit(target: Target, s: SlotId, seen: Option<EntryId>, stopSeen: bool)
    | Exec(at: ExecAt, target: Target, s: SlotId, e: EntryId)
    // buildEntry and runEntry
    | Build(s: SlotId, e: EntryId)
    | RunReady(s: SlotId, e: EntryId)
    | Running(s: SlotId, e: EntryId)
    | RunExit(s: SlotId, e: EntryId, failure: Failure)
    | RunSave(s: SlotId, e: EntryId, failure: Failure)
    | Sweep(s: SlotId)
    // teardown
    | Down(down: DownAt, s: SlotId, e: EntryId, cont: Cont)
    // RevokeAndStop
    | RevokeWait(target: Target, s: SlotId)
    | RevokeTurn(target: Target, s: SlotId)
    | RevokeTop(target: Target, s: SlotId)
    | RevokeRead(target: Target, s: SlotId, seen: Option<EntryId>)
    | Revoke(rev: RevokeAt, target: Target, s: SlotId, e: EntryId, stale: bool)
    | RevokeLeave(target: Target, s: SlotId, fenced: bool)
    | RevokeUngate(s: SlotId)
    // StopAccount
    | StopRead(target: Target, s: SlotId, seen: Option<EntryId>)
    // evictIdle
    | Reap(retired: Retired)
    | ReapVictim(s: SlotId, e: EntryId, retired: Retired)
    | ReapEach(retired: Retired)
    // Stop
    | StopAll(todo: set<SlotId>)
    | StopClose(s: SlotId, todo: set<SlotId>)
    | StopLoop
    | StopEach(retired: Retired)

  datatype World = World(
    capacity: nat, mu: Option<Tid>, stopped: bool, rootStopped: bool,
    table: map<nat, SlotId>, slots: map<SlotId, Slot>, entries: map<EntryId, Entry>,
    fences: Fences.Table, threads: map<Tid, Pc>,
    // history: entries whose owner a revoke gave up on without joining it
    masked: set<EntryId>)

  function Initial(capacity: nat): World {
    World(capacity, None, false, false, map[], map[], map[], Fences.Table(map[], 0, capacity), map[], {})
  }

  function PcOf(w: World, t: Tid): Pc {
    if t in w.threads then w.threads[t] else Idle
  }

  predicate InTable(w: World, s: SlotId) {
    s in w.slots && w.slots[s].key in w.table && w.table[w.slots[s].key] == s
  }

  // -------------------------------------------------------- what a counter implies

  predicate HoldsMu(pc: Pc) {
    || pc.NoSlot? || pc.Victim? || pc.NoRoom? || pc.Admit? || pc.RevokeRead? || pc.StopRead?
    || pc.Reap? || pc.ReapVictim? || pc.StopAll? || pc.StopClose?
  }

  /** One open handle on the slot. */
  predicate HoldsHandle(pc: Pc) { pc.Exec? && pc.at != Closed }

  predicate HoldsGate(pc: Pc) {
    pc.Exec? && pc.at in {Beginning, Operating, Calling, Finishing, Sweeping, Ungating}
  }

  /** Between beginOperation and finishOperation. */
  predicate InOperation(pc: Pc) { pc.Exec? && pc.at in {Operating, Calling, Finishing} }

  predicate RevokeRuns(pc: Pc) {
    pc.RevokeTop? || pc.RevokeRead? || pc.Revoke? || pc.RevokeLeave?
  }

  predicate DownHolds(pc: Pc) {
    pc.Down? && !pc.down.AwaitRevoke? && !pc.down.AwaitGate?
  }

  predicate HoldsTeardown(pc: Pc) {
    DownHolds(pc) || RevokeRuns(pc) || pc.RevokeTurn? || pc.RevokeUngate?
  }

  /** An ordinary teardown that found its entry installed and has not uninstalled it. */
  predicate Pins(pc: Pc) {
    pc.Down? && (pc.down.AwaitBuilt? || pc.down.AwaitDrain? || pc.down.Stopping? || pc.down.Joining?
                 || pc.down.Uninstalling?)
  }

  /** A revoke between its fence and its uninstall. */
  predicate Fenced(pc: Pc) {
    pc.Revoke? && !pc.stale
    && (pc.rev.Draining? || pc.rev.Ready? || pc.rev.Privileged? || pc.rev.TearBuilt? || pc.rev.TearDrain?
        || pc.rev.TearStop? || pc.rev.TearJoin? || pc.rev.TearUninstall?)
  }

  /** A revoke that has closed admission and not yet released the slot. */
  predicate Excludes(pc: Pc) {
    (pc.Revoke? && !pc.stale) || (pc.RevokeLeave? && pc.fenced)
  }

  predicate RunsPrivileged(pc: Pc) { pc.Revoke? && pc.rev.Privileged? }

  predicate RunsOrdinary(pc: Pc) { pc.Exec? && pc.at.Calling? }

  predicate HasEntry(pc: Pc) {
    || pc.Victim? || pc.Exec? || pc.Build? || pc.RunReady? || pc.Running? || pc.RunExit? || pc.RunSave?
    || pc.Down? || pc.Revoke? || pc.ReapVictim?
  }

  predicate IsRunner(pc: Pc) {
    pc.Build? || pc.RunReady? || pc.Running? || pc.RunExit? || pc.RunSave?
  }

  predicate HasSlot(pc: Pc) {
    || HasEntry(pc) || pc.Admit? || pc.Sweep? || pc.RevokeWait? || pc.RevokeTurn? || pc.RevokeTop?
    || pc.RevokeRead? || pc.RevokeLeave? || pc.RevokeUngate? || pc.StopRead? || pc.StopClose?
  }

  /** Counted in revokeWaiters. */
  predicate Waits(pc: Pc) { pc.RevokeWait? || pc.RevokeTurn? }

  /** Slots picked for teardown that a continuation still has to visit. */
  function Pending(pc: Pc): Retired {
    match pc
    case Reap(retired) => retired
    case ReapVictim(_, _, retired) => retired
    case ReapEach(retired) => retired
    case StopEach(retired) => retired
    case Down(_, _, _, NextRetired(rest)) => rest
    case Down(_, _, _, NextStopped(rest)) => rest
    case _ => {}
  }
}

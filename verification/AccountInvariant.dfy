/**
 What holds in every reachable state of the account owner registry, stated one
 slot, one entry and one goroutine at a time.
 */
module AccountInvariant {
  import opened Options
  import opened Targets
  import opened Slots
  import opened AccountWorld
  import opened AccountSteps
  import Fences

  // -------------------------------------------------------------------- one slot

  predicate Inert(slot: Slot) {
    Removable(slot.core) && !slot.revokeRunning && slot.revokeWaiters == 0
  }

  /** The account gate admits one operation at a time; `active` counts it. */
  ghost predicate GateOk(w: World, s: SlotId)
    requires s in w.slots
  {
    && (w.slots[s].gate.Some? ==>
          w.slots[s].gate.value in w.threads && GateAt(w.threads[w.slots[s].gate.value], s))
    && w.slots[s].core.active ==
         (if w.slots[s].gate.Some? && OperationAt(w.threads[w.slots[s].gate.value], s) then 1 else 0)
  }

  /** A running revoke holds the teardown gate. */
  ghost predicate RevokeFlagOk(w: World, s: SlotId)
    requires s in w.slots
  {
    w.slots[s].revokeRunning ==>
      && w.slots[s].teardownGate.Some? && w.slots[s].teardownGate.value in w.threads
      && RevokeAtSlot(w.threads[w.slots[s].teardownGate.value], s)
  }

  /** A standing fence keeps the entry it covers closed. */
  ghost predicate FencedShut(w: World, s: SlotId)
    requires s in w.slots
  {
    var core := w.slots[s].core;
    (core.current.Some? && core.current.value in w.entries
     && Fences.Blocks(w.fences, w.slots[s].key, w.entries[core.current.value].target.version))
    ==> core.closed
  }

  ghost function ToClose(w: World): set<SlotId> {
    if w.mu.None? || w.mu.value !in w.threads then {} else
    match w.threads[w.mu.value]
    case StopAll(todo) => todo
    case StopClose(s, todo) => todo + {s}
    case _ => {}
  }

  /** Once stopped, an installed entry is closed, or the stopping section is about to close it. */
  ghost predicate StoppedShut(w: World, s: SlotId)
    requires s in w.slots
  {
    (w.stopped && InTable(w, s) && w.slots[s].core.current.Some? && !w.slots[s].core.closed) ==> s in ToClose(w)
  }

  ghost predicate SlotOk(w: World, s: SlotId)
    requires s in w.slots
  {
    && Valid(w.slots[s].core)
    && (w.slots[s].core.current.Some? ==>
          w.slots[s].core.current.value in w.entries && w.entries[w.slots[s].core.current.value].slot == s)
    && (!InTable(w, s) ==> Inert(w.slots[s]))
    && GateOk(w, s) && RevokeFlagOk(w, s) && FencedShut(w, s) && StoppedShut(w, s)
  }

  // ------------------------------------------------------------------- one entry

  /** What an entry alone satisfies. */
  predicate EntryShape(entry: Entry) {
    && (entry.owner.Some? ==> entry.built)
    && (entry.built && entry.buildErr != Success ==> Quiescent(entry))
    && (entry.owner.Some? ==>
          && (entry.owner.value.completed ==> entry.owner.value.started)
          && (entry.owner.value.callback.Some? ==> Runs(entry.owner.value)))
  }

  function CallbackOf(entry: Entry): Option<Tid> {
    if entry.owner.Some? then entry.owner.value.callback else None
  }

  /** An owner that may still run is the installed one, unless a revoke gave up on it. */
  ghost predicate EntryOk(w: World, e: EntryId)
    requires e in w.entries
  {
    var entry := w.entries[e];
    && EntryShape(entry)
    && entry.slot in w.slots && w.slots[entry.slot].key == entry.target.key
    && (!Quiescent(entry) && e !in w.masked ==> w.slots[entry.slot].core.current == Some(e))
    && (CallbackOf(entry).Some? ==>
          CallbackOf(entry).value in w.threads && CallsOn(w.threads[CallbackOf(entry).value], e))
  }

  // --------------------------------------------------------------- one goroutine

  predicate GateAt(pc: Pc, s: SlotId) { HoldsGate(pc) && pc.s == s }
  predicate OperationAt(pc: Pc, s: SlotId) { InOperation(pc) && pc.s == s }
  predicate TeardownAt(pc: Pc, s: SlotId) { HoldsTeardown(pc) && pc.s == s }
  predicate RevokeAtSlot(pc: Pc, s: SlotId) { RevokeRuns(pc) && pc.s == s }
  predicate HandleAt(pc: Pc, s: SlotId) { HoldsHandle(pc) && pc.s == s }
  predicate WaitsAt(pc: Pc, s: SlotId) { Waits(pc) && pc.s == s }
  predicate CallsOn(pc: Pc, e: EntryId) { (RunsOrdinary(pc) || RunsPrivileged(pc)) && pc.e == e }

  ghost predicate RefsOk(w: World, pc: Pc) {
    && (HasSlot(pc) ==> pc.s in w.slots)
    && (HasEntry(pc) ==> pc.e in w.entries && w.entries[pc.e].slot == pc.s)
    && (Waits(pc) || RevokeRuns(pc) ==> w.slots[pc.s].key == pc.target.key)
  }

  ghost predicate HoldsOk(w: World, t: Tid, pc: Pc)
    requires RefsOk(w, pc)
  {
    && (HoldsMu(pc) ==> w.mu == Some(t))
    && (HoldsGate(pc) ==> w.slots[pc.s].gate == Some(t))
    && (HoldsTeardown(pc) ==> w.slots[pc.s].teardownGate == Some(t))
    && (RevokeRuns(pc) ==> w.slots[pc.s].revokeRunning)
  }

  ghost predicate CallsOk(w: World, t: Tid, pc: Pc)
    requires RefsOk(w, pc)
  {
    RunsOrdinary(pc) || RunsPrivileged(pc) ==> CallbackOf(w.entries[pc.e]) == Some(t)
  }

  ghost predicate RunnerOk(w: World, t: Tid, pc: Pc)
    requires RefsOk(w, pc)
  {
    IsRunner(pc) ==>
      var entry := w.entries[pc.e];
      && entry.runner == t
      && (if pc.Build? then !entry.built else
            && entry.built && entry.owner.Some?
            && (pc.RunReady? ==> entry.owner.value.started ==> entry.owner.value.completed)
            && (pc.Running? ==> Runs(entry.owner.value))
            && (pc.RunExit? || pc.RunSave? ==> entry.owner.value.completed))
  }

  /** The entry a section read is still there or has left; it was not replaced. */
  ghost predicate SeenOk(w: World, s: SlotId, seen: Option<EntryId>) {
    && InTable(w, s)
    && (seen.Some? ==> seen.value in w.entries && w.entries[seen.value].slot == s)
    && (w.slots[s].core.current == seen || w.slots[s].core.current.None?)
  }

  predicate WantOk(w: World, want: Want) {
    && !w.stopped && want.target.key !in w.table
    && (want.ToExecute? ==> !Fences.Blocks(w.fences, want.target.key, want.target.version))
  }

  /** What a section that holds the registry mutex knows. */
  ghost predicate SectionOk(w: World, pc: Pc) {
    match pc
    case NoSlot(want) => WantOk(w, want)
    case NoRoom(want) => WantOk(w, want)
    case Victim(want, s, e) => WantOk(w, want) && SeenOk(w, s, Some(e))
    case Admit(target, s, seen, stopSeen) =>
      && !w.stopped && SeenOk(w, s, seen) && w.slots[s].key == target.key
      && !Fences.Blocks(w.fences, target.key, target.version)
      && (stopSeen && w.slots[s].core.current.Some? ==> w.slots[s].core.closed)
    case RevokeRead(target, s, seen) => !w.stopped && SeenOk(w, s, seen)
    case StopRead(target, s, seen) => !w.stopped && SeenOk(w, s, seen) && w.slots[s].key == target.key
    case ReapVictim(s, e, _) => SeenOk(w, s, Some(e))
    case StopAll(todo) => w.stopped && forall s <- todo :: InTable(w, s)
    case StopClose(s, todo) => w.stopped && InTable(w, s) && forall r <- todo :: InTable(w, r)
    case _ => true
  }

  predicate Uninstalled(down: AccountWorld.DownAt) {
    down.Unprotecting? || down.Removing? || (down.Releasing? && down.ok)
  }

  /** What an ordinary teardown has established. */
  ghost predicate DownOk(w: World, pc: Pc)
    requires RefsOk(w, pc)
  {
    pc.Down? ==>
      var core, entry := w.slots[pc.s].core, w.entries[pc.e];
      && (core.current == Some(pc.e) ==> core.closed)
      && (Pins(pc) ==> core.current == Some(pc.e))
      && (pc.down.AwaitDrain? || pc.down.Stopping? || pc.down.Joining? || pc.down.Uninstalling? ==> entry.built)
      && (pc.down.Stopping? ==> core.active == 0)
      && (pc.down.Joining? ==> entry.owner.Some?)
      && (pc.down.Uninstalling? ==> Quiescent(entry))
      && (Uninstalled(pc.down) ==> core.current != Some(pc.e))
  }

  /** What a revoke of `target` may revoke: its own private entry, or the signed-in version before it. */
  predicate Revocable(installed: Target, target: Target) {
    installed.key == target.key
    && (installed == target || (installed.version == target.version - 1 && installed.status in {Active, ReauthRequired}))
  }

  predicate Known(rev: AccountWorld.RevokeAt) {
    (rev.TearDrain? || rev.TearStop? || rev.TearJoin?) && rev.known
  }

  /** What a revoke has established. */
  ghost predicate RevokeOk(w: World, pc: Pc)
    requires RefsOk(w, pc)
  {
    && (Excludes(pc) ==> w.slots[pc.s].core.closed || w.slots[pc.s].core.current.None?)
    && (pc.Revoke? ==>
      var core, entry := w.slots[pc.s].core, w.entries[pc.e];
      && (Fenced(pc) ==> core.closed) && (pc.stale || Revocable(entry.target, pc.target))
      && (pc.rev.Draining? || pc.rev.Ready? || pc.rev.Privileged? ==> !pc.stale)
      && (pc.rev.Ready? || pc.rev.Privileged? ==> core.active == 0)
      && (Known(pc.rev) || pc.rev.TearUninstall? ==> entry.built)
      && (pc.rev.TearJoin? ==> entry.owner.Some? && entry.owner.value.started)
      && (pc.rev.TearUninstall? ==> Quiescent(entry) || pc.e in w.masked))
  }

  ghost predicate PendingOk(w: World, pc: Pc) {
    forall item <- Pending(pc) ::
      && item.0 in w.slots
      && (item.1.Some? ==>
            && item.1.value in w.entries && w.entries[item.1.value].slot == item.0
            && (w.slots[item.0].core.current == item.1 ==> w.slots[item.0].core.closed))
  }

  /** The goroutines of Stop run after the registry was stopped. */
  predicate StopsOk(w: World, pc: Pc) {
    pc.StopLoop? || pc.StopEach? || (pc.Down? && pc.cont.NextStopped?) ==> w.stopped
  }

  ghost predicate ThreadOk(w: World, t: Tid, pc: Pc) {
    && StopsOk(w, pc) && RefsOk(w, pc) && HoldsOk(w, t, pc) && CallsOk(w, t, pc) && RunnerOk(w, t, pc) && SectionOk(w, pc)
    && DownOk(w, pc) && RevokeOk(w, pc) && PendingOk(w, pc)
  }

  // ------------------------------------------------------------------- everything

  ghost function Holders(threads: map<Tid, Pc>, s: SlotId): set<Tid> {
    set t | t in threads && HandleAt(threads[t], s)
  }

  ghost function Waiters(threads: map<Tid, Pc>, s: SlotId): set<Tid> {
    set t | t in threads && WaitsAt(threads[t], s)
  }

  ghost predicate CountsOk(w: World) {
    forall s <- w.slots ::
      && w.slots[s].core.handles == |Holders(w.threads, s)|
      && w.slots[s].revokeWaiters == |Waiters(w.threads, s)|
  }

  ghost predicate TableOk(w: World) {
    && |w.table| <= w.capacity
    && (forall k <- w.table :: w.table[k] in w.slots && w.slots[w.table[k]].key == k)
  }

  ghost predicate Inv(w: World) {
    && TableOk(w) && CountsOk(w) && Fences.Valid(w.fences)
    && (w.mu.Some? ==> w.mu.value in w.threads && HoldsMu(w.threads[w.mu.value]))
    && (w.rootStopped ==> w.stopped && AllEmpty(w))
    && (forall s <- w.slots :: SlotOk(w, s))
    && (forall e <- w.entries :: EntryOk(w, e))
    && (forall t <- w.threads :: ThreadOk(w, t, w.threads[t]))
  }
}

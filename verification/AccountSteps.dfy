/**
 The steps of the account owner registry, one per critical section, channel
 operation or owner event.  A step is named after the code it stands for; its
 guard says when it may happen and its function says what it does.  Contexts
 may be cancelled and bounded waits may expire at any time.
 */
module AccountSteps {
  import opened Options
  import opened Targets
  import opened Slots
  import opened AccountWorld
  import Fences

  function Put(w: World, t: Tid, pc: Pc): World {
    w.(threads := w.threads[t := pc])
  }

  function SetCore(w: World, s: SlotId, core: Core): World
    requires s in w.slots
  {
    w.(slots := w.slots[s := w.slots[s].(core := core)])
  }

  function SetOwner(w: World, e: EntryId, owner: Owner): World
    requires e in w.entries
  {
    w.(entries := w.entries[e := w.entries[e].(owner := Some(owner))])
  }

  function Unlock(w: World, t: Tid, pc: Pc): World {
    Put(w, t, pc).(mu := None)
  }

  function Lock(w: World, t: Tid, pc: Pc): World {
    Put(w, t, pc).(mu := Some(t))
  }

  /** removeSlot, with the registry mutex held. */
  function Swept(w: World, s: SlotId): World {
    if InTable(w, s) && Removable(w.slots[s].core) && !w.slots[s].revokeRunning && w.slots[s].revokeWaiters == 0
    then w.(table := w.table - {w.slots[s].key})
    else w
  }

  /** A fresh entry published in slot `s` and the goroutine `b` that builds it. */
  function Installed(w: World, s: SlotId, target: Target, privateRevoke: bool, e: EntryId, b: Tid): World
    requires s in w.slots
  {
    SetCore(Put(w, b, Build(s, e)), s, w.slots[s].core.(current := Some(e)))
      .(entries := w.entries[e := NewEntry(s, target, privateRevoke, b)])
  }

  predicate Fresh(w: World, t: Tid, e: EntryId, b: Tid) {
    e !in w.entries && b !in w.threads && b != t
  }

  // ------------------------------------------------ reserve and acquireRevoke

  predicate CanBegin(w: World, t: Tid, want: Want) {
    PcOf(w, t).Idle? && (if want.ToExecute? then MayExecute(want.target) else MayRevoke(want.target))
  }

  function DoBegin(w: World, t: Tid, want: Want): World {
    Put(w, t, Retry(want))
  }

  predicate CanLookup(w: World, t: Tid) { PcOf(w, t).Retry? && w.mu.None? }

  function DoLookup(w: World, t: Tid): World
    requires CanLookup(w, t)
  {
    var want := PcOf(w, t).want;
    var key := want.target.key;
    if w.stopped then Put(w, t, Idle)
    else if want.ToExecute? && Fences.Blocks(w.fences, key, want.target.version) then Put(w, t, Idle)
    else if key !in w.table || w.table[key] !in w.slots then Lock(w, t, NoSlot(want))
    else
      var s := w.table[key];
      if want.ToRevoke? then AddWaiter(w, t, want.target, s)
      else Lock(w, t, Admit(want.target, s, w.slots[s].core.current, w.slots[s].core.stopping))
  }

  function AddWaiter(w: World, t: Tid, target: Target, s: SlotId): World
    requires s in w.slots
  {
    Unlock(w, t, RevokeWait(target, s))
      .(slots := w.slots[s := w.slots[s].(revokeWaiters := w.slots[s].revokeWaiters + 1)])
  }

  /** makeCapacity finds an idle slot; the live count it compares never exceeds the table. */
  predicate CanPickVictim(w: World, t: Tid, s: SlotId) {
    PcOf(w, t).NoSlot? && InTable(w, s) && Idling(w.slots[s].core) && |w.table| >= w.capacity
  }

  function DoPickVictim(w: World, t: Tid, s: SlotId): World
    requires CanPickVictim(w, t, s)
  {
    Put(w, t, Victim(PcOf(w, t).want, s, w.slots[s].core.current.value))
  }

  predicate CanPickNone(w: World, t: Tid) { PcOf(w, t).NoSlot? }

  function DoPickNone(w: World, t: Tid): World
    requires CanPickNone(w, t)
  {
    Put(w, t, NoRoom(PcOf(w, t).want))
  }

  /** The victim is read again before it is closed; by then its run may have ended. */
  predicate CanCloseVictim(w: World, t: Tid, seen: bool) {
    var pc := PcOf(w, t);
    pc.Victim? && pc.s in w.slots && (seen || w.slots[pc.s].core.current.None?)
  }

  function DoCloseVictim(w: World, t: Tid, seen: bool): World
    requires CanCloseVictim(w, t, seen)
  {
    var pc := PcOf(w, t);
    var w' := SetCore(w, pc.s, CloseAdmission(w.slots[pc.s].core));
    if seen then Unlock(w', t, Down(AwaitRevoke, pc.s, pc.e, Readmit(pc.want)))
    else Put(w', t, NoRoom(pc.want))
  }

  predicate CanMakeSlot(w: World, t: Tid, s: SlotId) { PcOf(w, t).NoRoom? && s !in w.slots }

  function DoMakeSlot(w: World, t: Tid, s: SlotId): World
    requires CanMakeSlot(w, t, s)
  {
    var want := PcOf(w, t).want;
    if |w.table| >= w.capacity then Unlock(w, t, Idle)
    else
      var slot := Slot(want.target.key, EMPTY, None, None, false, 0);
      var w' := w.(slots := w.slots[s := slot], table := w.table[want.target.key := s]);
      if want.ToRevoke? then AddWaiter(w', t, want.target, s)
      else Put(w', t, Admit(want.target, s, None, false))
  }

  /** The stopping flag is read after the entry; a teardown may finish in between. */
  predicate CanAdmit(w: World, t: Tid, stopSeen: bool, e: EntryId, b: Tid) {
    var pc := PcOf(w, t);
    && pc.Admit? && pc.s in w.slots && Fresh(w, t, e, b)
    && (stopSeen == pc.stopSeen || stopSeen == w.slots[pc.s].core.stopping)
    && (pc.seen.Some? ==> pc.seen.value in w.entries)
  }

  function DoAdmit(w: World, t: Tid, stopSeen: bool, e: EntryId, b: Tid): World
    requires CanAdmit(w, t, stopSeen, e, b)
  {
    var pc := PcOf(w, t);
    var slot := w.slots[pc.s];
    if slot.revokeRunning || slot.revokeWaiters > 0 then Unlock(w, t, Idle)
    else match pc.seen
      case Some(installed) =>
        var current := w.entries[installed].target;
        if current == pc.target && !stopSeen then
          if CanReserve(slot.core, installed) then
            Unlock(SetCore(w, pc.s, ReserveHandle(slot.core)), t, Exec(Opening, pc.target, pc.s, installed))
          else Unlock(w, t, Idle)
        else if pc.target.version <= current.version then Unlock(w, t, Idle)
        else
          var w' := if stopSeen then w else SetCore(w, pc.s, CloseAdmission(slot.core));
          Unlock(w', t, Down(AwaitRevoke, pc.s, installed, Readmit(ToExecute(pc.target))))
      case None =>
        if stopSeen || w.stopped || slot.core.current.Some? || slot.core.closed || slot.core.stopping
        then Unlock(w, t, Idle)
        else
          var w' := Installed(w, pc.s, pc.target, false, e, b);
          Unlock(SetCore(w', pc.s, ReserveHandle(w'.slots[pc.s].core)), t, Exec(Opening, pc.target, pc.s, e))
  }

  // ------------------------------------------------------- open, Execute, Close

  predicate At(w: World, t: Tid, at: ExecAt) {
    PcOf(w, t).Exec? && PcOf(w, t).at == at && PcOf(w, t).s in w.slots && PcOf(w, t).e in w.entries
  }

  function Move(w: World, t: Tid, at: ExecAt): World
    requires PcOf(w, t).Exec?
  {
    Put(w, t, PcOf(w, t).(at := at))
  }

  function Verdict(w: World, t: Tid): Failure
    requires PcOf(w, t).Exec? && PcOf(w, t).s in w.slots && PcOf(w, t).e in w.entries
  {
    var pc := PcOf(w, t);
    AdmissionError(w.slots[pc.s].core, pc.e, w.entries[pc.e].target, pc.target)
  }

  /** open returns a handle: the entry is built, its owner was ready and admission still holds. */
  predicate CanOpen(w: World, t: Tid) {
    && At(w, t, Opening) && Verdict(w, t) == Success
    && var entry := w.entries[PcOf(w, t).e]; entry.built && entry.buildErr == Success && entry.owner.Some?
  }

  function DoOpen(w: World, t: Tid): World requires CanOpen(w, t) { Move(w, t, AtGate) }

  /** open fails, or Execute gives up before its gate; either way the handle is closed. */
  predicate CanGiveUp(w: World, t: Tid) { At(w, t, Opening) || At(w, t, AtGate) }

  function DoGiveUp(w: World, t: Tid): World requires CanGiveUp(w, t) { Move(w, t, Closing) }

  predicate CanTakeGate(w: World, t: Tid) { At(w, t, AtGate) && w.slots[PcOf(w, t).s].gate.None? }

  function DoTakeGate(w: World, t: Tid): World
    requires CanTakeGate(w, t)
  {
    var s := PcOf(w, t).s;
    Move(w, t, Beginning).(slots := w.slots[s := w.slots[s].(gate := Some(t))])
  }

  predicate CanBeginOperation(w: World, t: Tid) { At(w, t, Beginning) }

  function DoBeginOperation(w: World, t: Tid): World
    requires CanBeginOperation(w, t)
  {
    var s := PcOf(w, t).s;
    if Verdict(w, t) == Success
    then SetCore(Move(w, t, Operating), s, BeginOperation(w.slots[s].core))
    else Move(w, t, Ungating)
  }

  /** The dispatcher starts the callback after checkAdmission passed on its own goroutine. */
  predicate CanCall(w: World, t: Tid) {
    && At(w, t, Operating) && Verdict(w, t) == Success
    && var owner := w.entries[PcOf(w, t).e].owner;
       owner.Some? && Runs(owner.value) && owner.value.callback.None?
  }

  function DoCall(w: World, t: Tid): World
    requires CanCall(w, t)
  {
    var e := PcOf(w, t).e;
    SetOwner(Move(w, t, Calling), e, w.entries[e].owner.value.(callback := Some(t)))
  }

  predicate CanReturn(w: World, t: Tid) { At(w, t, Calling) && w.entries[PcOf(w, t).e].owner.Some? }

  function DoReturn(w: World, t: Tid): World
    requires CanReturn(w, t)
  {
    var e := PcOf(w, t).e;
    SetOwner(Move(w, t, Finishing), e, w.entries[e].owner.value.(callback := None))
  }

  /** The operation ends without its callback: not ready, rejected, cancelled or the owner is done. */
  predicate CanAbandon(w: World, t: Tid) { At(w, t, Operating) }

  function DoAbandon(w: World, t: Tid): World requires CanAbandon(w, t) { Move(w, t, Finishing) }

  /** Guarded where the source would panic. */
  predicate CanFinish(w: World, t: Tid) { At(w, t, Finishing) && w.slots[PcOf(w, t).s].core.active > 0 }

  function DoFinish(w: World, t: Tid): World
    requires CanFinish(w, t)
  {
    var s := PcOf(w, t).s;
    SetCore(Move(w, t, Sweeping), s, FinishOperation(w.slots[s].core))
  }

  /** finishStoppedEntry; what it read before removeSlot may be out of date either way. */
  predicate CanSweepAfter(w: World, t: Tid, sweep: bool) { At(w, t, Sweeping) && (sweep ==> w.mu.None?) }

  function DoSweepAfter(w: World, t: Tid, sweep: bool): World
    requires CanSweepAfter(w, t, sweep)
  {
    Move(if sweep then Swept(w, PcOf(w, t).s) else w, t, Ungating)
  }

  predicate CanGiveGate(w: World, t: Tid) { At(w, t, Ungating) }

  function DoGiveGate(w: World, t: Tid): World
    requires CanGiveGate(w, t)
  {
    var s := PcOf(w, t).s;
    Move(w, t, Closing).(slots := w.slots[s := w.slots[s].(gate := None)])
  }

  /** Close reaches releaseHandle; guarded where the source would panic. */
  predicate CanDrop(w: World, t: Tid) { At(w, t, Closing) && w.slots[PcOf(w, t).s].core.handles > 0 }

  function DoDrop(w: World, t: Tid): World
    requires CanDrop(w, t)
  {
    var s := PcOf(w, t).s;
    SetCore(Move(w, t, Closed), s, ReleaseHandle(w.slots[s].core))
  }

  predicate CanEndExecute(w: World, t: Tid, sweep: bool) { At(w, t, Closed) && (sweep ==> w.mu.None?) }

  function DoEndExecute(w: World, t: Tid, sweep: bool): World
    requires CanEndExecute(w, t, sweep)
  {
    Put(if sweep then Swept(w, PcOf(w, t).s) else w, t, Idle)
  }

  // --------------------------------------------------------- buildEntry, runEntry

  predicate CanBuilt(w: World, t: Tid, failure: Failure) {
    PcOf(w, t).Build? && w.mu.None? && PcOf(w, t).s in w.slots && PcOf(w, t).e in w.entries
  }

  function DoBuilt(w: World, t: Tid, failure: Failure): World
    requires CanBuilt(w, t, failure)
  {
    var pc := PcOf(w, t);
    var slot := w.slots[pc.s];
    var valid := !w.stopped && slot.core.current == Some(pc.e) && (!slot.core.closed || slot.revokeRunning);
    if failure == Success && valid then
      var entry := w.entries[pc.e].(built := true, buildErr := Success, owner := Some(NEW_OWNER));
      Put(w, t, RunReady(pc.s, pc.e)).(entries := w.entries[pc.e := entry])
    else
      var entry := w.entries[pc.e]
        .(built := true, buildErr := if failure == Success then AccountStopped else failure, owner := None);
      var w' := w.(entries := w.entries[pc.e := entry]);
      if valid then SetCore(Put(w', t, Sweep(pc.s)), pc.s, slot.core.(current := None))
      else Put(w', t, Idle)
  }

  predicate OwnerOf(w: World, e: EntryId) { e in w.entries && w.entries[e].owner.Some? }

  /** Run is one-shot: an owner consumed by Stop returns ErrAlreadyRun at once. */
  predicate CanRun(w: World, t: Tid) { PcOf(w, t).RunReady? && OwnerOf(w, PcOf(w, t).e) }

  function DoRun(w: World, t: Tid): World
    requires CanRun(w, t)
  {
    var pc := PcOf(w, t);
    var owner := w.entries[pc.e].owner.value;
    if owner.started then Put(w, t, RunExit(pc.s, pc.e, Other))
    else SetOwner(Put(w, t, Running(pc.s, pc.e)), pc.e, owner.(started := true))
  }

  /** The client's Run returns only after its dispatch loop has, so no callback is executing. */
  predicate CanRunReturn(w: World, t: Tid, failure: Failure) {
    PcOf(w, t).Running? && OwnerOf(w, PcOf(w, t).e) && w.entries[PcOf(w, t).e].owner.value.callback.None?
  }

  function DoRunReturn(w: World, t: Tid, failure: Failure): World
    requires CanRunReturn(w, t, failure)
  {
    var pc := PcOf(w, t);
    SetOwner(Put(w, t, RunExit(pc.s, pc.e, failure)), pc.e,
             w.entries[pc.e].owner.value.(completed := true, result := failure))
  }

  predicate CanRunExit(w: World, t: Tid) { PcOf(w, t).RunExit? && PcOf(w, t).s in w.slots }

  function DoRunExit(w: World, t: Tid): World
    requires CanRunExit(w, t)
  {
    var pc := PcOf(w, t);
    SetCore(Put(w, t, RunSave(pc.s, pc.e, pc.failure)), pc.s, ClearAfterRun(w.slots[pc.s].core, pc.e))
  }

  predicate CanRunSave(w: World, t: Tid) { PcOf(w, t).RunSave? && PcOf(w, t).e in w.entries }

  function DoRunSave(w: World, t: Tid): World
    requires CanRunSave(w, t)
  {
    var pc := PcOf(w, t);
    Put(w, t, Sweep(pc.s)).(entries := w.entries[pc.e := w.entries[pc.e].(buildErr := pc.failure)])
  }

  predicate CanSweep(w: World, t: Tid, sweep: bool) { PcOf(w, t).Sweep? && (sweep ==> w.mu.None?) }

  function DoSweep(w: World, t: Tid, sweep: bool): World
    requires CanSweep(w, t, sweep)
  {
    Put(if sweep then Swept(w, PcOf(w, t).s) else w, t, Idle)
  }

  // ------------------------------------------------------------------- teardown

  predicate DownAt(w: World, t: Tid, down: DownAt) {
    PcOf(w, t).Down? && PcOf(w, t).down == down && PcOf(w, t).s in w.slots && PcOf(w, t).e in w.entries
  }

  function Continue(w: World, t: Tid, down: DownAt): World
    requires PcOf(w, t).Down?
  {
    Put(w, t, PcOf(w, t).(down := down))
  }

  function Resume(w: World, t: Tid, cont: Cont, ok: bool): World {
    Put(w, t, match cont
              case Readmit(want) => if ok then Retry(want) else Idle
              case EndStopAccount => Idle
              case NextRetired(rest) => ReapEach(rest)
              case NextStopped(rest) => StopEach(rest))
  }

  predicate RevokeBusy(slot: Slot) { slot.revokeRunning || slot.revokeWaiters > 0 }

  predicate CanDownProceed(w: World, t: Tid) {
    DownAt(w, t, AwaitRevoke) && w.mu.None? && !RevokeBusy(w.slots[PcOf(w, t).s])
  }

  function DoDownProceed(w: World, t: Tid): World requires CanDownProceed(w, t) { Continue(w, t, AwaitGate) }

  predicate CanDownGiveUp(w: World, t: Tid) { DownAt(w, t, AwaitRevoke) || DownAt(w, t, AwaitGate) }

  function DoDownGiveUp(w: World, t: Tid): World
    requires CanDownGiveUp(w, t)
  {
    Resume(w, t, PcOf(w, t).cont, false)
  }

  predicate CanDownGate(w: World, t: Tid) {
    DownAt(w, t, AwaitGate) && w.slots[PcOf(w, t).s].teardownGate.None?
  }

  function DoDownGate(w: World, t: Tid): World
    requires CanDownGate(w, t)
  {
    var s := PcOf(w, t).s;
    Continue(w, t, Checking).(slots := w.slots[s := w.slots[s].(teardownGate := Some(t))])
  }

  predicate CanDownCheck(w: World, t: Tid) { DownAt(w, t, Checking) }

  function DoDownCheck(w: World, t: Tid): World
    requires CanDownCheck(w, t)
  {
    var pc := PcOf(w, t);
    Continue(w, t, if w.slots[pc.s].core.current == Some(pc.e) then AwaitBuilt else Releasing(true))
  }

  predicate CanDownBuilt(w: World, t: Tid) { DownAt(w, t, AwaitBuilt) && w.entries[PcOf(w, t).e].built }

  function DoDownBuilt(w: World, t: Tid): World
    requires CanDownBuilt(w, t)
  {
    var failure := w.entries[PcOf(w, t).e].buildErr;
    Continue(w, t, if failure == Success || failure == AccountStopped then AwaitDrain
                   else if IsContextFailure(failure) then Releasing(false)
                   else Uninstalling(false))
  }

  predicate CanDownDrained(w: World, t: Tid) {
    DownAt(w, t, AwaitDrain) && w.slots[PcOf(w, t).s].core.drained
  }

  function DoDownDrained(w: World, t: Tid): World requires CanDownDrained(w, t) { Continue(w, t, Stopping) }

  predicate CanDownStop(w: World, t: Tid) { DownAt(w, t, Stopping) }

  function DoDownStop(w: World, t: Tid): World
    requires CanDownStop(w, t)
  {
    var e := PcOf(w, t).e;
    match w.entries[e].owner
    case None => Continue(w, t, Uninstalling(true))
    case Some(owner) => SetOwner(Continue(w, t, Joining), e, Stopped(owner))
  }

  predicate CanDownJoin(w: World, t: Tid) {
    DownAt(w, t, Joining) && OwnerOf(w, PcOf(w, t).e) && w.entries[PcOf(w, t).e].owner.value.completed
  }

  function DoDownJoin(w: World, t: Tid): World
    requires CanDownJoin(w, t)
  {
    var failure := w.entries[PcOf(w, t).e].owner.value.result;
    Continue(w, t, if failure == Success || failure == OwnerStopped then Uninstalling(true)
                   else if IsContextFailure(failure) then Releasing(false)
                   else Uninstalling(false))
  }

  /** A bounded wait of the drain context expires. */
  predicate CanDownExpire(w: World, t: Tid) {
    DownAt(w, t, AwaitBuilt) || DownAt(w, t, AwaitDrain) || DownAt(w, t, Joining)
  }

  function DoDownExpire(w: World, t: Tid): World requires CanDownExpire(w, t) { Continue(w, t, Releasing(false)) }

  predicate CanDownUninstall(w: World, t: Tid, ok: bool) { DownAt(w, t, Uninstalling(ok)) }

  function DoDownUninstall(w: World, t: Tid, ok: bool): World
    requires CanDownUninstall(w, t, ok)
  {
    var pc := PcOf(w, t);
    SetCore(Continue(w, t, Unprotecting(ok)), pc.s, FinishTeardown(w.slots[pc.s].core, pc.e))
  }

  predicate CanDownUnprotect(w: World, t: Tid, ok: bool) { DownAt(w, t, Unprotecting(ok)) && w.mu.None? }

  ghost function DoDownUnprotect(w: World, t: Tid, ok: bool): World
    requires CanDownUnprotect(w, t, ok)
  {
    var target := w.entries[PcOf(w, t).e].target;
    Continue(w, t, Removing(ok))
      .(fences := Fences.Trimmed(Fences.Unprotected(w.fences, target.key, target.version)))
  }

  predicate CanDownRemove(w: World, t: Tid, ok: bool) { DownAt(w, t, Removing(ok)) && w.mu.None? }

  function DoDownRemove(w: World, t: Tid, ok: bool): World
    requires CanDownRemove(w, t, ok)
  {
    Continue(Swept(w, PcOf(w, t).s), t, Releasing(ok))
  }

  predicate CanDownRelease(w: World, t: Tid, ok: bool) { DownAt(w, t, Releasing(ok)) }

  function DoDownRelease(w: World, t: Tid, ok: bool): World
    requires CanDownRelease(w, t, ok)
  {
    var s := PcOf(w, t).s;
    Resume(w, t, PcOf(w, t).cont, ok).(slots := w.slots[s := w.slots[s].(teardownGate := None)])
  }

  // -------------------------------------------------------------- RevokeAndStop

  predicate CanRevokeGate(w: World, t: Tid) {
    PcOf(w, t).RevokeWait? && PcOf(w, t).s in w.slots && w.slots[PcOf(w, t).s].teardownGate.None?
  }

  function DoRevokeGate(w: World, t: Tid): World
    requires CanRevokeGate(w, t)
  {
    var pc := PcOf(w, t);
    Put(w, t, RevokeTurn(pc.target, pc.s)).(slots := w.slots[pc.s := w.slots[pc.s].(teardownGate := Some(t))])
  }

  function FewerWaiters(slot: Slot): Slot {
    slot.(revokeWaiters := if slot.revokeWaiters > 0 then slot.revokeWaiters - 1 else 0)
  }

  predicate CanRevokeCancel(w: World, t: Tid) {
    PcOf(w, t).RevokeWait? && PcOf(w, t).s in w.slots && w.mu.None?
  }

  function DoRevokeCancel(w: World, t: Tid): World
    requires CanRevokeCancel(w, t)
  {
    var s := PcOf(w, t).s;
    Put(w, t, Idle).(slots := w.slots[s := FewerWaiters(w.slots[s])])
  }

  predicate CanRevokeEnter(w: World, t: Tid) {
    PcOf(w, t).RevokeTurn? && PcOf(w, t).s in w.slots && w.mu.None?
  }

  function DoRevokeEnter(w: World, t: Tid): World
    requires CanRevokeEnter(w, t)
  {
    var pc := PcOf(w, t);
    var slot := FewerWaiters(w.slots[pc.s]);
    if w.stopped then Put(w, t, RevokeUngate(pc.s)).(slots := w.slots[pc.s := slot])
    else Put(w, t, RevokeTop(pc.target, pc.s)).(slots := w.slots[pc.s := slot.(revokeRunning := true)])
  }

  predicate CanRevokeRead(w: World, t: Tid) {
    PcOf(w, t).RevokeTop? && PcOf(w, t).s in w.slots && w.mu.None?
  }

  function DoRevokeRead(w: World, t: Tid): World
    requires CanRevokeRead(w, t)
  {
    var pc := PcOf(w, t);
    if w.stopped then Put(w, t, RevokeLeave(pc.target, pc.s, false))
    else Lock(w, t, RevokeRead(pc.target, pc.s, w.slots[pc.s].core.current))
  }

  predicate CanRevokePrepare(w: World, t: Tid, e: EntryId, b: Tid) {
    var pc := PcOf(w, t);
    pc.RevokeRead? && pc.s in w.slots && Fresh(w, t, e, b) && (pc.seen.Some? ==> pc.seen.value in w.entries)
  }

  /** The rest of the section of prepareRevoke, on the entry that was read. */
  ghost function DoRevokePrepare(w: World, t: Tid, e: EntryId, b: Tid): World
    requires CanRevokePrepare(w, t, e, b)
  {
    var pc := PcOf(w, t);
    var leave := Unlock(w, t, RevokeLeave(pc.target, pc.s, false));
    match pc.seen
    case Some(installed) =>
      var entry := w.entries[installed];
      if entry.privateRevoke && entry.target == pc.target then
        Unlock(w, t, Revoke(TearBuilt(Success), pc.target, pc.s, installed, true))
      else if entry.target.key != pc.target.key || entry.target.version != pc.target.version - 1 then leave
      else if entry.target.status != Active && entry.target.status != ReauthRequired then leave
      else
        var (fences, outcome) := Fences.Record(w.fences, pc.target.key, pc.target.version, true);
        if outcome != Fences.Recorded then leave
        else Unlock(SetCore(w, pc.s, CloseAdmission(w.slots[pc.s].core)).(fences := fences), t,
                    Revoke(Draining, pc.target, pc.s, installed, false))
    case None =>
      var (fences, outcome) := Fences.Record(w.fences, pc.target.key, pc.target.version, true);
      if outcome != Fences.Recorded then leave
      else
        var w' := SetCore(w, pc.s, CloseAdmission(w.slots[pc.s].core)).(fences := fences);
        Unlock(Installed(w', pc.s, pc.target, true, e, b), t, Revoke(Draining, pc.target, pc.s, e, false))
  }

  predicate RevokeAt(w: World, t: Tid, rev: RevokeAt) {
    PcOf(w, t).Revoke? && PcOf(w, t).rev == rev && PcOf(w, t).s in w.slots && PcOf(w, t).e in w.entries
  }

  function Advance(w: World, t: Tid, rev: RevokeAt): World
    requires PcOf(w, t).Revoke?
  {
    Put(w, t, PcOf(w, t).(rev := rev))
  }

  /** waitBuilt and waitDrained of executeRevoke both succeed. */
  predicate CanRevokeDrained(w: World, t: Tid) {
    && RevokeAt(w, t, Draining) && w.slots[PcOf(w, t).s].core.drained
    && w.entries[PcOf(w, t).e].built && w.entries[PcOf(w, t).e].buildErr == Success
  }

  function DoRevokeDrained(w: World, t: Tid): World requires CanRevokeDrained(w, t) { Advance(w, t, Ready) }

  /** executeRevoke fails before its callback. */
  predicate CanRevokeFail(w: World, t: Tid, failure: Failure) {
    (RevokeAt(w, t, Draining) || RevokeAt(w, t, Ready)) && failure != Success
  }

  function DoRevokeFail(w: World, t: Tid, failure: Failure): World
    requires CanRevokeFail(w, t, failure)
  {
    Advance(w, t, TearBuilt(failure))
  }

  predicate CanRevokeCall(w: World, t: Tid) {
    && RevokeAt(w, t, Ready)
    && var owner := w.entries[PcOf(w, t).e].owner;
       owner.Some? && Runs(owner.value) && owner.value.callback.None?
  }

  function DoRevokeCall(w: World, t: Tid): World
    requires CanRevokeCall(w, t)
  {
    var e := PcOf(w, t).e;
    SetOwner(Advance(w, t, Privileged), e, w.entries[e].owner.value.(callback := Some(t)))
  }

  predicate CanRevokeReturn(w: World, t: Tid, failure: Failure) {
    RevokeAt(w, t, Privileged) && OwnerOf(w, PcOf(w, t).e)
  }

  function DoRevokeReturn(w: World, t: Tid, failure: Failure): World
    requires CanRevokeReturn(w, t, failure)
  {
    var e := PcOf(w, t).e;
    SetOwner(Advance(w, t, TearBuilt(failure)), e, w.entries[e].owner.value.(callback := None))
  }

  /** teardownRevoke's waitBuilt: a context failure leaves the build unknown. */
  predicate CanTearBuilt(w: World, t: Tid, failure: Failure, expired: bool) {
    RevokeAt(w, t, TearBuilt(failure)) && (expired || w.entries[PcOf(w, t).e].built)
  }

  function DoTearBuilt(w: World, t: Tid, failure: Failure, expired: bool): World
    requires CanTearBuilt(w, t, failure, expired)
  {
    var known := !expired && !IsContextFailure(w.entries[PcOf(w, t).e].buildErr);
    Advance(w, t, TearDrain(failure, known))
  }

  predicate CanTearDrain(w: World, t: Tid, failure: Failure, known: bool, expired: bool) {
    RevokeAt(w, t, TearDrain(failure, known)) && (expired || w.slots[PcOf(w, t).s].core.drained)
  }

  function DoTearDrain(w: World, t: Tid, failure: Failure, known: bool, expired: bool): World
    requires CanTearDrain(w, t, failure, known, expired)
  {
    Advance(w, t, TearStop(failure, known))
  }

  predicate CanTearStop(w: World, t: Tid, failure: Failure, known: bool) {
    RevokeAt(w, t, TearStop(failure, known))
  }

  function DoTearStop(w: World, t: Tid, failure: Failure, known: bool): World
    requires CanTearStop(w, t, failure, known)
  {
    var e := PcOf(w, t).e;
    match w.entries[e].owner
    case None => Advance(w, t, if known then TearUninstall else TearDone)
    case Some(owner) => SetOwner(Advance(w, t, TearJoin(failure, known)), e, Stopped(owner))
  }

  /** owner.Wait either joins the run or expires with the deadline sentinel. */
  predicate CanTearJoin(w: World, t: Tid, failure: Failure, known: bool, expired: bool) {
    && RevokeAt(w, t, TearJoin(failure, known)) && OwnerOf(w, PcOf(w, t).e)
    && (expired || w.entries[PcOf(w, t).e].owner.value.completed)
  }

  /** The verdict of teardownRevoke: a wait failure equal to the callback's is forgiven. */
  function CountsAsJoined(waited: Failure, callback: Failure): bool {
    var failure := if callback != Success && waited == callback then Success else waited;
    failure == Success || failure == OwnerStopped || !IsContextFailure(failure)
  }

  function Waited(w: World, t: Tid, expired: bool): Failure
    requires PcOf(w, t).Revoke? && OwnerOf(w, PcOf(w, t).e)
  {
    if expired then DeadlineExceeded else w.entries[PcOf(w, t).e].owner.value.result
  }

  function DoTearJoin(w: World, t: Tid, failure: Failure, known: bool, expired: bool): World
    requires CanTearJoin(w, t, failure, known, expired)
  {
    var e := PcOf(w, t).e;
    var joined := CountsAsJoined(Waited(w, t, expired), failure);
    Advance(w, t, if known && joined then TearUninstall else TearDone)
      .(masked := if known && joined && !w.entries[e].owner.value.completed then w.masked + {e} else w.masked)
  }

  predicate CanTearUninstall(w: World, t: Tid) { RevokeAt(w, t, TearUninstall) }

  function DoTearUninstall(w: World, t: Tid): World
    requires CanTearUninstall(w, t)
  {
    var pc := PcOf(w, t);
    SetCore(Advance(w, t, TearUnprotect), pc.s, FinishTeardown(w.slots[pc.s].core, pc.e))
  }

  predicate CanTearUnprotect(w: World, t: Tid) { RevokeAt(w, t, TearUnprotect) && w.mu.None? }

  ghost function DoTearUnprotect(w: World, t: Tid): World
    requires CanTearUnprotect(w, t)
  {
    var target := w.entries[PcOf(w, t).e].target;
    Advance(w, t, TearRemove)
      .(fences := Fences.Trimmed(Fences.Unprotected(w.fences, target.key, target.version)))
  }

  predicate CanTearRemove(w: World, t: Tid) { RevokeAt(w, t, TearRemove) && w.mu.None? }

  function DoTearRemove(w: World, t: Tid): World
    requires CanTearRemove(w, t)
  {
    Advance(Swept(w, PcOf(w, t).s), t, TearFence)
  }

  predicate CanTearFence(w: World, t: Tid) { RevokeAt(w, t, TearFence) && w.mu.None? }

  ghost function DoTearFence(w: World, t: Tid): World
    requires CanTearFence(w, t)
  {
    var pc := PcOf(w, t);
    Advance(w, t, TearDone)
      .(fences := Fences.Trimmed(Fences.Unprotected(w.fences, w.entries[pc.e].target.key, pc.target.version)))
  }

  /** A stale private entry that is gone is retried; everything else leaves. */
  predicate CanTearDone(w: World, t: Tid) { RevokeAt(w, t, TearDone) && w.mu.None? }

  function DoTearDone(w: World, t: Tid): World
    requires CanTearDone(w, t)
  {
    var pc := PcOf(w, t);
    if pc.stale && w.slots[pc.s].core.current != Some(pc.e) then Put(w, t, RevokeTop(pc.target, pc.s))
    else Put(w, t, RevokeLeave(pc.target, pc.s, !pc.stale))
  }

  predicate CanRevokeLeave(w: World, t: Tid) {
    PcOf(w, t).RevokeLeave? && PcOf(w, t).s in w.slots && w.mu.None?
  }

  function DoRevokeLeave(w: World, t: Tid): World
    requires CanRevokeLeave(w, t)
  {
    var s := PcOf(w, t).s;
    var slot := w.slots[s].(revokeRunning := false, core := ReopenIfEmpty(w.slots[s].core));
    Swept(Put(w, t, RevokeUngate(s)).(slots := w.slots[s := slot]), s)
  }

  predicate CanRevokeUngate(w: World, t: Tid) { PcOf(w, t).RevokeUngate? && PcOf(w, t).s in w.slots }

  function DoRevokeUngate(w: World, t: Tid): World
    requires CanRevokeUngate(w, t)
  {
    var s := PcOf(w, t).s;
    Put(w, t, Idle).(slots := w.slots[s := w.slots[s].(teardownGate := None)])
  }

  // ---------------------------------------------------------------- StopAccount

  predicate CanStopAccount(w: World, t: Tid, target: Target) {
    PcOf(w, t).Idle? && w.mu.None? && MayStop(target)
  }

  ghost function DoStopAccount(w: World, t: Tid, target: Target): World
    requires CanStopAccount(w, t, target)
  {
    if w.stopped then Put(w, t, Idle)
    else if target.key !in w.table || w.table[target.key] !in w.slots then
      Put(w, t, Idle).(fences := Fences.Record(w.fences, target.key, target.version, false).0)
    else
      var s := w.table[target.key];
      Lock(w, t, StopRead(target, s, w.slots[s].core.current))
  }

  predicate CanStopFence(w: World, t: Tid) {
    var pc := PcOf(w, t);
    pc.StopRead? && pc.s in w.slots && (pc.seen.Some? ==> pc.seen.value in w.entries)
  }

  ghost function DoStopFence(w: World, t: Tid): World
    requires CanStopFence(w, t)
  {
    var pc := PcOf(w, t);
    match pc.seen
    case None =>
      Unlock(w, t, Idle).(fences := Fences.Record(w.fences, pc.target.key, pc.target.version, false).0)
    case Some(e) =>
      var installed := w.entries[e].target;
      if installed != pc.target then Unlock(w, t, Idle)
      else
        var (fences, outcome) := Fences.Record(w.fences, pc.target.key, pc.target.version, true);
        if outcome != Fences.Recorded then Unlock(w, t, Idle)
        else
          var core := w.slots[pc.s].core;
          Unlock(SetCore(w, pc.s, if core.stopping then core else CloseAdmission(core)).(fences := fences), t,
                 Down(AwaitRevoke, pc.s, e, EndStopAccount))
  }

  // ------------------------------------------------------------------ evictIdle

  predicate CanReap(w: World, t: Tid) { PcOf(w, t).Idle? && w.mu.None? }

  function DoReap(w: World, t: Tid): World requires CanReap(w, t) { Lock(w, t, Reap({})) }

  predicate CanReapPick(w: World, t: Tid, s: SlotId) {
    PcOf(w, t).Reap? && InTable(w, s) && Idling(w.slots[s].core)
  }

  function DoReapPick(w: World, t: Tid, s: SlotId): World
    requires CanReapPick(w, t, s)
  {
    Put(w, t, ReapVictim(s, w.slots[s].core.current.value, PcOf(w, t).retired))
  }

  /** The victim is read again before it is closed, and may be gone. */
  predicate CanReapClose(w: World, t: Tid, seen: bool) {
    var pc := PcOf(w, t);
    pc.ReapVictim? && pc.s in w.slots && (seen || w.slots[pc.s].core.current.None?)
  }

  function DoReapClose(w: World, t: Tid, seen: bool): World
    requires CanReapClose(w, t, seen)
  {
    var pc := PcOf(w, t);
    SetCore(Put(w, t, Reap(pc.retired + {(pc.s, if seen then Some(pc.e) else None)})), pc.s,
            CloseAdmission(w.slots[pc.s].core))
  }

  predicate CanReapEnd(w: World, t: Tid) { PcOf(w, t).Reap? }

  function DoReapEnd(w: World, t: Tid): World
    requires CanReapEnd(w, t)
  {
    Unlock(w, t, ReapEach(PcOf(w, t).retired))
  }

  predicate CanReapNext(w: World, t: Tid, item: (SlotId, Option<EntryId>)) {
    PcOf(w, t).ReapEach? && item in PcOf(w, t).retired && item.0 in w.slots
    && (item.1.None? ==> !RevokeBusy(w.slots[item.0]) && w.slots[item.0].teardownGate.None?)
  }

  /** A retired slot whose entry was read as nil passes teardown's check and is dereferenced. */
  function DoReapNext(w: World, t: Tid, item: (SlotId, Option<EntryId>)): World
    requires CanReapNext(w, t, item)
  {
    var rest := PcOf(w, t).retired - {item};
    match item.1
    case Some(e) => Put(w, t, Down(AwaitRevoke, item.0, e, NextRetired(rest)))
    case None => Put(w, t, if w.slots[item.0].core.current.None? then Crashed else ReapEach(rest))
  }

  predicate CanReapDone(w: World, t: Tid) { PcOf(w, t).ReapEach? && PcOf(w, t).retired == {} }

  function DoReapDone(w: World, t: Tid): World requires CanReapDone(w, t) { Put(w, t, Idle) }

  // ----------------------------------------------------------------------- Stop

  /** stopOnce: the first caller closes every installed entry; the rest go on to join. */
  predicate CanStop(w: World, t: Tid) { PcOf(w, t).Idle? && w.mu.None? }

  function DoStop(w: World, t: Tid): World
    requires CanStop(w, t)
  {
    if w.stopped then Put(w, t, StopLoop)
    else Lock(w, t, StopAll(w.table.Values)).(stopped := true)
  }

  predicate CanStopVisit(w: World, t: Tid, s: SlotId) {
    PcOf(w, t).StopAll? && s in PcOf(w, t).todo && s in w.slots
  }

  function DoStopVisit(w: World, t: Tid, s: SlotId): World
    requires CanStopVisit(w, t, s)
  {
    var rest := PcOf(w, t).todo - {s};
    Put(w, t, if w.slots[s].core.current.None? then StopAll(rest) else StopClose(s, rest))
  }

  predicate CanStopClose(w: World, t: Tid) { PcOf(w, t).StopClose? && PcOf(w, t).s in w.slots }

  function DoStopClose(w: World, t: Tid): World
    requires CanStopClose(w, t)
  {
    var pc := PcOf(w, t);
    SetCore(Put(w, t, StopAll(pc.todo)), pc.s, CloseAdmission(w.slots[pc.s].core))
  }

  predicate CanStopClosed(w: World, t: Tid) { PcOf(w, t).StopAll? && PcOf(w, t).todo == {} }

  function DoStopClosed(w: World, t: Tid): World
    requires CanStopClosed(w, t)
  {
    Unlock(w, t, StopLoop)
  }

  /** stopEntries. */
  predicate CanStopScan(w: World, t: Tid) { PcOf(w, t).StopLoop? && w.mu.None? }

  function DoStopScan(w: World, t: Tid): World
    requires CanStopScan(w, t)
  {
    Put(w, t, StopEach(set s | s in w.slots && InTable(w, s) && w.slots[s].core.current.Some?
                       :: (s, w.slots[s].core.current)))
  }

  predicate CanStopNext(w: World, t: Tid, item: (SlotId, Option<EntryId>)) {
    PcOf(w, t).StopEach? && item in PcOf(w, t).retired && item.1.Some?
  }

  function DoStopNext(w: World, t: Tid, item: (SlotId, Option<EntryId>)): World
    requires CanStopNext(w, t, item)
  {
    Put(w, t, Down(AwaitRevoke, item.0, item.1.value, NextStopped(PcOf(w, t).retired - {item})))
  }

  predicate CanStopAgain(w: World, t: Tid) { PcOf(w, t).StopEach? && PcOf(w, t).retired == {} }

  function DoStopAgain(w: World, t: Tid): World requires CanStopAgain(w, t) { Put(w, t, StopLoop) }

  ghost predicate AllEmpty(w: World) {
    forall s | s in w.slots && InTable(w, s) :: w.slots[s].core.current.None?
  }

  /** The last section of Stop; it reads the slots one by one, so it may miss a slot that empties late. */
  ghost predicate CanStopRoot(w: World, t: Tid, complete: bool) {
    (PcOf(w, t).StopLoop? || PcOf(w, t).StopEach?) && w.mu.None? && (complete ==> AllEmpty(w))
  }

  function DoStopRoot(w: World, t: Tid, complete: bool): World {
    Put(w, t, Idle).(rootStopped := w.rootStopped || complete)
  }

  // --------------------------------------------------------------------- one step

  datatype AdmissionStep =
    | Begin(want: Want) | Lookup | PickVictim(s: SlotId) | PickNone | CloseVictim(seen: bool)
    | MakeSlot(s: SlotId) | AdmitStep(stopSeen: bool, e: EntryId, b: Tid)

  datatype ExecStep =
    | Open | GiveUp | TakeGate | BeginOp | Call | Return | Abandon | Finish
    | SweepAfter(sweep: bool) | GiveGate | Drop | EndExecute(sweep: bool)

  datatype RunStep =
    | Built(failure: Failure) | Run | RunReturn(failure: Failure) | Exit | Save | SweepRun(sweep: bool)

  datatype DownStep =
    | Proceed | DownGiveUp | DownGate | Check | DownBuilt | Drained | StopOwner | Join | Expire
    | Uninstall(ok: bool) | Unprotect(ok: bool) | Remove(ok: bool) | Release(ok: bool)

  datatype RevokeStep =
    | RevokeGate | Cancel | Enter | Read | Prepare(e: EntryId, b: Tid) | Leave | Ungate
    | RevokeDrained | Fail(failure: Failure) | CallPrivileged | ReturnPrivileged(failure: Failure)

  datatype TearStep =
    | TBuilt(failure: Failure, expired: bool) | TDrain(failure: Failure, known: bool, expired: bool)
    | TStop(failure: Failure, known: bool) | TJoin(failure: Failure, known: bool, expired: bool)
    | TUninstall | TUnprotect | TRemove | TFence | TDone

  datatype StopStep =
    | StopOne(target: Target) | StopFence
    | StartReap | ReapPick(s: SlotId) | ReapClose(seen: bool) | ReapEnd
    | ReapNext(item: (SlotId, Option<EntryId>)) | ReapDone
    | StartStop | Visit(s: SlotId) | CloseOne | AllClosed | Scan
    | StopNext(item: (SlotId, Option<EntryId>)) | Again | Root(complete: bool)

  datatype Step =
    | Admission(t: Tid, admission: AdmissionStep) | Execution(t: Tid, execution: ExecStep)
    | Life(t: Tid, life: RunStep) | Teardown(t: Tid, teardown: DownStep)
    | Revocation(t: Tid, revocation: RevokeStep) | RevokeTeardown(t: Tid, tear: TearStep)
    | Stop(t: Tid, stop: StopStep)

  predicate CanAdmission(w: World, t: Tid, step: AdmissionStep) {
    match step
    case Begin(want) => CanBegin(w, t, want)
    case Lookup => CanLookup(w, t)
    case PickVictim(s) => CanPickVictim(w, t, s)
    case PickNone => CanPickNone(w, t)
    case CloseVictim(seen) => CanCloseVictim(w, t, seen)
    case MakeSlot(s) => CanMakeSlot(w, t, s)
    case AdmitStep(stopSeen, e, b) => CanAdmit(w, t, stopSeen, e, b)
  }

  function DoAdmission(w: World, t: Tid, step: AdmissionStep): World
    requires CanAdmission(w, t, step)
  {
    match step
    case Begin(want) => DoBegin(w, t, want)
    case Lookup => DoLookup(w, t)
    case PickVictim(s) => DoPickVictim(w, t, s)
    case PickNone => DoPickNone(w, t)
    case CloseVictim(seen) => DoCloseVictim(w, t, seen)
    case MakeSlot(s) => DoMakeSlot(w, t, s)
    case AdmitStep(stopSeen, e, b) => DoAdmit(w, t, stopSeen, e, b)
  }

  predicate CanExecution(w: World, t: Tid, step: ExecStep) {
    match step
    case Open => CanOpen(w, t)
    case GiveUp => CanGiveUp(w, t)
    case TakeGate => CanTakeGate(w, t)
    case BeginOp => CanBeginOperation(w, t)
    case Call => CanCall(w, t)
    case Return => CanReturn(w, t)
    case Abandon => CanAbandon(w, t)
    case Finish => CanFinish(w, t)
    case SweepAfter(sweep) => CanSweepAfter(w, t, sweep)
    case GiveGate => CanGiveGate(w, t)
    case Drop => CanDrop(w, t)
    case EndExecute(sweep) => CanEndExecute(w, t, sweep)
  }

  function DoExecution(w: World, t: Tid, step: ExecStep): World
    requires CanExecution(w, t, step)
  {
    match step
    case Open => DoOpen(w, t)
    case GiveUp => DoGiveUp(w, t)
    case TakeGate => DoTakeGate(w, t)
    case BeginOp => DoBeginOperation(w, t)
    case Call => DoCall(w, t)
    case Return => DoReturn(w, t)
    case Abandon => DoAbandon(w, t)
    case Finish => DoFinish(w, t)
    case SweepAfter(sweep) => DoSweepAfter(w, t, sweep)
    case GiveGate => DoGiveGate(w, t)
    case Drop => DoDrop(w, t)
    case EndExecute(sweep) => DoEndExecute(w, t, sweep)
  }

  predicate CanLife(w: World, t: Tid, step: RunStep) {
    match step
    case Built(failure) => CanBuilt(w, t, failure)
    case Run => CanRun(w, t)
    case RunReturn(failure) => CanRunReturn(w, t, failure)
    case Exit => CanRunExit(w, t)
    case Save => CanRunSave(w, t)
    case SweepRun(sweep) => CanSweep(w, t, sweep)
  }

  function DoLife(w: World, t: Tid, step: RunStep): World
    requires CanLife(w, t, step)
  {
    match step
    case Built(failure) => DoBuilt(w, t, failure)
    case Run => DoRun(w, t)
    case RunReturn(failure) => DoRunReturn(w, t, failure)
    case Exit => DoRunExit(w, t)
    case Save => DoRunSave(w, t)
    case SweepRun(sweep) => DoSweep(w, t, sweep)
  }

  predicate CanTeardown(w: World, t: Tid, step: DownStep) {
    match step
    case Proceed => CanDownProceed(w, t)
    case DownGiveUp => CanDownGiveUp(w, t)
    case DownGate => CanDownGate(w, t)
    case Check => CanDownCheck(w, t)
    case DownBuilt => CanDownBuilt(w, t)
    case Drained => CanDownDrained(w, t)
    case StopOwner => CanDownStop(w, t)
    case Join => CanDownJoin(w, t)
    case Expire => CanDownExpire(w, t)
    case Uninstall(ok) => CanDownUninstall(w, t, ok)
    case Unprotect(ok) => CanDownUnprotect(w, t, ok)
    case Remove(ok) => CanDownRemove(w, t, ok)
    case Release(ok) => CanDownRelease(w, t, ok)
  }

  ghost function DoTeardown(w: World, t: Tid, step: DownStep): World
    requires CanTeardown(w, t, step)
  {
    match step
    case Proceed => DoDownProceed(w, t)
    case DownGiveUp => DoDownGiveUp(w, t)
    case DownGate => DoDownGate(w, t)
    case Check => DoDownCheck(w, t)
    case DownBuilt => DoDownBuilt(w, t)
    case Drained => DoDownDrained(w, t)
    case StopOwner => DoDownStop(w, t)
    case Join => DoDownJoin(w, t)
    case Expire => DoDownExpire(w, t)
    case Uninstall(ok) => DoDownUninstall(w, t, ok)
    case Unprotect(ok) => DoDownUnprotect(w, t, ok)
    case Remove(ok) => DoDownRemove(w, t, ok)
    case Release(ok) => DoDownRelease(w, t, ok)
  }

  predicate CanRevocation(w: World, t: Tid, step: RevokeStep) {
    match step
    case RevokeGate => CanRevokeGate(w, t)
    case Cancel => CanRevokeCancel(w, t)
    case Enter => CanRevokeEnter(w, t)
    case Read => CanRevokeRead(w, t)
    case Prepare(e, b) => CanRevokePrepare(w, t, e, b)
    case Leave => CanRevokeLeave(w, t)
    case Ungate => CanRevokeUngate(w, t)
    case RevokeDrained => CanRevokeDrained(w, t)
    case Fail(failure) => CanRevokeFail(w, t, failure)
    case CallPrivileged => CanRevokeCall(w, t)
    case ReturnPrivileged(failure) => CanRevokeReturn(w, t, failure)
  }

  ghost function DoRevocation(w: World, t: Tid, step: RevokeStep): World
    requires CanRevocation(w, t, step)
  {
    match step
    case RevokeGate => DoRevokeGate(w, t)
    case Cancel => DoRevokeCancel(w, t)
    case Enter => DoRevokeEnter(w, t)
    case Read => DoRevokeRead(w, t)
    case Prepare(e, b) => DoRevokePrepare(w, t, e, b)
    case Leave => DoRevokeLeave(w, t)
    case Ungate => DoRevokeUngate(w, t)
    case RevokeDrained => DoRevokeDrained(w, t)
    case Fail(failure) => DoRevokeFail(w, t, failure)
    case CallPrivileged => DoRevokeCall(w, t)
    case ReturnPrivileged(failure) => DoRevokeReturn(w, t, failure)
  }

  predicate CanTear(w: World, t: Tid, step: TearStep) {
    match step
    case TBuilt(failure, expired) => CanTearBuilt(w, t, failure, expired)
    case TDrain(failure, known, expired) => CanTearDrain(w, t, failure, known, expired)
    case TStop(failure, known) => CanTearStop(w, t, failure, known)
    case TJoin(failure, known, expired) => CanTearJoin(w, t, failure, known, expired)
    case TUninstall => CanTearUninstall(w, t)
    case TUnprotect => CanTearUnprotect(w, t)
    case TRemove => CanTearRemove(w, t)
    case TFence => CanTearFence(w, t)
    case TDone => CanTearDone(w, t)
  }

  ghost function DoTear(w: World, t: Tid, step: TearStep): World
    requires CanTear(w, t, step)
  {
    match step
    case TBuilt(failure, expired) => DoTearBuilt(w, t, failure, expired)
    case TDrain(failure, known, expired) => DoTearDrain(w, t, failure, known, expired)
    case TStop(failure, known) => DoTearStop(w, t, failure, known)
    case TJoin(failure, known, expired) => DoTearJoin(w, t, failure, known, expired)
    case TUninstall => DoTearUninstall(w, t)
    case TUnprotect => DoTearUnprotect(w, t)
    case TRemove => DoTearRemove(w, t)
    case TFence => DoTearFence(w, t)
    case TDone => DoTearDone(w, t)
  }

  ghost predicate CanStopStep(w: World, t: Tid, step: StopStep) {
    match step
    case StopOne(target) => CanStopAccount(w, t, target)
    case StopFence => CanStopFence(w, t)
    case StartReap => CanReap(w, t)
    case ReapPick(s) => CanReapPick(w, t, s)
    case ReapClose(seen) => CanReapClose(w, t, seen)
    case ReapEnd => CanReapEnd(w, t)
    case ReapNext(item) => CanReapNext(w, t, item)
    case ReapDone => CanReapDone(w, t)
    case StartStop => CanStop(w, t)
    case Visit(s) => CanStopVisit(w, t, s)
    case CloseOne => CanStopClose(w, t)
    case AllClosed => CanStopClosed(w, t)
    case Scan => CanStopScan(w, t)
    case StopNext(item) => CanStopNext(w, t, item)
    case Again => CanStopAgain(w, t)
    case Root(complete) => CanStopRoot(w, t, complete)
  }

  ghost function DoStopStep(w: World, t: Tid, step: StopStep): World
    requires CanStopStep(w, t, step)
  {
    match step
    case StopOne(target) => DoStopAccount(w, t, target)
    case StopFence => DoStopFence(w, t)
    case StartReap => DoReap(w, t)
    case ReapPick(s) => DoReapPick(w, t, s)
    case ReapClose(seen) => DoReapClose(w, t, seen)
    case ReapEnd => DoReapEnd(w, t)
    case ReapNext(item) => DoReapNext(w, t, item)
    case ReapDone => DoReapDone(w, t)
    case StartStop => DoStop(w, t)
    case Visit(s) => DoStopVisit(w, t, s)
    case CloseOne => DoStopClose(w, t)
    case AllClosed => DoStopClosed(w, t)
    case Scan => DoStopScan(w, t)
    case StopNext(item) => DoStopNext(w, t, item)
    case Again => DoStopAgain(w, t)
    case Root(complete) => DoStopRoot(w, t, complete)
  }

  ghost predicate Can(w: World, step: Step) {
    match step
    case Admission(t, s) => CanAdmission(w, t, s)
    case Execution(t, s) => CanExecution(w, t, s)
    case Life(t, s) => CanLife(w, t, s)
    case Teardown(t, s) => CanTeardown(w, t, s)
    case Revocation(t, s) => CanRevocation(w, t, s)
    case RevokeTeardown(t, s) => CanTear(w, t, s)
    case Stop(t, s) => CanStopStep(w, t, s)
  }

  ghost function Do(w: World, step: Step): World
    requires Can(w, step)
  {
    match step
    case Admission(t, s) => DoAdmission(w, t, s)
    case Execution(t, s) => DoExecution(w, t, s)
    case Life(t, s) => DoLife(w, t, s)
    case Teardown(t, s) => DoTeardown(w, t, s)
    case Revocation(t, s) => DoRevocation(w, t, s)
    case RevokeTeardown(t, s) => DoTear(w, t, s)
    case Stop(t, s) => DoStopStep(w, t, s)
  }
}

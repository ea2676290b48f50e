/**
 What one step of goroutine `t` may do to everybody else, and the proof that
 the invariant survives any such step.
 */
module AccountRely {
  import opened Options
  import opened Targets
  import opened Slots
  import opened AccountWorld
  import opened AccountSteps
  import opened AccountInvariant
  import Fences

  /** A token moves only between its channel and `t`, as the counter of `t` says. */
  predicate Tracks(before: Option<Tid>, after: Option<Tid>, was: bool, now: bool, t: Tid) {
    && after == (if now then Some(t) else if was then None else before)
    && (now && !was ==> before.None?)
    && (was ==> before == Some(t))
  }

  function One(b: bool): int { if b then 1 else 0 }

  /** How a slot changes: its resources follow the counter of `t`, its entry and admission obey the gates. */
  ghost predicate SlotStep(w: World, w': World, t: Tid, s: SlotId) {
    s in w'.slots && s in w.slots &&
    var pc, pc', a, b := PcOf(w, t), PcOf(w', t), w.slots[s], w'.slots[s];
    && a.key == b.key && (Valid(a.core) ==> Valid(b.core))
    && Tracks(a.gate, b.gate, GateAt(pc, s), GateAt(pc', s), t)
    && Tracks(a.teardownGate, b.teardownGate, TeardownAt(pc, s), TeardownAt(pc', s), t)
    && b.core.active == a.core.active - One(OperationAt(pc, s)) + One(OperationAt(pc', s))
    && b.core.handles == a.core.handles - One(HandleAt(pc, s)) + One(HandleAt(pc', s))
    && b.revokeWaiters == a.revokeWaiters - One(WaitsAt(pc, s)) + One(WaitsAt(pc', s))
    && b.revokeRunning == (RevokeAtSlot(pc', s) || (a.revokeRunning && !RevokeAtSlot(pc, s)))
    && (OperationAt(pc', s) ==> GateAt(pc', s)) && (RevokeAtSlot(pc', s) ==> TeardownAt(pc', s))
    // uninstalling
    && (a.core.current.Some? && b.core.current != a.core.current ==>
          && b.core.current.None?
          && (a.core.closed ==> a.teardownGate == Some(t) || a.revokeRunning)
          && a.core.current.value in w'.entries
          && (Quiescent(w'.entries[a.core.current.value]) || a.core.current.value in w'.masked))
    // installing
    && (a.core.current.None? && b.core.current.Some? ==>
          && w.mu == Some(t) && !w.stopped && b.core.current.value !in w.entries
          && b.core.current.value in w'.entries && w'.entries[b.core.current.value].slot == s
          && (a.revokeRunning ==> b.core.closed))
    // admission
    && (a.core.closed && !b.core.closed ==> b.core.current.None? && a.teardownGate == Some(t))
    && (b.core.active > a.core.active ==> !a.core.closed && a.core.current.Some?)
  }

  /** How an entry changes: only its runner builds, starts and completes its owner. */
  ghost predicate EntryStep(w: World, w': World, t: Tid, e: EntryId) {
    e in w'.entries && e in w.entries &&
    var pc, pc', x, y := PcOf(w, t), PcOf(w', t), w.entries[e], w'.entries[e];
    && y.slot == x.slot && y.target == x.target && y.privateRevoke == x.privateRevoke && y.runner == x.runner
    && (EntryShape(x) ==> EntryShape(y))
    && (x.built ==> y.built) && (!x.built && y.built ==> x.runner == t)
    && (x.built ==> (x.owner.Some? <==> y.owner.Some?)) && (x.owner.Some? ==> y.owner.Some?)
    && (x.built && Quiescent(x) ==> Quiescent(y))
    && (Quiescent(x) && !Quiescent(y) ==> y.slot in w'.slots && w'.slots[y.slot].core.current == Some(e))
    && (x.owner.Some? && y.owner.Some? ==>
          && (x.owner.value.started ==> y.owner.value.started) && (x.owner.value.completed ==> y.owner.value.completed)
          && (Runs(x.owner.value) != Runs(y.owner.value) ==> x.runner == t))
    && Tracks(CallbackOf(x), CallbackOf(y), CallsOn(pc, e), CallsOn(pc', e), t)
  }

  ghost predicate ThreadsStep(w: World, w': World, t: Tid) {
    && t in w'.threads
    && (forall t2 <- w.threads :: t2 in w'.threads && (t2 != t ==> w'.threads[t2] == w.threads[t2]))
    && (forall t2 <- w'.threads :: t2 != t && t2 !in w.threads ==>
          w'.threads[t2].Build? && ThreadOk(w', t2, w'.threads[t2]))
  }

  ghost predicate NewSlotOk(w': World, pc': Pc, s: SlotId) {
    s in w'.slots &&
    var slot := w'.slots[s];
    && slot.core == EMPTY && slot.gate.None? && slot.teardownGate.None? && !slot.revokeRunning
    && slot.revokeWaiters == One(WaitsAt(pc', s)) && !HandleAt(pc', s)
  }

  ghost predicate NewEntryOk(w': World, e: EntryId) {
    e in w'.entries &&
    var entry := w'.entries[e];
    && !entry.built && entry.owner.None?
    && entry.slot in w'.slots && w'.slots[entry.slot].key == entry.target.key
  }

  /** A slot outside the table was outside and untouched, or refers to nothing. */
  ghost predicate OutStep(w: World, w': World, s: SlotId) {
    s in w'.slots && !InTable(w', s) ==>
      (s in w.slots && !InTable(w, s) && w'.slots[s] == w.slots[s]) || Inert(w'.slots[s])
  }

  ghost predicate FenceStep(w: World, w': World, s: SlotId) {
    s in w'.slots && !FencedShut(w', s) ==> s in w.slots && !FencedShut(w, s)
  }

  ghost predicate StopStepOk(w: World, w': World, s: SlotId) {
    s in w'.slots && !StoppedShut(w', s) ==> s in w.slots && !StoppedShut(w, s)
  }

  /** The sections of the registry mutex. */
  ghost predicate MuStep(w: World, w': World, t: Tid) {
    && Tracks(w.mu, w'.mu, HoldsMu(PcOf(w, t)), HoldsMu(PcOf(w', t)), t)
    && (w.mu.Some? && w.mu != Some(t) ==>
          w'.table == w.table && w'.fences == w.fences && w'.stopped == w.stopped && w'.rootStopped == w.rootStopped)
    && (w.stopped ==> w'.stopped) && (w.rootStopped ==> w'.rootStopped) && w'.capacity == w.capacity
    && w.masked <= w'.masked && (w'.masked != w.masked ==> PcOf(w, t).Revoke? && PcOf(w, t).rev.TearJoin?)
    && (w'.rootStopped ==> w.rootStopped || (w'.stopped && AllEmpty(w')))
    && (Fences.Valid(w.fences) ==> Fences.Valid(w'.fences))
    && (w'.table != w.table ==> TableOk(w'))
    && (forall k <- w'.table :: k !in w.table || w.table[k] != w'.table[k] ==> w'.table[k] !in w.slots)
  }

  ghost predicate StepOk(w: World, w': World, t: Tid) {
    && MuStep(w, w', t) && ThreadsStep(w, w', t) && ThreadOk(w', t, PcOf(w', t))
    && (forall s <- w.slots :: SlotStep(w, w', t, s))
    && (forall e <- w.entries :: EntryStep(w, w', t, e))
    && (forall s <- w'.slots :: s !in w.slots ==> NewSlotOk(w', PcOf(w', t), s))
    && (forall e <- w'.entries :: e !in w.entries ==> NewEntryOk(w', e))
    && (forall s <- w'.slots :: OutStep(w, w', s))
    && (forall s <- w'.slots :: FenceStep(w, w', s))
    && (forall s <- w'.slots :: StopStepOk(w, w', s))
  }

  // ------------------------------------------------------- other goroutines are safe

  /** The parts of a step that a goroutine standing at `pc` can notice. */
  ghost predicate Seen(w: World, w': World, t: Tid, pc: Pc) {
    && (HasSlot(pc) ==> SlotStep(w, w', t, pc.s))
    && (HasEntry(pc) ==> EntryStep(w, w', t, pc.e))
  }

  lemma RefsStable(w: World, w': World, t: Tid, pc: Pc)
    requires Seen(w, w', t, pc) && RefsOk(w, pc)
    ensures RefsOk(w', pc)
  {
  }

  lemma HoldsStable(w: World, w': World, t: Tid, o: Tid, pc: Pc)
    requires MuStep(w, w', t) && Seen(w, w', t, pc) && RefsOk(w, pc) && RefsOk(w', pc) && HoldsOk(w, o, pc)
    requires o != t
    ensures HoldsOk(w', o, pc)
  {
  }

  lemma CallsStable(w: World, w': World, t: Tid, o: Tid, pc: Pc)
    requires Seen(w, w', t, pc) && RefsOk(w, pc) && RefsOk(w', pc) && CallsOk(w, o, pc)
    requires o != t
    ensures CallsOk(w', o, pc)
  {
  }

  lemma RunnerStable(w: World, w': World, t: Tid, o: Tid, pc: Pc)
    requires Seen(w, w', t, pc) && RefsOk(w, pc) && RefsOk(w', pc) && RunnerOk(w, o, pc)
    requires o != t
    ensures RunnerOk(w', o, pc)
  {
  }

  lemma DownStable(w: World, w': World, t: Tid, o: Tid, pc: Pc)
    requires Seen(w, w', t, pc) && RefsOk(w, pc) && RefsOk(w', pc) && DownOk(w, pc) && HoldsOk(w, o, pc)
    requires o != t && o in w.threads && w.threads[o] == pc && (pc.Down? ==> RevokeFlagOk(w, pc.s))
    ensures DownOk(w', pc)
  {
  }

  lemma RevokeStable(w: World, w': World, t: Tid, o: Tid, pc: Pc)
    requires MuStep(w, w', t) && Seen(w, w', t, pc) && RefsOk(w, pc) && RefsOk(w', pc) && RevokeOk(w, pc)
    requires HoldsOk(w, o, pc) && o != t
    ensures RevokeOk(w', pc)
  {
  }

  predicate HoldsOk0(w: World, o: Tid, pc: Pc) { HoldsMu(pc) ==> w.mu == Some(o) }

  lemma SectionStable(w: World, w': World, t: Tid, o: Tid, pc: Pc)
    requires MuStep(w, w', t) && HoldsOk0(w, o, pc) && SectionOk(w, pc) && o != t && HoldsMu(pc)
    requires forall s <- w.slots :: SlotStep(w, w', t, s)
    requires forall e <- w.entries :: EntryStep(w, w', t, e)
    ensures SectionOk(w', pc)
  {
  }

  lemma PendingStable(w: World, w': World, t: Tid, pc: Pc)
    requires PendingOk(w, pc)
    requires forall s <- w.slots :: SlotStep(w, w', t, s)
    requires forall e <- w.entries :: EntryStep(w, w', t, e)
    ensures PendingOk(w', pc)
  {
  }

  lemma ThreadStable(w: World, w': World, t: Tid, o: Tid)
    requires StepOk(w, w', t) && o in w.threads && o != t && ThreadOk(w, o, w.threads[o])
    requires HasSlot(w.threads[o]) ==> RevokeFlagOk(w, w.threads[o].s)
    ensures ThreadOk(w', o, w.threads[o])
  {
    var pc := w.threads[o];
    assert Seen(w, w', t, pc);
    RefsStable(w, w', t, pc);
    HoldsStable(w, w', t, o, pc);
    CallsStable(w, w', t, o, pc);
    RunnerStable(w, w', t, o, pc);
    DownStable(w, w', t, o, pc);
    RevokeStable(w, w', t, o, pc);
    if HoldsMu(pc) { SectionStable(w, w', t, o, pc); }
    PendingStable(w, w', t, pc);
  }

  // ------------------------------------------------------------ slots and entries

  lemma GateStable(w: World, w': World, t: Tid, s: SlotId)
    requires s in w.slots && SlotStep(w, w', t, s) && ThreadsStep(w, w', t) && GateOk(w, s)
    ensures GateOk(w', s)
  {
  }

  lemma RevokeFlagStable(w: World, w': World, t: Tid, s: SlotId)
    requires s in w.slots && SlotStep(w, w', t, s) && ThreadsStep(w, w', t) && RevokeFlagOk(w, s)
    ensures RevokeFlagOk(w', s)
  {
  }

  lemma CurrentStable(w: World, w': World, t: Tid, s: SlotId)
    requires s in w.slots && SlotStep(w, w', t, s) && SlotOk(w, s)
    requires forall e <- w.entries :: EntryStep(w, w', t, e)
    ensures w'.slots[s].core.current.Some? ==>
          w'.slots[s].core.current.value in w'.entries && w'.entries[w'.slots[s].core.current.value].slot == s
  {
  }

  lemma SlotStable(w: World, w': World, t: Tid, s: SlotId)
    requires StepOk(w, w', t) && s in w.slots && SlotOk(w, s)
    ensures SlotOk(w', s)
  {
    assert SlotStep(w, w', t, s);
    GateStable(w, w', t, s);
    RevokeFlagStable(w, w', t, s);
    CurrentStable(w, w', t, s);
    assert OutStep(w, w', s) && FenceStep(w, w', s) && StopStepOk(w, w', s);
  }

  lemma NewSlotStable(w: World, w': World, t: Tid, s: SlotId)
    requires StepOk(w, w', t) && s !in w.slots && s in w'.slots
    ensures SlotOk(w', s)
  {
  }

  lemma EntryStable(w: World, w': World, t: Tid, e: EntryId)
    requires StepOk(w, w', t) && e in w.entries && EntryOk(w, e)
    ensures EntryOk(w', e)
  {
    assert EntryStep(w, w', t, e);
    assert SlotStep(w, w', t, w.entries[e].slot);
  }

  lemma HoldersStable(w: World, w': World, t: Tid, s: SlotId)
    requires ThreadsStep(w, w', t)
    ensures |Holders(w'.threads, s)|
         == |Holders(w.threads, s)| - One(HandleAt(PcOf(w, t), s)) + One(HandleAt(PcOf(w', t), s))
  {
    var holders := Holders(w.threads, s) - {t};
    assert Holders(w'.threads, s) == if HandleAt(PcOf(w', t), s) then holders + {t} else holders;
  }

  lemma WaitersStable(w: World, w': World, t: Tid, s: SlotId)
    requires ThreadsStep(w, w', t)
    ensures |Waiters(w'.threads, s)|
         == |Waiters(w.threads, s)| - One(WaitsAt(PcOf(w, t), s)) + One(WaitsAt(PcOf(w', t), s))
  {
    var waiters := Waiters(w.threads, s) - {t};
    assert Waiters(w'.threads, s) == if WaitsAt(PcOf(w', t), s) then waiters + {t} else waiters;
  }

  /** No goroutine stands at a slot that does not exist yet. */
  lemma NewSlotUncounted(w: World, s: SlotId)
    requires s !in w.slots && forall t <- w.threads :: RefsOk(w, w.threads[t])
    ensures Holders(w.threads, s) == {} && Waiters(w.threads, s) == {}
  {
  }

  lemma CountsStable(w: World, w': World, t: Tid)
    requires StepOk(w, w', t) && CountsOk(w) && forall o <- w.threads :: RefsOk(w, w.threads[o])
    ensures CountsOk(w')
  {
    forall s <- w'.slots
      ensures w'.slots[s].core.handles == |Holders(w'.threads, s)|
      ensures w'.slots[s].revokeWaiters == |Waiters(w'.threads, s)|
    {
      HoldersStable(w, w', t, s);
      WaitersStable(w, w', t, s);
      if s in w.slots {
        assert SlotStep(w, w', t, s);
      } else {
        NewSlotUncounted(w, s);
        assert NewSlotOk(w', PcOf(w', t), s);
      }
    }
  }

  lemma TableStable(w: World, w': World, t: Tid)
    requires StepOk(w, w', t) && TableOk(w)
    ensures TableOk(w')
  {
  }

  lemma RootStable(w: World, w': World, t: Tid)
    requires StepOk(w, w', t) && TableOk(w) && (w.rootStopped ==> w.stopped && AllEmpty(w))
    ensures w'.rootStopped ==> w'.stopped && AllEmpty(w')
  {
  }

  lemma ThreadsStable(w: World, w': World, t: Tid)
    requires StepOk(w, w', t)
    requires forall o <- w.threads :: ThreadOk(w, o, w.threads[o])
    requires forall s <- w.slots :: RevokeFlagOk(w, s)
    ensures forall o <- w'.threads :: ThreadOk(w', o, w'.threads[o])
  {
    forall o <- w'.threads ensures ThreadOk(w', o, w'.threads[o]) {
      if o != t && o in w.threads {
        assert ThreadOk(w, o, w.threads[o]);
        ThreadStable(w, w', t, o);
      }
    }
  }

  lemma SlotsStable(w: World, w': World, t: Tid)
    requires StepOk(w, w', t) && forall s <- w.slots :: SlotOk(w, s)
    ensures forall s <- w'.slots :: SlotOk(w', s)
  {
    forall s <- w'.slots ensures SlotOk(w', s) {
      if s in w.slots { SlotStable(w, w', t, s); } else { NewSlotStable(w, w', t, s); }
    }
  }

  lemma EntriesStable(w: World, w': World, t: Tid)
    requires StepOk(w, w', t) && forall e <- w.entries :: EntryOk(w, e)
    ensures forall e <- w'.entries :: EntryOk(w', e)
  {
    forall e <- w'.entries ensures EntryOk(w', e) {
      if e in w.entries { EntryStable(w, w', t, e); } else { assert NewEntryOk(w', e); }
    }
  }

  lemma MuStable(w: World, w': World, t: Tid)
    requires StepOk(w, w', t) && (w.mu.Some? ==> w.mu.value in w.threads && HoldsMu(w.threads[w.mu.value]))
    ensures w'.mu.Some? ==> w'.mu.value in w'.threads && HoldsMu(w'.threads[w'.mu.value])
  {
  }

  /** Any step of the shape above keeps the invariant. */
  lemma StepKeepsInv(w: World, w': World, t: Tid)
    requires Inv(w) && StepOk(w, w', t)
    ensures Inv(w')
  {
    assert forall s <- w.slots :: SlotOk(w, s) && RevokeFlagOk(w, s);
    assert forall o <- w.threads :: ThreadOk(w, o, w.threads[o]) && RefsOk(w, w.threads[o]);
    ThreadsStable(w, w', t);
    SlotsStable(w, w', t);
    EntriesStable(w, w', t);
    CountsStable(w, w', t);
    TableStable(w, w', t);
    RootStable(w, w', t);
    MuStable(w, w', t);
  }
}

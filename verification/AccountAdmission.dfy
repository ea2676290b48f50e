/** The steps of reserve and acquireRevoke keep the invariant. */
module AccountAdmission {
  import opened Options
  import opened Targets
  import opened Slots
  import opened AccountWorld
  import opened AccountSteps
  import opened AccountInvariant
  import opened AccountRely
  import opened AccountLocal
  import Fences

  lemma BeginOk(w: World, t: Tid, want: Want)
    requires Here(w, t) && CanBegin(w, t, want)
    ensures StepOk(w, DoBegin(w, t, want), t)
  {
    FreeMoveOk(w, t, Retry(want));
  }

  /** A waiting revoke keeps its slot in the table. */
  lemma AddWaiterSlot(w: World, t: Tid, target: Target, s: SlotId)
    requires ThreadOk(w, t, PcOf(w, t)) && PcOf(w, t).Retry? && w.mu.None? && InTable(w, s) && SlotOk(w, s)
    ensures var w' := AddWaiter(w, t, target, s);
            SlotStep(w, w', t, s) && OutStep(w, w', s) && FenceStep(w, w', s) && StopStepOk(w, w', s)
  {
  }

  lemma AddWaiterOk(w: World, t: Tid, target: Target, s: SlotId)
    requires Here(w, t) && PcOf(w, t).Retry? && w.mu.None? && InTable(w, s) && SlotOk(w, s)
    requires w.slots[s].key == target.key
    ensures StepOk(w, AddWaiter(w, t, target, s), t)
  {
    AddWaiterSlot(w, t, target, s);
    RevokeThreadOk(AddWaiter(w, t, target, s), t, RevokeWait(target, s));
    InsideOk(w, AddWaiter(w, t, target, s), t, {s}, {});
  }

  lemma LookupAdmitOk(w: World, t: Tid, target: Target, s: SlotId)
    requires Here(w, t) && PcOf(w, t).Retry? && w.mu.None? && InTable(w, s) && SlotOk(w, s) && !w.stopped
    requires w.slots[s].key == target.key && !Fences.Blocks(w.fences, target.key, target.version)
    ensures StepOk(w, Lock(w, t, Admit(target, s, w.slots[s].core.current, w.slots[s].core.stopping)), t)
  {
    SectionOfOk(w, t, Admit(target, s, w.slots[s].core.current, w.slots[s].core.stopping));
  }

  lemma LookupOk(w: World, t: Tid)
    requires Here(w, t) && TableOk(w) && CanLookup(w, t)
    requires forall s <- w.slots :: SlotOk(w, s)
    ensures StepOk(w, DoLookup(w, t), t)
  {
    var want := PcOf(w, t).want;
    var key := want.target.key;
    if w.stopped || (want.ToExecute? && Fences.Blocks(w.fences, key, want.target.version)) {
      FreeMoveOk(w, t, Idle);
    } else if key !in w.table {
      SectionOfOk(w, t, NoSlot(want));
    } else if want.ToRevoke? {
      AddWaiterOk(w, t, want.target, w.table[key]);
    } else {
      LookupAdmitOk(w, t, want.target, w.table[key]);
    }
  }

  lemma PickVictimOk(w: World, t: Tid, s: SlotId)
    requires Here(w, t) && CanPickVictim(w, t, s) && SlotOk(w, s)
    ensures StepOk(w, DoPickVictim(w, t, s), t)
  {
    SectionOfOk(w, t, Victim(PcOf(w, t).want, s, w.slots[s].core.current.value));
    assert Put(w, t, Victim(PcOf(w, t).want, s, w.slots[s].core.current.value)).mu == Some(t);
  }

  lemma PickNoneOk(w: World, t: Tid)
    requires Here(w, t) && CanPickNone(w, t)
    ensures StepOk(w, DoPickNone(w, t), t)
  {
    SectionOfOk(w, t, NoRoom(PcOf(w, t).want));
    assert Put(w, t, NoRoom(PcOf(w, t).want)).mu == Some(t);
  }

  lemma CloseVictimThread(w: World, t: Tid, seen: bool)
    requires Here(w, t) && CanCloseVictim(w, t, seen)
    ensures ThreadOk(DoCloseVictim(w, t, seen), t, PcOf(DoCloseVictim(w, t, seen), t))
  {
    var w' := DoCloseVictim(w, t, seen);
    if seen {
      DownThreadOk(w', t, PcOf(w', t));
    } else {
      SectionThreadOk(w', t, PcOf(w', t));
    }
  }

  lemma CloseVictimSlot(w: World, t: Tid, seen: bool)
    requires Here(w, t) && CanCloseVictim(w, t, seen)
    ensures var w', s := DoCloseVictim(w, t, seen), PcOf(w, t).s;
            SlotStep(w, w', t, s) && OutStep(w, w', s) && FenceStep(w, w', s) && StopStepOk(w, w', s)
  {
  }

  lemma CloseVictimFrame(w: World, t: Tid, seen: bool)
    requires ThreadOk(w, t, PcOf(w, t)) && CanCloseVictim(w, t, seen)
    ensures var w', pc, s := DoCloseVictim(w, t, seen), PcOf(w, t), PcOf(w, t).s;
            && Inside(w, w', t, {s}, {}) && w'.fences == w.fences
            && Tracks(w.mu, w'.mu, HoldsMu(pc), HoldsMu(PcOf(w', t)), t)
            && HoldsNothing(pc) && HoldsNothing(PcOf(w', t)) && !InStop(PcOf(w', t)) && !Calls(PcOf(w', t))
  {
  }

  lemma CloseVictimOk(w: World, t: Tid, seen: bool)
    requires Here(w, t) && CanCloseVictim(w, t, seen)
    ensures StepOk(w, DoCloseVictim(w, t, seen), t)
  {
    CloseVictimSlot(w, t, seen);
    CloseVictimThread(w, t, seen);
    CloseVictimFrame(w, t, seen);
    InsideOk(w, DoCloseVictim(w, t, seen), t, {PcOf(w, t).s}, {});
  }

  // ---------------------------------------------------------------- a new slot

  /** A section puts an empty slot into the table; `t` may wait for its teardown gate. */
  ghost predicate Makes(w: World, w': World, t: Tid, s: SlotId, key: nat) {
    && s !in w.slots && key !in w.table && w.mu == Some(t) && t in w'.threads
    && s in w'.slots && w'.slots == w.slots[s := w'.slots[s]] && w'.slots[s].key == key
    && w'.table == w.table[key := s] && |w.table| < w.capacity && w'.capacity == w.capacity
    && w'.threads == w.threads[t := w'.threads[t]] && w'.entries == w.entries && w'.fences == w.fences
    && w'.stopped == w.stopped && w'.rootStopped == w.rootStopped && w'.masked == w.masked && !w.stopped
  }

  lemma MakesTable(w: World, w': World, t: Tid, s: SlotId, key: nat)
    requires Makes(w, w', t, s, key) && TableOk(w)
    ensures TableOk(w')
    ensures forall r <- w.slots :: InTable(w', r) <==> InTable(w, r)
  {
  }

  lemma MakesSlots(w: World, w': World, t: Tid, s: SlotId, key: nat)
    requires Makes(w, w', t, s, key) && TableOk(w) && ThreadOk(w, t, PcOf(w, t))
    requires forall r :: r != s ==> SameAt(PcOf(w, t), PcOf(w', t), r)
    ensures forall r <- w.slots :: SlotStep(w, w', t, r) && OutStep(w, w', r) && FenceStep(w, w', r) && StopStepOk(w, w', r)
  {
    MakesTable(w, w', t, s, key);
    forall r <- w.slots
      ensures SlotStep(w, w', t, r) && OutStep(w, w', r) && FenceStep(w, w', r) && StopStepOk(w, w', r)
    {
      QuietSlot(w, w', t, r);
    }
  }

  lemma MakesNew(w: World, w': World, t: Tid, s: SlotId, key: nat)
    requires Makes(w, w', t, s, key) && NewSlotOk(w', PcOf(w', t), s)
    ensures OutStep(w, w', s) && FenceStep(w, w', s) && StopStepOk(w, w', s)
  {
  }

  lemma MakesOk(w: World, w': World, t: Tid, s: SlotId, key: nat)
    requires Makes(w, w', t, s, key) && TableOk(w) && ThreadOk(w, t, PcOf(w, t)) && ThreadOk(w', t, PcOf(w', t))
    requires forall r :: r != s ==> SameAt(PcOf(w, t), PcOf(w', t), r)
    requires MuStep(w, w', t) && NewSlotOk(w', PcOf(w', t), s) && !Calls(PcOf(w, t)) && !Calls(PcOf(w', t))
    ensures StepOk(w, w', t)
  {
    MakesSlots(w, w', t, s, key);
    MakesNew(w, w', t, s, key);
    forall e <- w.entries ensures EntryStep(w, w', t, e) { QuietEntry(w, w', t, e); }
  }

  lemma MakesMu(w: World, w': World, t: Tid, s: SlotId, key: nat)
    requires Makes(w, w', t, s, key) && TableOk(w)
    requires Tracks(w.mu, w'.mu, true, HoldsMu(PcOf(w', t)), t) && HoldsMu(PcOf(w, t))
    ensures MuStep(w, w', t)
  {
  }

  lemma MakeSlotThread(w: World, t: Tid, s: SlotId)
    requires CanMakeSlot(w, t, s) && |w.table| < w.capacity && WantOk(w, PcOf(w, t).want) && w.mu == Some(t)
    ensures ThreadOk(DoMakeSlot(w, t, s), t, PcOf(DoMakeSlot(w, t, s), t))
  {
    var w' := DoMakeSlot(w, t, s);
    if PcOf(w, t).want.ToRevoke? {
      RevokeThreadOk(w', t, PcOf(w', t));
    } else {
      SectionThreadOk(w', t, PcOf(w', t));
    }
  }

  lemma MakeSlotNew(w: World, t: Tid, s: SlotId)
    requires CanMakeSlot(w, t, s) && |w.table| < w.capacity && WantOk(w, PcOf(w, t).want) && w.mu == Some(t) && t in w.threads
    ensures Makes(w, DoMakeSlot(w, t, s), t, s, PcOf(w, t).want.target.key)
    ensures NewSlotOk(DoMakeSlot(w, t, s), PcOf(DoMakeSlot(w, t, s), t), s)
    ensures Tracks(w.mu, DoMakeSlot(w, t, s).mu, true, HoldsMu(PcOf(DoMakeSlot(w, t, s), t)), t)
  {
  }

  lemma NoRoomHere(w: World, t: Tid)
    requires PcOf(w, t).NoRoom? && ThreadOk(w, t, PcOf(w, t))
    ensures w.mu == Some(t) && WantOk(w, PcOf(w, t).want) && t in w.threads
  {
  }

  lemma MakeSlotOk(w: World, t: Tid, s: SlotId)
    requires Here(w, t) && TableOk(w) && CanMakeSlot(w, t, s)
    ensures StepOk(w, DoMakeSlot(w, t, s), t)
  {
    NoRoomHere(w, t);
    if |w.table| >= w.capacity {
      LeaveSectionOk(w, t, Idle);
    } else {
      MakeSlotThread(w, t, s);
      MakeSlotNew(w, t, s);
      MakesMu(w, DoMakeSlot(w, t, s), t, s, PcOf(w, t).want.target.key);
      MakesOk(w, DoMakeSlot(w, t, s), t, s, PcOf(w, t).want.target.key);
    }
  }

  // ---------------------------------------------------- the section of reserve

  lemma RejectOk(w: World, t: Tid)
    requires Here(w, t) && PcOf(w, t).Admit?
    ensures StepOk(w, Unlock(w, t, Idle), t)
  {
    LeaveSectionOk(w, t, Idle);
  }

  lemma ReuseSlot(w: World, t: Tid, e: EntryId)
    requires Here(w, t) && PcOf(w, t).Admit? && CanReserve(w.slots[PcOf(w, t).s].core, e)
    ensures var pc := PcOf(w, t);
            var w' := Unlock(SetCore(w, pc.s, ReserveHandle(w.slots[pc.s].core)), t, Exec(Opening, pc.target, pc.s, e));
            SlotStep(w, w', t, pc.s) && OutStep(w, w', pc.s) && FenceStep(w, w', pc.s) && StopStepOk(w, w', pc.s)
  {
  }

  lemma ReuseOk(w: World, t: Tid, e: EntryId)
    requires Here(w, t) && PcOf(w, t).Admit? && CanReserve(w.slots[PcOf(w, t).s].core, e) && e in w.entries
    requires w.entries[e].slot == PcOf(w, t).s
    ensures var pc := PcOf(w, t);
            StepOk(w, Unlock(SetCore(w, pc.s, ReserveHandle(w.slots[pc.s].core)), t, Exec(Opening, pc.target, pc.s, e)), t)
  {
    var pc := PcOf(w, t);
    var w' := Unlock(SetCore(w, pc.s, ReserveHandle(w.slots[pc.s].core)), t, Exec(Opening, pc.target, pc.s, e));
    ReuseSlot(w, t, e);
    ExecThreadOk(w', t, PcOf(w', t));
    InsideOk(w, w', t, {pc.s}, {});
  }

  function Replaced(w: World, t: Tid, e: EntryId, close: bool): World
    requires PcOf(w, t).Admit? && PcOf(w, t).s in w.slots
  {
    var pc := PcOf(w, t);
    Unlock(if close then SetCore(w, pc.s, CloseAdmission(w.slots[pc.s].core)) else w, t,
           Down(AwaitRevoke, pc.s, e, Readmit(ToExecute(pc.target))))
  }

  lemma ReplaceSlot(w: World, t: Tid, e: EntryId, close: bool)
    requires Here(w, t) && PcOf(w, t).Admit?
    ensures var w', s := Replaced(w, t, e, close), PcOf(w, t).s;
            SlotStep(w, w', t, s) && OutStep(w, w', s) && FenceStep(w, w', s) && StopStepOk(w, w', s)
  {
  }

  /** An older entry is closed, or was seen closing, and is torn down first. */
  lemma ReplaceOk(w: World, t: Tid, e: EntryId, close: bool)
    requires Here(w, t) && PcOf(w, t).Admit? && PcOf(w, t).seen == Some(e)
    requires close || (w.slots[PcOf(w, t).s].core.current.Some? ==> w.slots[PcOf(w, t).s].core.closed)
    ensures StepOk(w, Replaced(w, t, e, close), t)
  {
    ReplaceSlot(w, t, e, close);
    DownThreadOk(Replaced(w, t, e, close), t, PcOf(Replaced(w, t, e, close), t));
    InsideOk(w, Replaced(w, t, e, close), t, {PcOf(w, t).s}, {});
  }

  ghost predicate Publishes(w: World, t: Tid, stopSeen: bool, e: EntryId, b: Tid) {
    && Here(w, t) && CanAdmit(w, t, stopSeen, e, b) && PcOf(w, t).seen.None?
    && w.slots[PcOf(w, t).s].core.current.None? && !w.slots[PcOf(w, t).s].core.closed && !stopSeen
    && !w.slots[PcOf(w, t).s].revokeRunning && w.slots[PcOf(w, t).s].revokeWaiters == 0
  }

  lemma PublishSlot(w: World, t: Tid, stopSeen: bool, e: EntryId, b: Tid)
    requires Publishes(w, t, stopSeen, e, b)
    ensures var w', s := DoAdmit(w, t, stopSeen, e, b), PcOf(w, t).s;
            SlotStep(w, w', t, s) && OutStep(w, w', s)
  {
  }

  lemma PublishShut(w: World, t: Tid, stopSeen: bool, e: EntryId, b: Tid)
    requires Publishes(w, t, stopSeen, e, b)
    ensures var w', s := DoAdmit(w, t, stopSeen, e, b), PcOf(w, t).s; FenceStep(w, w', s) && StopStepOk(w, w', s)
  {
  }

  lemma PublishInstalls(w: World, t: Tid, stopSeen: bool, e: EntryId, b: Tid)
    requires Publishes(w, t, stopSeen, e, b)
    ensures var w', pc := DoAdmit(w, t, stopSeen, e, b), PcOf(w, t);
            && Installs(w, w', t, Exec(Opening, pc.target, pc.s, e), pc.s, e, b) && FencesStep(w, w', t)
            && ThreadOk(w', t, Exec(Opening, pc.target, pc.s, e))
  {
    ExecThreadOk(DoAdmit(w, t, stopSeen, e, b), t, Exec(Opening, PcOf(w, t).target, PcOf(w, t).s, e));
  }

  lemma PublishOk(w: World, t: Tid, stopSeen: bool, e: EntryId, b: Tid)
    requires Publishes(w, t, stopSeen, e, b) && SlotsFacts(w)
    ensures StepOk(w, DoAdmit(w, t, stopSeen, e, b), t)
  {
    var w', pc := DoAdmit(w, t, stopSeen, e, b), PcOf(w, t);
    PublishSlot(w, t, stopSeen, e, b);
    PublishShut(w, t, stopSeen, e, b);
    PublishInstalls(w, t, stopSeen, e, b);
    InstallOk(w, w', t, Exec(Opening, pc.target, pc.s, e), pc.s, e, b);
  }

  lemma AdmitOk(w: World, t: Tid, stopSeen: bool, e: EntryId, b: Tid)
    requires Here(w, t) && SlotsFacts(w) && CanAdmit(w, t, stopSeen, e, b)
    ensures StepOk(w, DoAdmit(w, t, stopSeen, e, b), t)
  {
    var pc := PcOf(w, t);
    var slot := w.slots[pc.s];
    if slot.revokeRunning || slot.revokeWaiters > 0 {
      RejectOk(w, t);
    } else if pc.seen.Some? {
      var current := w.entries[pc.seen.value].target;
      if current == pc.target && !stopSeen {
        if CanReserve(slot.core, pc.seen.value) { ReuseOk(w, t, pc.seen.value); } else { RejectOk(w, t); }
      } else if pc.target.version <= current.version {
        RejectOk(w, t);
      } else {
        ReplaceOk(w, t, pc.seen.value, !stopSeen);
      }
    } else if stopSeen || w.stopped || slot.core.current.Some? || slot.core.closed || slot.core.stopping {
      RejectOk(w, t);
    } else {
      PublishOk(w, t, stopSeen, e, b);
    }
  }

  lemma AdmissionOk(w: World, t: Tid, step: AdmissionStep)
    requires Here(w, t) && TableOk(w) && SlotsFacts(w) && CanAdmission(w, t, step)
    requires forall s <- w.slots :: SlotOk(w, s)
    ensures StepOk(w, DoAdmission(w, t, step), t)
  {
    match step
    case Begin(want) => BeginOk(w, t, want);
    case Lookup => LookupOk(w, t);
    case PickVictim(s) => PickVictimOk(w, t, s);
    case PickNone => PickNoneOk(w, t);
    case CloseVictim(seen) => CloseVictimOk(w, t, seen);
    case MakeSlot(s) => MakeSlotOk(w, t, s);
    case AdmitStep(stopSeen, e, b) => AdmitOk(w, t, stopSeen, e, b);
  }
}

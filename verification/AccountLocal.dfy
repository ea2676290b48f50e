module AccountLocal {
  import opened Options
  import opened Targets
  import opened Slots
  import opened AccountWorld
  import opened AccountSteps
  import opened AccountInvariant
  import opened AccountRely
  import Fences

  /** Everything the invariant says about the place where `t` stands. */
  ghost predicate Here(w: World, t: Tid) {
    var pc := PcOf(w, t);
    && ThreadOk(w, t, pc)
    && (HasSlot(pc) ==> SlotOk(w, pc.s))
    && (HasEntry(pc) ==> EntryOk(w, pc.e))
    && (HoldsHandle(pc) ==> w.slots[pc.s].core.handles > 0)
    && (Waits(pc) ==> w.slots[pc.s].revokeWaiters > 0)
  }

  lemma HereFromInv(w: World, t: Tid)
    requires Inv(w)
    ensures Here(w, t)
  {
    var pc := PcOf(w, t);
    if t in w.threads {
      assert ThreadOk(w, t, pc);
      if HasSlot(pc) {
        assert SlotOk(w, pc.s);
        assert t in Holders(w.threads, pc.s) <==> HandleAt(pc, pc.s);
        assert t in Waiters(w.threads, pc.s) <==> WaitsAt(pc, pc.s);
      }
      if HasEntry(pc) { assert EntryOk(w, pc.e); }
    }
  }

  /** A counter that stands nowhere and holds nothing. */
  predicate Free(pc: Pc) { !HasSlot(pc) && !HoldsMu(pc) }

  lemma FreeThreadOk(w: World, t: Tid, pc: Pc)
    requires Free(pc) && StopsOk(w, pc) && PendingOk(w, pc)
    ensures ThreadOk(w, t, pc)
  {
  }

  /** A counter inside a section of the registry mutex. */
  lemma SectionThreadOk(w: World, t: Tid, pc: Pc)
    requires HoldsMu(pc) && !HoldsTeardown(pc) && w.mu == Some(t)
    requires RefsOk(w, pc) && SectionOk(w, pc) && PendingOk(w, pc)
    ensures ThreadOk(w, t, pc)
  {
  }

  lemma RevokeThreadOk(w': World, t: Tid, pc: Pc)
    requires pc.Revoke? || pc.RevokeLeave? || pc.RevokeTop? || pc.RevokeTurn? || pc.RevokeUngate? || pc.RevokeWait?
    requires RefsOk(w', pc) && RevokeOk(w', pc)
    requires HoldsTeardown(pc) ==> w'.slots[pc.s].teardownGate == Some(t)
    requires RevokeRuns(pc) ==> w'.slots[pc.s].revokeRunning
    requires RunsPrivileged(pc) ==> CallbackOf(w'.entries[pc.e]) == Some(t)
    ensures ThreadOk(w', t, pc)
  {
  }

  lemma ExecThreadOk(w': World, t: Tid, pc: Pc)
    requires pc.Exec? && pc.s in w'.slots && pc.e in w'.entries && w'.entries[pc.e].slot == pc.s
    requires HoldsGate(pc) ==> w'.slots[pc.s].gate == Some(t)
    requires pc.at.Calling? ==> CallbackOf(w'.entries[pc.e]) == Some(t)
    ensures ThreadOk(w', t, pc)
  {
  }

  lemma DownThreadOk(w': World, t: Tid, pc: Pc)
    requires pc.Down? && StopsOk(w', pc) && RefsOk(w', pc) && DownOk(w', pc) && PendingOk(w', pc)
    requires HoldsTeardown(pc) ==> w'.slots[pc.s].teardownGate == Some(t)
    ensures ThreadOk(w', t, pc)
  {
  }

  predicate InStop(pc: Pc) { pc.StopAll? || pc.StopClose? }

  /** The counters `pc` and `pc'` hold the same of slot `s`. */
  predicate SameAt(pc: Pc, pc': Pc, s: SlotId) {
    && GateAt(pc, s) == GateAt(pc', s) && TeardownAt(pc, s) == TeardownAt(pc', s)
    && HandleAt(pc, s) == HandleAt(pc', s) && WaitsAt(pc, s) == WaitsAt(pc', s)
    && OperationAt(pc, s) == OperationAt(pc', s) && RevokeAtSlot(pc, s) == RevokeAtSlot(pc', s)
  }

  predicate HoldsNothing(pc: Pc) {
    !HoldsGate(pc) && !HoldsTeardown(pc) && !HoldsHandle(pc) && !Waits(pc)
  }

  predicate Calls(pc: Pc) { RunsOrdinary(pc) || RunsPrivileged(pc) }

  /** A step of `t` inside slot `s` and entry `e`: nothing shared but the registry mutex changes elsewhere. */
  predicate Inside(w: World, w': World, t: Tid, ss: set<SlotId>, es: set<EntryId>) {
    && t in w'.threads && w'.threads == w.threads[t := w'.threads[t]]
    && w'.slots.Keys == w.slots.Keys && w'.entries.Keys == w.entries.Keys
    && (forall s <- w.slots :: s !in ss ==> w'.slots[s] == w.slots[s])
    && (forall e <- w.entries :: e !in es ==> w'.entries[e] == w.entries[e])
    && w'.table == w.table && w'.capacity == w.capacity
    && w'.stopped == w.stopped && w'.rootStopped == w.rootStopped && w.masked <= w'.masked
    && (w'.masked != w.masked ==> PcOf(w, t).Revoke? && PcOf(w, t).rev.TearJoin?)
  }

  lemma QuietSlot(w: World, w': World, t: Tid, s: SlotId)
    requires ThreadOk(w, t, PcOf(w, t)) && SameAt(PcOf(w, t), PcOf(w', t), s)
    requires s in w.slots && s in w'.slots && w'.slots[s] == w.slots[s]
    ensures SlotStep(w, w', t, s)
  {
  }

  lemma QuietEntry(w: World, w': World, t: Tid, e: EntryId)
    requires ThreadOk(w, t, PcOf(w, t)) && CallsOn(PcOf(w, t), e) == CallsOn(PcOf(w', t), e)
    requires e in w.entries && e in w'.entries && w'.entries[e] == w.entries[e]
    requires w.entries[e].slot in w.slots ==>
          w.entries[e].slot in w'.slots
    ensures EntryStep(w, w', t, e)
  {
  }

  /** Which slots a stopping section still has to close does not change. */
  lemma SameToClose(w: World, w': World, t: Tid)
    requires w'.threads == w.threads[t := PcOf(w', t)] && !InStop(PcOf(w, t)) && !InStop(PcOf(w', t))
    requires Tracks(w.mu, w'.mu, HoldsMu(PcOf(w, t)), HoldsMu(PcOf(w', t)), t)
    ensures ToClose(w') == ToClose(w)
  {
  }

  lemma QuietShut(w: World, w': World, t: Tid, ss: set<SlotId>, es: set<EntryId>, s: SlotId)
    requires Inside(w, w', t, ss, es) && s in w.slots && w'.slots[s] == w.slots[s] && ToClose(w') == ToClose(w)
    requires forall e <- es :: EntryStep(w, w', t, e)
    ensures OutStep(w, w', s) && StopStepOk(w, w', s)
    ensures w'.fences == w.fences ==> FenceStep(w, w', s)
  {
  }

  /** The registry mutex is free, or `t` holds it. */
  predicate MayUseMu(w: World, t: Tid) { w.mu.None? || w.mu == Some(t) }

  /** The fences stay as they are, or change inside a section without uncovering an open entry. */
  ghost predicate FencesStep(w: World, w': World, t: Tid) {
    w'.fences == w.fences
    || (MayUseMu(w, t) && (Fences.Valid(w.fences) ==> Fences.Valid(w'.fences))
        && forall s <- w.slots :: FenceStep(w, w', s))
  }

  /** A step of `t` obeys the protocol everywhere if it does so where it acts. */
  lemma InsideOk(w: World, w': World, t: Tid, ss: set<SlotId>, es: set<EntryId>)
    requires ThreadOk(w, t, PcOf(w, t)) && Inside(w, w', t, ss, es)
    requires !InStop(PcOf(w, t)) && !InStop(PcOf(w', t))
    requires Tracks(w.mu, w'.mu, HoldsMu(PcOf(w, t)), HoldsMu(PcOf(w', t)), t)
    requires ThreadOk(w', t, PcOf(w', t)) && FencesStep(w, w', t)
    requires forall s <- w.slots :: s !in ss ==> SameAt(PcOf(w, t), PcOf(w', t), s)
    requires forall e <- w.entries :: e !in es ==> CallsOn(PcOf(w, t), e) == CallsOn(PcOf(w', t), e)
    requires forall s <- ss :: SlotStep(w, w', t, s) && OutStep(w, w', s) && FenceStep(w, w', s) && StopStepOk(w, w', s)
    requires forall e <- es :: EntryStep(w, w', t, e)
    ensures StepOk(w, w', t)
  {
    SameToClose(w, w', t);
    forall s <- w.slots ensures SlotStep(w, w', t, s) && OutStep(w, w', s) && FenceStep(w, w', s) && StopStepOk(w, w', s) {
      if s !in ss {
        QuietSlot(w, w', t, s);
        QuietShut(w, w', t, ss, es, s);
      }
    }
    forall e <- w.entries ensures EntryStep(w, w', t, e) {
      if e !in es { QuietEntry(w, w', t, e); }
    }
  }

  // ------------------------------------------------------------- shapes of a step

  /** Neither counter is in a section or in a callback. */
  predicate Plain(pc: Pc) { !InStop(pc) && !HoldsMu(pc) && !Calls(pc) }

  predicate SameSlot(pc: Pc, pc': Pc) { HasSlot(pc) && HasSlot(pc') && pc.s == pc'.s }

  /** Only the counter of `t` moves, at one slot. */
  lemma MoveOk(w: World, t: Tid, pc': Pc)
    requires ThreadOk(w, t, PcOf(w, t)) && SameSlot(PcOf(w, t), pc') && Plain(PcOf(w, t)) && Plain(pc')
    requires SameAt(PcOf(w, t), pc', pc'.s) && ThreadOk(Put(w, t, pc'), t, pc')
    ensures StepOk(w, Put(w, t, pc'), t)
  {
    InsideOk(w, Put(w, t, pc'), t, {}, {});
  }

  /** The counter and the registry mutex move; `t` stands at no slot it holds anything of. */
  lemma LockMoveOk(w: World, t: Tid, pc': Pc, mu: Option<Tid>)
    requires ThreadOk(w, t, PcOf(w, t)) && HoldsNothing(PcOf(w, t)) && HoldsNothing(pc')
    requires !InStop(PcOf(w, t)) && !InStop(pc')
    requires Tracks(w.mu, mu, HoldsMu(PcOf(w, t)), HoldsMu(pc'), t)
    requires ThreadOk(Put(w, t, pc').(mu := mu), t, pc')
    ensures StepOk(w, Put(w, t, pc').(mu := mu), t)
  {
    InsideOk(w, Put(w, t, pc').(mu := mu), t, {}, {});
  }

  /** Nothing but the counter moves, between places where `t` holds nothing. */
  lemma FreeMoveOk(w: World, t: Tid, pc': Pc)
    requires ThreadOk(w, t, PcOf(w, t)) && HoldsNothing(PcOf(w, t)) && !HoldsMu(PcOf(w, t))
    requires Free(pc') && StopsOk(w, pc') && PendingOk(w, pc')
    ensures StepOk(w, Put(w, t, pc'), t)
  {
    FreeThreadOk(Put(w, t, pc'), t, pc');
    LockMoveOk(w, t, pc', w.mu);
  }

  /** A section of the registry mutex ends; `t` holds nothing. */
  lemma LeaveSectionOk(w: World, t: Tid, pc': Pc)
    requires ThreadOk(w, t, PcOf(w, t)) && HoldsNothing(PcOf(w, t)) && HoldsMu(PcOf(w, t)) && !InStop(PcOf(w, t))
    requires Free(pc') && StopsOk(w, pc') && PendingOk(w, pc')
    ensures StepOk(w, Unlock(w, t, pc'), t)
  {
    FreeThreadOk(Unlock(w, t, pc'), t, pc');
    LockMoveOk(w, t, pc', None);
  }

  /** A section begins, or reads more. */
  lemma SectionOfOk(w: World, t: Tid, pc': Pc)
    requires ThreadOk(w, t, PcOf(w, t)) && HoldsNothing(PcOf(w, t)) && !InStop(PcOf(w, t))
    requires if HoldsMu(PcOf(w, t)) then w.mu == Some(t) else w.mu.None?
    requires HoldsMu(pc') && HoldsNothing(pc') && !InStop(pc')
    requires RefsOk(w, pc') && SectionOk(w, pc') && PendingOk(w, pc')
    ensures StepOk(w, Lock(w, t, pc'), t)
  {
    SectionThreadOk(Lock(w, t, pc'), t, pc');
    LockMoveOk(w, t, pc', Some(t));
  }

  function EntryMove(w: World, t: Tid, pc': Pc, e: EntryId, entry: Entry): World {
    Put(w, t, pc').(entries := w.entries[e := entry])
  }

  /** The counter moves and one entry changes. */
  lemma EntryMoveOk(w: World, t: Tid, pc': Pc, e: EntryId, entry: Entry)
    requires ThreadOk(w, t, PcOf(w, t)) && HasSlot(PcOf(w, t)) && !InStop(PcOf(w, t)) && !InStop(pc')
    requires !HoldsMu(PcOf(w, t)) && !HoldsMu(pc') && e in w.entries
    requires forall s :: SameAt(PcOf(w, t), pc', s)
    requires forall e' :: e' != e ==> !CallsOn(PcOf(w, t), e') && !CallsOn(pc', e')
    requires var w' := EntryMove(w, t, pc', e, entry); EntryStep(w, w', t, e) && ThreadOk(w', t, pc')
    ensures StepOk(w, EntryMove(w, t, pc', e, entry), t)
  {
    InsideOk(w, EntryMove(w, t, pc', e, entry), t, {}, {e});
  }

  /** owner.Stop on the owner of the entry where `t` stands. */
  lemma StopEntryOk(w: World, t: Tid, pc': Pc, e: EntryId, owner: Owner)
    requires ThreadOk(w, t, PcOf(w, t)) && e in w.entries && EntryOk(w, e) && w.entries[e].owner == Some(owner)
    requires Plain(PcOf(w, t)) && Plain(pc') && w.entries[e].slot in w.slots
    ensures EntryStep(w, EntryMove(w, t, pc', e, w.entries[e].(owner := Some(Stopped(owner)))), t, e)
  {
  }

  function SlotMove(w: World, t: Tid, pc': Pc, s: SlotId, slot: Slot): World {
    Put(w, t, pc').(slots := w.slots[s := slot])
  }

  /** The counter moves and its slot changes, but not the slot's entry nor its admission. */
  lemma SlotMoveOk(w: World, t: Tid, pc': Pc, slot: Slot)
    requires ThreadOk(w, t, PcOf(w, t)) && SameSlot(PcOf(w, t), pc') && Plain(PcOf(w, t)) && Plain(pc')
    requires var w' := SlotMove(w, t, pc', pc'.s, slot);
             SlotStep(w, w', t, pc'.s) && ThreadOk(w', t, pc') && (InTable(w, pc'.s) || Inert(slot))
    requires slot.core.current == w.slots[pc'.s].core.current && slot.core.closed == w.slots[pc'.s].core.closed
    ensures StepOk(w, SlotMove(w, t, pc', pc'.s, slot), t)
  {
    var w' := SlotMove(w, t, pc', pc'.s, slot);
    SameToClose(w, w', t);
    InsideOk(w, w', t, {pc'.s}, {});
  }

  /** The counter moves and its slot changes its entry or its admission. */
  lemma CoreMoveOk(w: World, t: Tid, pc': Pc, slot: Slot)
    requires ThreadOk(w, t, PcOf(w, t)) && HasSlot(PcOf(w, t)) && !InStop(PcOf(w, t)) && !InStop(pc')
    requires !Calls(PcOf(w, t)) && !Calls(pc') && !HoldsMu(PcOf(w, t)) && !HoldsMu(pc')
    requires forall r :: r != PcOf(w, t).s ==> SameAt(PcOf(w, t), pc', r)
    requires var w' := SlotMove(w, t, pc', PcOf(w, t).s, slot);
             && SlotStep(w, w', t, PcOf(w, t).s) && ThreadOk(w', t, pc')
             && OutStep(w, w', PcOf(w, t).s) && FenceStep(w, w', PcOf(w, t).s) && StopStepOk(w, w', PcOf(w, t).s)
    ensures StepOk(w, SlotMove(w, t, pc', PcOf(w, t).s, slot), t)
  {
    InsideOk(w, SlotMove(w, t, pc', PcOf(w, t).s, slot), t, {PcOf(w, t).s}, {});
  }

  lemma SweepSlots(w: World, t: Tid, pc': Pc, s: SlotId)
    requires ThreadOk(w, t, PcOf(w, t)) && TableOk(w) && s in w.slots && w.mu.None?
    requires forall r :: SameAt(PcOf(w, t), pc', r)
    ensures var w' := Put(Swept(w, s), t, pc');
            forall r <- w.slots :: SlotStep(w, w', t, r) && OutStep(w, w', r) && FenceStep(w, w', r) && StopStepOk(w, w', r)
  {
    var w' := Put(Swept(w, s), t, pc');
    forall r <- w.slots
      ensures SlotStep(w, w', t, r) && OutStep(w, w', r) && FenceStep(w, w', r) && StopStepOk(w, w', r)
    {
      QuietSlot(w, w', t, r);
      QuietSwept(w, w', s, r);
    }
  }

  lemma SweepMu(w: World, t: Tid, pc': Pc, s: SlotId)
    requires TableOk(w) && s in w.slots && w.mu.None? && !HoldsMu(PcOf(w, t)) && !HoldsMu(pc')
    ensures MuStep(w, Put(Swept(w, s), t, pc'), t)
  {
  }

  lemma SweepEntries(w: World, t: Tid, pc': Pc, s: SlotId)
    requires ThreadOk(w, t, PcOf(w, t)) && !Calls(PcOf(w, t)) && !Calls(pc')
    requires s in w.slots
    ensures forall e <- w.entries :: EntryStep(w, Put(Swept(w, s), t, pc'), t, e)
  {
  }

  /** removeSlot: a slot that refers to nothing leaves the table. */
  lemma SweepOk(w: World, t: Tid, pc': Pc, s: SlotId)
    requires ThreadOk(w, t, PcOf(w, t)) && TableOk(w) && s in w.slots && w.mu.None?
    requires !InStop(PcOf(w, t)) && !InStop(pc') && !Calls(PcOf(w, t)) && !Calls(pc') && !HoldsMu(pc')
    requires forall r :: SameAt(PcOf(w, t), pc', r)
    requires ThreadOk(Put(Swept(w, s), t, pc'), t, pc')
    ensures StepOk(w, Put(Swept(w, s), t, pc'), t)
  {
    SweepMu(w, t, pc', s);
    SweepSlots(w, t, pc', s);
    SweepEntries(w, t, pc', s);
  }

  lemma QuietSwept(w: World, w': World, s: SlotId, r: SlotId)
    requires TableOk(w) && s in w.slots && r in w.slots && w.mu.None? && w'.mu.None?
    requires w'.table == Swept(w, s).table && w'.slots == w.slots && w'.entries == w.entries
    requires w'.fences == w.fences && w'.stopped == w.stopped
    ensures OutStep(w, w', r) && FenceStep(w, w', r) && StopStepOk(w, w', r)
  {
  }

  lemma UnfencedFences(w: World, w': World, t: Tid, key: nat, version: nat)
    requires Fences.Valid(w.fences) && w.mu.None? && w'.slots == w.slots && w'.entries == w.entries
    requires w'.fences == Fences.Trimmed(Fences.Unprotected(w.fences, key, version))
    ensures FencesStep(w, w', t)
  {
  }

  /** unprotectFence: every version a record blocks stays blocked, and no other becomes blocked. */
  lemma UnfenceOk(w: World, t: Tid, pc': Pc, key: nat, version: nat)
    requires ThreadOk(w, t, PcOf(w, t)) && SameSlot(PcOf(w, t), pc') && Plain(PcOf(w, t)) && Plain(pc')
    requires SameAt(PcOf(w, t), pc', pc'.s) && Fences.Valid(w.fences) && w.mu.None?
    requires ThreadOk(Unfenced(w, t, pc', key, version), t, pc')
    ensures StepOk(w, Unfenced(w, t, pc', key, version), t)
  {
    var w' := Unfenced(w, t, pc', key, version);
    UnfencedFences(w, w', t, key, version);
    InsideOk(w, w', t, {}, {});
  }

  ghost function Unfenced(w: World, t: Tid, pc': Pc, key: nat, version: nat): World {
    Put(w, t, pc').(fences := Fences.Trimmed(Fences.Unprotected(w.fences, key, version)))
  }

  /** Facts about every slot that a section needs. */
  ghost predicate SlotsFacts(w: World) {
    forall r <- w.slots ::
      && (InTable(w, r) || w.slots[r].core.current.None?)
      && (w.slots[r].core.current.Some? ==> w.slots[r].core.current.value in w.entries)
  }

  lemma SlotsFactsFromInv(w: World)
    requires Inv(w)
    ensures SlotsFacts(w)
  {
  }

  /** recordFence only covers more of one key, whose entry can only sit in the slot of the table. */
  lemma RecordedFences(w: World, w': World, t: Tid, s: SlotId, key: nat, version: nat, protected: bool)
    requires SlotsFacts(w) && Fences.Valid(w.fences) && MayUseMu(w, t)
    requires w'.fences == Fences.Record(w.fences, key, version, protected).0
    requires forall r <- w.slots :: r in w'.slots && w'.slots[r].key == w.slots[r].key
    requires forall r <- w.slots :: r != s ==> w'.slots[r] == w.slots[r]
    requires forall e <- w.entries :: e in w'.entries && w'.entries[e].target == w.entries[e].target
    requires key in w.table ==> w.table[key] == s
    requires s in w.slots ==> FenceStep(w, w', s)
    ensures FencesStep(w, w', t)
  {
    Fences.RecordKeepsValid(w.fences, key, version, protected);
    Fences.RecordOutcome(w.fences, key, version, protected);
    if Fences.Record(w.fences, key, version, protected).1 == Fences.Recorded {
      Fences.RecordEffect(w.fences, key, version, protected);
    }
    forall r <- w.slots ensures FenceStep(w, w', r) {
    }
  }

  /** A section installs a fresh entry, spawns its builder and releases the registry mutex. */
  ghost predicate Installs(w: World, w': World, t: Tid, pc': Pc, s: SlotId, e: EntryId, b: Tid) {
    && Fresh(w, t, e, b) && t in w.threads && s in w.slots
    && w'.threads == w.threads[b := Build(s, e)][t := pc']
    && w'.slots.Keys == w.slots.Keys && (forall r <- w.slots :: r != s ==> w'.slots[r] == w.slots[r])
    && e in w'.entries && w'.entries == w.entries[e := w'.entries[e]]
    && w'.entries[e].slot == s && w'.entries[e].target.key == w.slots[s].key
    && w'.entries[e] == NewEntry(s, w'.entries[e].target, w'.entries[e].privateRevoke, b)
    && w.mu == Some(t) && w'.mu.None? && w'.table == w.table && w'.capacity == w.capacity
    && w'.stopped == w.stopped && w'.rootStopped == w.rootStopped && w'.masked == w.masked
  }

  lemma BuilderOk(w: World, w': World, t: Tid, pc': Pc, s: SlotId, e: EntryId, b: Tid)
    requires Installs(w, w', t, pc', s, e, b)
    ensures ThreadOk(w', b, Build(s, e)) && ThreadsStep(w, w', t)
  {
  }

  lemma InstallSlots(w: World, w': World, t: Tid, pc': Pc, s: SlotId, e: EntryId, b: Tid)
    requires Installs(w, w', t, pc', s, e, b) && SlotsFacts(w)
    requires ThreadOk(w, t, PcOf(w, t)) && HoldsMu(PcOf(w, t)) && !InStop(PcOf(w, t))
    requires forall r :: r != s ==> SameAt(PcOf(w, t), pc', r)
    ensures forall r <- w.slots :: r != s ==> SlotStep(w, w', t, r) && OutStep(w, w', r) && StopStepOk(w, w', r)
    ensures w'.fences == w.fences ==> forall r <- w.slots :: r != s ==> FenceStep(w, w', r)
  {
    forall r <- w.slots | r != s
      ensures SlotStep(w, w', t, r) && OutStep(w, w', r) && StopStepOk(w, w', r)
      ensures w'.fences == w.fences ==> FenceStep(w, w', r)
    {
      QuietSlot(w, w', t, r);
    }
  }

  lemma InstallEntries(w: World, w': World, t: Tid, pc': Pc, s: SlotId, e: EntryId, b: Tid)
    requires Installs(w, w', t, pc', s, e, b)
    requires ThreadOk(w, t, PcOf(w, t)) && !Calls(PcOf(w, t)) && !Calls(pc')
    ensures forall x <- w.entries :: EntryStep(w, w', t, x)
  {
  }

  lemma InstallMu(w: World, w': World, t: Tid, pc': Pc, s: SlotId, e: EntryId, b: Tid)
    requires Installs(w, w', t, pc', s, e, b) && HoldsMu(PcOf(w, t)) && !HoldsMu(pc') && FencesStep(w, w', t)
    requires w'.slots[s].key == w.slots[s].key
    ensures MuStep(w, w', t) && (forall x <- w'.entries :: x !in w.entries ==> NewEntryOk(w', x))
  {
  }

  lemma InstallOk(w: World, w': World, t: Tid, pc': Pc, s: SlotId, e: EntryId, b: Tid)
    requires Installs(w, w', t, pc', s, e, b) && SlotsFacts(w)
    requires ThreadOk(w, t, PcOf(w, t)) && HoldsMu(PcOf(w, t)) && !InStop(PcOf(w, t)) && !HoldsMu(pc')
    requires forall r :: r != s ==> SameAt(PcOf(w, t), pc', r)
    requires !Calls(PcOf(w, t)) && !Calls(pc') && ThreadOk(w', t, pc') && FencesStep(w, w', t)
    requires SlotStep(w, w', t, s) && OutStep(w, w', s) && FenceStep(w, w', s) && StopStepOk(w, w', s)
    ensures StepOk(w, w', t)
  {
    BuilderOk(w, w', t, pc', s, e, b);
    InstallSlots(w, w', t, pc', s, e, b);
    InstallEntries(w, w', t, pc', s, e, b);
    InstallMu(w, w', t, pc', s, e, b);
  }

  /** Slot `s` changes and may leave the table. */
  ghost predicate Sheds(w: World, w': World, t: Tid, s: SlotId) {
    && s in w.slots && t in w'.threads && w'.threads == w.threads[t := w'.threads[t]]
    && w'.slots.Keys == w.slots.Keys && (forall r <- w.slots :: r != s ==> w'.slots[r] == w.slots[r])
    && w'.slots[s].key == w.slots[s].key
    && w'.entries == w.entries && w'.fences == w.fences && w.mu.None? && w'.mu.None? && w'.capacity == w.capacity
    && w'.stopped == w.stopped && w'.rootStopped == w.rootStopped && w'.masked == w.masked
    && (w'.table == w.table || (InTable(w, s) && w'.table == w.table - {w.slots[s].key}))
  }

  lemma ShedTable(w: World, w': World, t: Tid, s: SlotId)
    requires Sheds(w, w', t, s) && TableOk(w)
    ensures TableOk(w')
    ensures forall r <- w.slots :: r != s ==> (InTable(w', r) <==> InTable(w, r))
  {
  }

  lemma ShedSlots(w: World, w': World, t: Tid, s: SlotId)
    requires Sheds(w, w', t, s) && TableOk(w) && ThreadOk(w, t, PcOf(w, t))
    requires forall r :: r != s ==> SameAt(PcOf(w, t), PcOf(w', t), r)
    ensures forall r <- w.slots :: r != s ==>
          SlotStep(w, w', t, r) && OutStep(w, w', r) && FenceStep(w, w', r) && StopStepOk(w, w', r)
  {
    ShedTable(w, w', t, s);
    forall r <- w.slots | r != s
      ensures SlotStep(w, w', t, r) && OutStep(w, w', r) && FenceStep(w, w', r) && StopStepOk(w, w', r)
    {
      QuietSlot(w, w', t, r);
    }
  }

  lemma ShedOk(w: World, w': World, t: Tid, s: SlotId)
    requires Sheds(w, w', t, s) && TableOk(w) && ThreadOk(w, t, PcOf(w, t)) && ThreadOk(w', t, PcOf(w', t))
    requires forall r :: r != s ==> SameAt(PcOf(w, t), PcOf(w', t), r)
    requires !Calls(PcOf(w, t)) && !Calls(PcOf(w', t)) && !HoldsMu(PcOf(w, t)) && !HoldsMu(PcOf(w', t))
    requires SlotStep(w, w', t, s) && OutStep(w, w', s) && FenceStep(w, w', s) && StopStepOk(w, w', s)
    ensures StepOk(w, w', t)
  {
    ShedTable(w, w', t, s);
    ShedSlots(w, w', t, s);
    forall e <- w.entries ensures EntryStep(w, w', t, e) { QuietEntry(w, w', t, e); }
  }

  /** A section records a protected fence, closes its slot and releases the registry mutex. */
  ghost function FencedClosed(w: World, t: Tid, pc': Pc, core: Core): World
    requires HasSlot(pc') && pc'.s in w.slots && (pc'.Down? || pc'.Revoke?)
  {
    var target := if PcOf(w, t).StopRead? then PcOf(w, t).target else if PcOf(w, t).RevokeRead? then PcOf(w, t).target
                  else Target(0, 0, Active);
    Unlock(SetCore(w, pc'.s, core), t, pc').(fences := Fences.Record(w.fences, target.key, target.version, true).0)
  }

  lemma FencedClosedSlot(w: World, t: Tid, pc': Pc, core: Core)
    requires Here(w, t) && (PcOf(w, t).StopRead? || PcOf(w, t).RevokeRead?) && (pc'.Down? || pc'.Revoke?)
    requires pc'.s == PcOf(w, t).s && SameAt(PcOf(w, t), pc', pc'.s)
    requires InTable(w, pc'.s) && core.closed && (core == CloseAdmission(w.slots[pc'.s].core) || core == w.slots[pc'.s].core)
    ensures var w', s := FencedClosed(w, t, pc', core), pc'.s;
            SlotStep(w, w', t, s) && OutStep(w, w', s) && FenceStep(w, w', s) && StopStepOk(w, w', s)
  {
  }

  lemma FencedClosedFences(w: World, t: Tid, pc': Pc, core: Core)
    requires SlotsFacts(w) && Fences.Valid(w.fences) && MayUseMu(w, t)
    requires (PcOf(w, t).StopRead? || PcOf(w, t).RevokeRead?) && (pc'.Down? || pc'.Revoke?) && HasSlot(pc')
    requires InTable(w, pc'.s) && w.slots[pc'.s].key == PcOf(w, t).target.key
    requires FenceStep(w, FencedClosed(w, t, pc', core), pc'.s)
    ensures FencesStep(w, FencedClosed(w, t, pc', core), t)
  {
    var target := PcOf(w, t).target;
    RecordedFences(w, FencedClosed(w, t, pc', core), t, pc'.s, target.key, target.version, true);
  }

  lemma FenceAndCloseOk(w: World, t: Tid, pc': Pc, core: Core)
    requires Here(w, t) && SlotsFacts(w) && Fences.Valid(w.fences)
    requires (PcOf(w, t).StopRead? || PcOf(w, t).RevokeRead?) && (pc'.Down? || pc'.Revoke?) && !Calls(pc')
    requires pc'.s == PcOf(w, t).s && SameAt(PcOf(w, t), pc', pc'.s)
    requires InTable(w, pc'.s) && core.closed && (core == CloseAdmission(w.slots[pc'.s].core) || core == w.slots[pc'.s].core)
    requires w.slots[pc'.s].key == PcOf(w, t).target.key
    requires ThreadOk(FencedClosed(w, t, pc', core), t, pc')
    ensures StepOk(w, FencedClosed(w, t, pc', core), t)
  {
    assert ThreadOk(w, t, PcOf(w, t)) && w.mu == Some(t);
    FencedClosedSlot(w, t, pc', core);
    FencedClosedFences(w, t, pc', core);
    FencedClosedFrame(w, t, pc', core);
    FencedClosedElsewhere(w, t, pc');
    InsideOk(w, FencedClosed(w, t, pc', core), t, {pc'.s}, {});
  }

  lemma FencedClosedElsewhere(w: World, t: Tid, pc': Pc)
    requires (PcOf(w, t).StopRead? || PcOf(w, t).RevokeRead?) && (pc'.Down? || pc'.Revoke?) && !Calls(pc')
    requires pc'.s == PcOf(w, t).s
    ensures forall s :: s != pc'.s ==> SameAt(PcOf(w, t), pc', s)
    ensures forall e :: CallsOn(PcOf(w, t), e) == CallsOn(pc', e)
  {
  }

  lemma FencedClosedFrame(w: World, t: Tid, pc': Pc, core: Core)
    requires (PcOf(w, t).StopRead? || PcOf(w, t).RevokeRead?) && (pc'.Down? || pc'.Revoke?) && w.mu == Some(t)
    requires pc'.s in w.slots
    ensures var w' := FencedClosed(w, t, pc', core);
            && Inside(w, w', t, {pc'.s}, {}) && PcOf(w', t) == pc'
            && Tracks(w.mu, w'.mu, HoldsMu(PcOf(w, t)), HoldsMu(pc'), t)
  {
  }
}

/**
 What every run of the account owner registry guarantees, over every
 interleaving of Execute, StopAccount, RevokeAndStop, idle eviction and Stop.
 */
module AccountTheorems {
  import opened Options
  import opened Targets
  import opened Slots
  import opened AccountWorld
  import opened AccountSteps
  import opened AccountInvariant
  import opened AccountRely
  import opened AccountLocal
  import opened AccountExec
  import opened AccountLife
  import opened AccountDown
  import opened AccountRevoke
  import opened AccountTear
  import opened AccountAdmission
  import opened AccountStop
  import opened Traces
  import Fences

  // ---------------------------------------------------------------------- every run

  function Actor(step: Step): Tid { step.t }

  lemma ProtocolOk(w: World, step: Step)
    requires Inv(w) && Can(w, step)
    ensures StepOk(w, Do(w, step), Actor(step))
  {
    HereFromInv(w, Actor(step));
    SlotsFactsFromInv(w);
    match step
    case Admission(t, s) => AdmissionOk(w, t, s);
    case Execution(t, s) => ExecutionOk(w, t, s);
    case Life(t, s) => LifeOk(w, t, s);
    case Teardown(t, s) => TeardownOk(w, t, s);
    case Revocation(t, s) => RevocationOk(w, t, s);
    case RevokeTeardown(t, s) => TearOk(w, t, s);
    case Stop(t, s) => StopStepsOk(w, t, s);
  }

  lemma StepKeeps(w: World, step: Step)
    requires Inv(w) && Can(w, step)
    ensures Inv(Do(w, step))
  {
    ProtocolOk(w, step);
    StepKeepsInv(w, Do(w, step), Actor(step));
  }

  ghost predicate Takes(w: World, step: Step, w': World) { Can(w, step) && w' == Do(w, step) }

  ghost predicate Reachable(w: World) {
    exists capacity: nat, steps :: Leads(Takes, Initial(capacity), steps, w)
  }

  lemma InitialInv(capacity: nat)
    ensures Inv(Initial(capacity))
  {
  }

  lemma TakesKeeps(w: World, step: Step, w': World)
    requires Inv(w) && Takes(w, step, w')
    ensures Inv(w')
  {
    StepKeeps(w, step);
  }

  lemma ReachableInv(w: World)
    requires Reachable(w)
    ensures Inv(w)
  {
    var capacity: nat, steps :| Leads(Takes, Initial(capacity), steps, w);
    InitialInv(capacity);
    forall x, step, y | Inv(x) && Takes(x, step, y) ensures Inv(y) { TakesKeeps(x, step, y); }
    Invariance(Takes, step => true, Inv, Initial(capacity), steps, w);
  }

  // ------------------------------------------------------- privileged revocation

  function KeyAt(w: World, pc: Pc): nat
    requires HasSlot(pc) && pc.s in w.slots
  {
    w.slots[pc.s].key
  }

  /** A slot that anything refers to is the one the table names for its key. */
  lemma BusySlotInTable(w: World, s: SlotId)
    requires Inv(w) && s in w.slots && !Inert(w.slots[s])
    ensures InTable(w, s)
  {
  }

  /** Operations and revokes of one account stand at one slot, and the gate admits one operation. */
  lemma OperationHere(w: World, t: Tid)
    requires Inv(w) && t in w.threads && InOperation(w.threads[t])
    ensures var s := w.threads[t].s;
            && s in w.slots && InTable(w, s) && w.slots[s].core.active == 1 && w.slots[s].gate == Some(t)
  {
  }

  lemma RevokeHere(w: World, t: Tid)
    requires Inv(w) && t in w.threads && RevokeRuns(w.threads[t])
    ensures var s := w.threads[t].s; s in w.slots && InTable(w, s) && w.slots[s].teardownGate == Some(t)
  {
  }

  /** While a privileged revoke callback runs, no ordinary callback of that account does. */
  lemma PrivilegedAlone(w: World, t: Tid, o: Tid)
    requires Reachable(w) && t in w.threads && o in w.threads
    requires RunsPrivileged(w.threads[t]) && HasSlot(w.threads[o])
    ensures w.threads[t].s in w.slots && w.threads[o].s in w.slots
    ensures KeyAt(w, w.threads[o]) == KeyAt(w, w.threads[t]) ==> !InOperation(w.threads[o])
  {
    ReachableInv(w);
    RevokeHere(w, t);
    assert ThreadOk(w, t, w.threads[t]) && ThreadOk(w, o, w.threads[o]);
    if InOperation(w.threads[o]) { OperationHere(w, o); }
  }

  /** At most one callback, ordinary or privileged, executes per account. */
  lemma OneCallbackPerAccount(w: World, t: Tid, o: Tid)
    requires Reachable(w) && t in w.threads && o in w.threads && Calls(w.threads[t]) && Calls(w.threads[o])
    ensures w.threads[t].s in w.slots && w.threads[o].s in w.slots
    ensures KeyAt(w, w.threads[o]) == KeyAt(w, w.threads[t]) ==> o == t
  {
    ReachableInv(w);
    if RunsPrivileged(w.threads[t]) { PrivilegedAlone(w, t, o); RevokeHere(w, t); } else { OperationHere(w, t); }
    if RunsPrivileged(w.threads[o]) { PrivilegedAlone(w, o, t); RevokeHere(w, o); } else { OperationHere(w, o); }
  }

  /** Between its drain and its release of the slot, a revoke keeps the slot free of operations. */
  predicate Secluded(w: World, t: Tid, s: SlotId) {
    t in w.threads && Excludes(w.threads[t]) && w.threads[t].s == s && s in w.slots && w.slots[s].core.active == 0
  }

  /** From its fence on, a revoke lets no new operation of the account begin. */
  lemma NoneBeginsBehindTheFence(w: World, step: Step, t: Tid)
    requires Reachable(w) && Can(w, step) && t in w.threads && Excludes(w.threads[t]) && t != Actor(step)
    requires InOperation(PcOf(Do(w, step), Actor(step))) && !InOperation(PcOf(w, Actor(step)))
    ensures PcOf(Do(w, step), Actor(step)).s in w.slots && w.threads[t].s in w.slots
    ensures KeyAt(w, PcOf(Do(w, step), Actor(step))) != KeyAt(w, w.threads[t])
  {
    ReachableInv(w);
    ProtocolOk(w, step);
    var a, w' := Actor(step), Do(w, step);
    StepKeepsInv(w, w', a);
    NoneBeginsHere(w, w', a, t);
  }

  lemma NoneBeginsHere(w: World, w': World, a: Tid, t: Tid)
    requires Inv(w) && Inv(w') && StepOk(w, w', a) && a != t && t in w.threads && Excludes(w.threads[t])
    requires InOperation(PcOf(w', a)) && !InOperation(PcOf(w, a))
    ensures PcOf(w', a).s in w.slots && w.threads[t].s in w.slots
    ensures KeyAt(w, PcOf(w', a)) != KeyAt(w, w.threads[t])
  {
    OperationHere(w', a);
    RevokeHere(w, t);
    RevokeHere(w', t);
    ExcludedSlot(w, w', a, t);
    SameKeySameSlot(w, w', a, PcOf(w', a).s);
  }

  lemma SameKeySameSlot(w: World, w': World, a: Tid, s: SlotId)
    requires Inv(w') && StepOk(w, w', a) && InOperation(PcOf(w', a)) && PcOf(w', a).s == s
    ensures s in w.slots && s in w'.slots && w'.slots[s].key == w.slots[s].key
  {
    OperationHere(w', a);
    if s in w.slots { assert SlotStep(w, w', a, s); } else { assert false; }
  }

  lemma ExcludedSlot(w: World, w': World, a: Tid, t: Tid)
    requires Inv(w) && StepOk(w, w', a) && t in w.threads && Excludes(w.threads[t]) && w.threads[t].s in w.slots
    ensures var s := w.threads[t].s;
            && s in w'.slots && w'.slots[s].key == w.slots[s].key
            && (OperationAt(PcOf(w', a), s) ==> OperationAt(PcOf(w, a), s))
  {
    assert ThreadOk(w, t, w.threads[t]);
    assert SlotStep(w, w', a, w.threads[t].s);
  }

  predicate Leaves(step: Step, t: Tid) { step == Revocation(t, Leave) }

  /** No step of another goroutine starts an operation there. */
  lemma SecludedFromOthers(w: World, w': World, a: Tid, t: Tid, s: SlotId)
    requires Inv(w) && StepOk(w, w', a) && a != t && Secluded(w, t, s)
    ensures Secluded(w', t, s)
  {
    assert ThreadOk(w, t, w.threads[t]);
    assert SlotStep(w, w', a, s);
  }

  /** What a revoke may do between its fence and its release. */
  lemma RevokeSteps(w: World, step: Step)
    requires Can(w, step) && (PcOf(w, Actor(step)).Revoke? || PcOf(w, Actor(step)).RevokeLeave?)
    ensures step.Revocation? || step.RevokeTeardown?
    ensures step.RevokeTeardown? && PcOf(w, Actor(step)).rev.TearJoin? ==> step.tear.TJoin?
    ensures step.Revocation? ==> !(PcOf(w, Actor(step)).Revoke? && PcOf(w, Actor(step)).rev.TearJoin?)
  {
  }

  lemma RevocationSecludes(w: World, t: Tid, step: RevokeStep)
    requires CanRevocation(w, t, step) && !step.Leave? && Excludes(PcOf(w, t))
    ensures var pc' := PcOf(DoRevocation(w, t, step), t); Excludes(pc') && pc'.s == PcOf(w, t).s
  {
  }

  lemma TearSecludes(w: World, t: Tid, step: TearStep)
    requires CanTear(w, t, step) && Excludes(PcOf(w, t))
    ensures var pc' := PcOf(DoTear(w, t, step), t); Excludes(pc') && pc'.s == PcOf(w, t).s
  {
  }

  /** Of the revoking goroutine itself, only its release ends the seclusion. */
  lemma SecludedUntilLeave(w: World, step: Step, t: Tid, s: SlotId)
    requires Inv(w) && Can(w, step) && Actor(step) == t && Secluded(w, t, s) && !Leaves(step, t)
    requires StepOk(w, Do(w, step), t)
    ensures Secluded(Do(w, step), t, s)
  {
    assert SlotStep(w, Do(w, step), t, s);
    RevokeSteps(w, step);
    if step.Revocation? { RevocationSecludes(w, t, step.revocation); } else { TearSecludes(w, t, step.tear); }
  }

  lemma SecludedStep(w: World, step: Step, w': World, t: Tid, s: SlotId)
    requires Inv(w) && Takes(w, step, w') && Secluded(w, t, s) && !Leaves(step, t)
    ensures Inv(w') && Secluded(w', t, s)
  {
    ProtocolOk(w, step);
    StepKeepsInv(w, w', Actor(step));
    if Actor(step) == t { SecludedUntilLeave(w, step, t, s); } else { SecludedFromOthers(w, w', Actor(step), t, s); }
  }

  /**
   From the moment its callback runs until the revoke releases the slot, no
   operation of the account is admitted, let alone its callback started: not
   during the callback, not during the teardown that follows.
   */
  lemma NoOperationUntilRevokeLeaves(w: World, t: Tid, steps: seq<Step>, w': World, o: Tid)
    requires Reachable(w) && t in w.threads && RunsPrivileged(w.threads[t])
    requires Leads(Takes, w, steps, w') && forall step <- steps :: !Leaves(step, t)
    requires o in w'.threads && HasSlot(w'.threads[o])
    ensures t in w'.threads && Excludes(w'.threads[t]) && w'.threads[t].s == w.threads[t].s
    ensures w'.threads[t].s in w'.slots && w'.threads[o].s in w'.slots
    ensures KeyAt(w', w'.threads[o]) == KeyAt(w', w'.threads[t]) ==> !InOperation(w'.threads[o])
  {
    ReachableInv(w);
    var s := w.threads[t].s;
    assert ThreadOk(w, t, w.threads[t]);
    forall x, step, y | Inv(x) && Secluded(x, t, s) && !Leaves(step, t) && Takes(x, step, y)
      ensures Inv(y) && Secluded(y, t, s)
    {
      SecludedStep(x, step, y, t, s);
    }
    Invariance(Takes, step => !Leaves(step, t), x => Inv(x) && Secluded(x, t, s), w, steps, w');
    RevokeHere(w', t);
    assert ThreadOk(w', o, w'.threads[o]);
    if InOperation(w'.threads[o]) { OperationHere(w', o); }
  }

  // ------------------------------------------------------------ one owner per account

  predicate OwnerRuns(w: World, e: EntryId) {
    e in w.entries && w.entries[e].owner.Some? && Runs(w.entries[e].owner.value)
  }

  /** A running owner belongs to the entry installed in its account's slot, unless a revoke gave up on it. */
  lemma RunningOwnerIsInstalled(w: World, e: EntryId)
    requires Reachable(w) && OwnerRuns(w, e) && e !in w.masked
    ensures var key := w.entries[e].target.key;
            key in w.table && w.table[key] in w.slots && w.slots[w.table[key]].core.current == Some(e)
  {
    ReachableInv(w);
    assert EntryOk(w, e);
    BusySlotInTable(w, w.entries[e].slot);
  }

  lemma OneOwnerPerAccount(w: World, e: EntryId, f: EntryId)
    requires Reachable(w) && OwnerRuns(w, e) && OwnerRuns(w, f) && e !in w.masked && f !in w.masked
    requires w.entries[e].target.key == w.entries[f].target.key
    ensures e == f
  {
    RunningOwnerIsInstalled(w, e);
    RunningOwnerIsInstalled(w, f);
  }

  /** The join of teardownRevoke that uninstalls an owner whose Run has not returned. */
  predicate Masks(w: World, step: Step) {
    && step.RevokeTeardown? && step.tear.TJoin? && CanTear(w, step.t, step.tear)
    && step.tear.known && step.tear.expired && step.tear.failure == DeadlineExceeded
    && !w.entries[PcOf(w, step.t).e].owner.value.completed
  }

  /**
   Exactly when the wait expires and the callback had failed with the same
   deadline error does the verdict "joined" let a running owner be uninstalled.
   */
  lemma MaskedExactlyWhen(w: World, t: Tid, failure: Failure, known: bool, expired: bool)
    requires CanTearJoin(w, t, failure, known, expired)
    ensures var w', e := DoTearJoin(w, t, failure, known, expired), PcOf(w, t).e;
            && (PcOf(w', t).rev.TearUninstall? && !w'.entries[e].owner.value.completed
                <==> Masks(w, RevokeTeardown(t, TJoin(failure, known, expired))))
            && w'.masked == if Masks(w, RevokeTeardown(t, TJoin(failure, known, expired))) then w.masked + {e} else w.masked
  {
  }

  /** Where a join is given up, the owner runs and its slot is the only one that can have it installed. */
  lemma MaskedHere(w: World, step: Step)
    requires Inv(w) && Masks(w, step)
    ensures var e := PcOf(w, step.t).e;
            OwnerRuns(w, e) && forall s <- w.slots :: w.slots[s].core.current == Some(e) ==> s == PcOf(w, step.t).s
  {
    assert ThreadOk(w, step.t, PcOf(w, step.t)) && EntryOk(w, PcOf(w, step.t).e);
    forall s <- w.slots ensures w.slots[s].core.current == Some(PcOf(w, step.t).e) ==> s == PcOf(w, step.t).s {
      assert SlotOk(w, s);
    }
  }

  /** And whenever it does, the next step leaves a running owner that no slot has installed. */
  lemma MaskedOwnerIsLost(w: World, step: Step)
    requires Reachable(w) && Masks(w, step)
    ensures var e, w', next := PcOf(w, step.t).e, Do(w, step), RevokeTeardown(step.t, TUninstall);
            && Can(w', next) && OwnerRuns(Do(w', next), e)
            && forall s <- Do(w', next).slots :: Do(w', next).slots[s].core.current != Some(e)
  {
    ReachableInv(w);
    MaskedHere(w, step);
    MaskedExactlyWhen(w, step.t, step.tear.failure, step.tear.known, step.tear.expired);
    MaskedUninstalls(w, step);
  }

  lemma MaskedUninstalls(w: World, step: Step)
    requires Masks(w, step) && PcOf(w, step.t).s in w.slots
    ensures var pc, w', next := PcOf(w, step.t), Do(w, step), RevokeTeardown(step.t, TUninstall);
            && Can(w', next) && Do(w', next).entries == w.entries
            && Do(w', next).slots == w.slots[pc.s := w.slots[pc.s].(core := FinishTeardown(w.slots[pc.s].core, pc.e))]
  {
  }

  lemma UnmaskedStep(w: World, step: Step, w': World)
    requires Inv(w) && Takes(w, step, w') && !Masks(w, step)
    ensures w'.masked == w.masked
  {
    ProtocolOk(w, step);
    if w'.masked != w.masked {
      RevokeSteps(w, step);
      MaskedExactlyWhen(w, step.t, step.tear.failure, step.tear.known, step.tear.expired);
    }
  }

  ghost predicate TakesJoining(w: World, step: Step, w': World) { Takes(w, step, w') && !Masks(w, step) }

  /** Runs in which no revoke gives up on an owner keep one running owner per account. */
  lemma OneOwnerWhenJoined(capacity: nat, steps: seq<Step>, w: World, e: EntryId, f: EntryId)
    requires Leads(TakesJoining, Initial(capacity), steps, w)
    requires OwnerRuns(w, e) && OwnerRuns(w, f) && w.entries[e].target.key == w.entries[f].target.key
    ensures e == f
  {
    InitialInv(capacity);
    forall x, step, y | Inv(x) && x.masked == {} && TakesJoining(x, step, y) ensures Inv(y) && y.masked == {} {
      TakesKeeps(x, step, y);
      UnmaskedStep(x, step, y);
    }
    Invariance(TakesJoining, step => true, x => Inv(x) && x.masked == {}, Initial(capacity), steps, w);
    assert EntryOk(w, e) && EntryOk(w, f);
    BusySlotInTable(w, w.entries[e].slot);
    BusySlotInTable(w, w.entries[f].slot);
  }

  // ------------------------------------------------------------------------ fences

  /** A standing fence at or above the installed version means that admission is closed. */
  lemma FenceKeepsClosed(w: World, key: nat)
    requires Reachable(w) && key in w.table
    ensures w.table[key] in w.slots
    ensures var core := w.slots[w.table[key]].core;
            core.current.Some? ==>
              && core.current.value in w.entries
              && (Fences.Blocks(w.fences, key, w.entries[core.current.value].target.version) ==> core.closed)
  {
    ReachableInv(w);
    assert SlotOk(w, w.table[key]);
  }

  predicate Starts(pc: Pc, pc': Pc) {
    (InOperation(pc') && !InOperation(pc)) || (HoldsHandle(pc') && !HoldsHandle(pc))
  }

  lemma ExecutionStarts(w: World, t: Tid, step: ExecStep)
    requires Here(w, t) && CanExecution(w, t, step) && Starts(PcOf(w, t), PcOf(DoExecution(w, t, step), t))
    ensures !Fences.Blocks(w.fences, PcOf(w, t).target.key, PcOf(w, t).target.version)
    ensures PcOf(DoExecution(w, t, step), t).target == PcOf(w, t).target
  {
  }

  lemma AdmissionStarts(w: World, t: Tid, step: AdmissionStep)
    requires ThreadOk(w, t, PcOf(w, t)) && CanAdmission(w, t, step)
    requires Starts(PcOf(w, t), PcOf(DoAdmission(w, t, step), t))
    ensures !Fences.Blocks(w.fences, PcOf(w, t).target.key, PcOf(w, t).target.version)
    ensures PcOf(DoAdmission(w, t, step), t).target == PcOf(w, t).target
  {
  }

  lemma OtherStepsStartNothing(w: World, step: Step)
    requires Can(w, step) && !step.Execution? && !step.Admission?
    ensures !PcOf(Do(w, step), Actor(step)).Exec?
  {
    match step
    case Life(t, s) => LifeStartsNothing(w, t, s);
    case Teardown(t, s) => TeardownStartsNothing(w, t, s);
    case Revocation(t, s) => RevocationStartsNothing(w, t, s);
    case RevokeTeardown(t, s) => TearStartsNothing(w, t, s);
    case Stop(t, s) => StopStartsNothing(w, t, s);
  }

  lemma LifeStartsNothing(w: World, t: Tid, step: RunStep)
    requires CanLife(w, t, step)
    ensures !PcOf(DoLife(w, t, step), t).Exec?
  {
  }

  lemma TeardownStartsNothing(w: World, t: Tid, step: DownStep)
    requires CanTeardown(w, t, step)
    ensures !PcOf(DoTeardown(w, t, step), t).Exec?
  {
  }

  lemma RevocationStartsNothing(w: World, t: Tid, step: RevokeStep)
    requires CanRevocation(w, t, step)
    ensures !PcOf(DoRevocation(w, t, step), t).Exec?
  {
  }

  lemma TearStartsNothing(w: World, t: Tid, step: TearStep)
    requires CanTear(w, t, step)
    ensures !PcOf(DoTear(w, t, step), t).Exec?
  {
  }

  lemma StopStartsNothing(w: World, t: Tid, step: StopStep)
    requires CanStopStep(w, t, step)
    ensures !PcOf(DoStopStep(w, t, step), t).Exec?
  {
  }

  /** While a record stands, no handle is opened and no operation begins for a version it covers. */
  lemma FencedVersionsStayOut(w: World, step: Step)
    requires Reachable(w) && Can(w, step)
    requires Starts(PcOf(w, Actor(step)), PcOf(Do(w, step), Actor(step)))
    ensures var target := PcOf(Do(w, step), Actor(step)).target; !Fences.Blocks(w.fences, target.key, target.version)
  {
    ReachableInv(w);
    HereFromInv(w, Actor(step));
    match step
    case Execution(t, r) => ExecutionStarts(w, t, r);
    case Admission(t, r) => AdmissionStarts(w, t, r);
    case _ => OtherStepsStartNothing(w, step);
  }

  // ---------------------------------------------------------------------- counting

  /** handles counts the open handles, active the one operation behind the gate, and the signal tells the truth. */
  lemma SlotsCount(w: World, s: SlotId)
    requires Reachable(w) && s in w.slots
    ensures var core := w.slots[s].core;
            && core.handles == |Holders(w.threads, s)| && core.active <= 1
            && (core.active == 1 <==> exists t :: t in w.threads && OperationAt(w.threads[t], s))
            && (core.drained <==> core.active == 0)
            && w.slots[s].revokeWaiters == |Waiters(w.threads, s)|
  {
    ReachableInv(w);
    assert SlotOk(w, s);
    forall t | t in w.threads && OperationAt(w.threads[t], s) ensures w.slots[s].core.active == 1 {
      OperationHere(w, t);
    }
  }

  /** The panics of finishOperation and releaseHandle are out of reach. */
  lemma CountersNeverUnderflow(w: World, t: Tid)
    requires Reachable(w) && PcOf(w, t).Exec?
    ensures PcOf(w, t).at.Finishing? ==> CanFinish(w, t)
    ensures PcOf(w, t).at.Closing? ==> CanDrop(w, t)
  {
    ReachableInv(w);
    HereFromInv(w, t);
    if PcOf(w, t).at.Finishing? { OperationHere(w, t); }
  }

  /** The table is bounded, and a slot outside it is referred to by nothing. */
  lemma OnlyTabledSlotsAreLive(w: World, s: SlotId)
    requires Reachable(w) && s in w.slots
    ensures |w.table| <= w.capacity
    ensures !InTable(w, s) ==>
              && w.slots[s].core.current.None? && !w.slots[s].revokeRunning
              && forall t <- w.threads ::
                   !HandleAt(w.threads[t], s) && !OperationAt(w.threads[t], s)
                   && !RevokeAtSlot(w.threads[t], s) && !WaitsAt(w.threads[t], s)
  {
    ReachableInv(w);
    if !InTable(w, s) {
      assert SlotOk(w, s);
      SlotsCount(w, s);
      assert Holders(w.threads, s) == {} && Waiters(w.threads, s) == {};
      forall t <- w.threads
        ensures !HandleAt(w.threads[t], s) && !OperationAt(w.threads[t], s)
        ensures !RevokeAtSlot(w.threads[t], s) && !WaitsAt(w.threads[t], s)
      {
        assert t in Holders(w.threads, s) <==> HandleAt(w.threads[t], s);
        assert t in Waiters(w.threads, s) <==> WaitsAt(w.threads[t], s);
        if RevokeAtSlot(w.threads[t], s) { RevokeHere(w, t); }
      }
    }
  }

  // ------------------------------------------------------------- teardown and Stop

  /** An ordinary teardown stops only a drained owner whose admission is closed. */
  lemma TeardownStopsDrained(w: World, t: Tid)
    requires Reachable(w) && CanDownStop(w, t)
    ensures var s := PcOf(w, t).s;
            && w.slots[s].core.closed && w.slots[s].core.current == Some(PcOf(w, t).e)
            && forall o <- w.threads :: !OperationAt(w.threads[o], s)
  {
    ReachableInv(w);
    HereFromInv(w, t);
    forall o <- w.threads ensures !OperationAt(w.threads[o], PcOf(w, t).s) {
      if OperationAt(w.threads[o], PcOf(w, t).s) { OperationHere(w, o); }
    }
  }

  /** The root context ends only once the registry is stopped and empty; it stays so, and no owner runs. */
  lemma RootEndsLast(w: World, steps: seq<Step>, w': World, e: EntryId)
    requires Reachable(w) && w.rootStopped && Leads(Takes, w, steps, w')
    ensures w'.rootStopped && w'.stopped && AllEmpty(w')
    ensures OwnerRuns(w', e) ==> e in w'.masked
  {
    ReachableInv(w);
    forall x, step, y | Inv(x) && x.rootStopped && Takes(x, step, y) ensures Inv(y) && y.rootStopped {
      TakesKeeps(x, step, y);
      RootStays(x, step, y);
    }
    Invariance(Takes, step => true, x => Inv(x) && x.rootStopped, w, steps, w');
    if OwnerRuns(w', e) && e !in w'.masked {
      assert EntryOk(w', e);
      BusySlotInTable(w', w'.entries[e].slot);
    }
  }

  lemma RootStays(w: World, step: Step, w': World)
    requires Inv(w) && Takes(w, step, w') && w.rootStopped
    ensures w'.rootStopped
  {
    ProtocolOk(w, step);
  }
}

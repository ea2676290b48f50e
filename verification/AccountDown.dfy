/** The steps of an ordinary teardown keep the invariant. */
module AccountDown {
  import opened Options
  import opened Targets
  import opened Slots
  import opened AccountWorld
  import opened AccountSteps
  import opened AccountInvariant
  import opened AccountRely
  import opened AccountLocal
  import Fences

  /** The continuation of a teardown is all that its counter keeps. */
  lemma DownwardOk(w': World, t: Tid, pc: Pc, pc': Pc)
    requires pc.Down? && pc'.Down? && pc'.cont == pc.cont && StopsOk(w', pc)
    requires RefsOk(w', pc') && DownOk(w', pc') && PendingOk(w', pc)
    requires HoldsTeardown(pc') ==> w'.slots[pc'.s].teardownGate == Some(t)
    ensures ThreadOk(w', t, pc')
  {
  }

  /** A step that changes nothing but how far the teardown has come. */
  lemma DownMoveOk(w: World, t: Tid, down: AccountWorld.DownAt)
    requires Here(w, t) && PcOf(w, t).Down? && DownOk(w, PcOf(w, t).(down := down))
    requires HoldsTeardown(PcOf(w, t)) == HoldsTeardown(PcOf(w, t).(down := down))
    ensures StepOk(w, Continue(w, t, down), t)
  {
    var pc := PcOf(w, t);
    DownwardOk(Continue(w, t, down), t, pc, pc.(down := down));
    MoveOk(w, t, pc.(down := down));
  }

  function Resumed(cont: Cont, ok: bool): Pc {
    match cont
    case Readmit(want) => if ok then Retry(want) else Idle
    case EndStopAccount => Idle
    case NextRetired(rest) => ReapEach(rest)
    case NextStopped(rest) => StopEach(rest)
  }

  lemma ResumeThreadOk(w: World, w': World, t: Tid, pc: Pc, ok: bool)
    requires pc.Down? && PendingOk(w', pc) && StopsOk(w', pc)
    ensures ThreadOk(w', t, Resumed(pc.cont, ok))
  {
  }

  lemma GiveUpOk(w: World, t: Tid)
    requires Here(w, t) && CanDownGiveUp(w, t)
    ensures StepOk(w, DoDownGiveUp(w, t), t)
  {
    var pc := PcOf(w, t);
    assert PendingOk(DoDownGiveUp(w, t), pc);
    ResumeThreadOk(w, DoDownGiveUp(w, t), t, pc, false);
    LockMoveOk(w, t, Resumed(pc.cont, false), w.mu);
  }

  lemma GateOk(w: World, t: Tid)
    requires Here(w, t) && CanDownGate(w, t)
    ensures StepOk(w, DoDownGate(w, t), t)
  {
    var pc := PcOf(w, t);
    var w' := DoDownGate(w, t);
    assert PendingOk(w', pc);
    DownwardOk(w', t, pc, pc.(down := Checking));
    CoreMoveOk(w, t, pc.(down := Checking), w.slots[pc.s].(teardownGate := Some(t)));
  }

  lemma StopOwnerOk(w: World, t: Tid)
    requires Here(w, t) && CanDownStop(w, t)
    ensures StepOk(w, DoDownStop(w, t), t)
  {
    match w.entries[PcOf(w, t).e].owner
    case None => DownMoveOk(w, t, Uninstalling(true));
    case Some(owner) => StopLiveOk(w, t, owner);
  }

  lemma StopLiveOk(w: World, t: Tid, owner: Owner)
    requires Here(w, t) && CanDownStop(w, t) && w.entries[PcOf(w, t).e].owner == Some(owner)
    ensures StepOk(w, DoDownStop(w, t), t)
  {
    var pc, w' := PcOf(w, t), DoDownStop(w, t);
    assert PendingOk(w', pc);
    DownwardOk(w', t, pc, pc.(down := Joining));
    StopEntryOk(w, t, pc.(down := Joining), pc.e, owner);
    EntryMoveOk(w, t, pc.(down := Joining), pc.e, w.entries[pc.e].(owner := Some(Stopped(owner))));
  }

  lemma UninstallOk(w: World, t: Tid, ok: bool)
    requires Here(w, t) && CanDownUninstall(w, t, ok)
    ensures StepOk(w, DoDownUninstall(w, t, ok), t)
  {
    var pc := PcOf(w, t);
    var w' := DoDownUninstall(w, t, ok);
    assert PendingOk(w', pc);
    DownwardOk(w', t, pc, pc.(down := Unprotecting(ok)));
    CoreMoveOk(w, t, pc.(down := Unprotecting(ok)), w.slots[pc.s].(core := FinishTeardown(w.slots[pc.s].core, pc.e)));
  }

  lemma UnprotectOk(w: World, t: Tid, ok: bool)
    requires Here(w, t) && Fences.Valid(w.fences) && CanDownUnprotect(w, t, ok)
    ensures StepOk(w, DoDownUnprotect(w, t, ok), t)
  {
    var pc := PcOf(w, t);
    var w' := DoDownUnprotect(w, t, ok);
    assert PendingOk(w', pc);
    DownwardOk(w', t, pc, pc.(down := Removing(ok)));
    UnfenceOk(w, t, pc.(down := Removing(ok)), w.entries[pc.e].target.key, w.entries[pc.e].target.version);
  }

  lemma RemoveOk(w: World, t: Tid, ok: bool)
    requires Here(w, t) && TableOk(w) && CanDownRemove(w, t, ok)
    ensures StepOk(w, DoDownRemove(w, t, ok), t)
  {
    var pc := PcOf(w, t);
    var w' := DoDownRemove(w, t, ok);
    assert PendingOk(w', pc);
    DownwardOk(w', t, pc, pc.(down := Releasing(ok)));
    SweepOk(w, t, pc.(down := Releasing(ok)), pc.s);
  }

  lemma ReleaseSlot(w: World, t: Tid, ok: bool)
    requires Here(w, t) && CanDownRelease(w, t, ok)
    ensures var w', s := DoDownRelease(w, t, ok), PcOf(w, t).s;
            SlotStep(w, w', t, s) && OutStep(w, w', s) && FenceStep(w, w', s) && StopStepOk(w, w', s)
  {
  }

  lemma ReleaseThread(w: World, t: Tid, ok: bool)
    requires Here(w, t) && CanDownRelease(w, t, ok)
    ensures ThreadOk(DoDownRelease(w, t, ok), t, Resumed(PcOf(w, t).cont, ok))
  {
  }

  lemma ReleaseOk(w: World, t: Tid, ok: bool)
    requires Here(w, t) && CanDownRelease(w, t, ok)
    ensures StepOk(w, DoDownRelease(w, t, ok), t)
  {
    var pc := PcOf(w, t);
    ReleaseThread(w, t, ok);
    ReleaseSlot(w, t, ok);
    assert forall r :: r != pc.s ==> SameAt(pc, Resumed(pc.cont, ok), r);
    CoreMoveOk(w, t, Resumed(pc.cont, ok), w.slots[pc.s].(teardownGate := None));
  }

  lemma BuiltOk(w: World, t: Tid)
    requires Here(w, t) && CanDownBuilt(w, t)
    ensures StepOk(w, DoDownBuilt(w, t), t)
  {
    DownMoveOk(w, t, DoDownBuilt(w, t).threads[t].down);
  }

  lemma CheckOk(w: World, t: Tid)
    requires Here(w, t) && CanDownCheck(w, t)
    ensures StepOk(w, DoDownCheck(w, t), t)
  {
    DownMoveOk(w, t, DoDownCheck(w, t).threads[t].down);
  }

  lemma JoinOk(w: World, t: Tid)
    requires Here(w, t) && CanDownJoin(w, t)
    ensures StepOk(w, DoDownJoin(w, t), t)
  {
    DownMoveOk(w, t, DoDownJoin(w, t).threads[t].down);
  }

  lemma TeardownOk(w: World, t: Tid, step: DownStep)
    requires Here(w, t) && TableOk(w) && Fences.Valid(w.fences) && CanTeardown(w, t, step)
    ensures StepOk(w, DoTeardown(w, t, step), t)
  {
    match step
    case Proceed => DownMoveOk(w, t, AwaitGate);
    case DownGiveUp => GiveUpOk(w, t);
    case DownGate => GateOk(w, t);
    case Check => CheckOk(w, t);
    case DownBuilt => BuiltOk(w, t);
    case Drained => DownMoveOk(w, t, Stopping);
    case StopOwner => StopOwnerOk(w, t);
    case Join => JoinOk(w, t);
    case Expire => DownMoveOk(w, t, Releasing(false));
    case Uninstall(ok) => UninstallOk(w, t, ok);
    case Unprotect(ok) => UnprotectOk(w, t, ok);
    case Remove(ok) => RemoveOk(w, t, ok);
    case Release(ok) => ReleaseOk(w, t, ok);
  }
}

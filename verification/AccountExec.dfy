/** The steps of open, Execute and Close keep the invariant. */
module AccountExec {
  import opened Options
  import opened Targets
  import opened Slots
  import opened AccountWorld
  import opened AccountSteps
  import opened AccountInvariant
  import opened AccountRely
  import opened AccountLocal
  import Fences

  /** The slot of an executing goroutine, with new counters and gate. */
  function Counted(slot: Slot, gate: Option<Tid>, active: nat, drained: bool, handles: nat): Slot {
    slot.(gate := gate, core := slot.core.(active := active, drained := drained, handles := handles))
  }

  predicate Executes(w: World, t: Tid) {
    PcOf(w, t).Exec? && PcOf(w, t).at != Closed && t in w.threads
  }

  lemma ExecSlotStep(w: World, t: Tid, pc': Pc, slot: Slot, active: nat, drained: bool, handles: nat, gate: Option<Tid>)
    requires ThreadOk(w, t, PcOf(w, t)) && Executes(w, t) && pc'.Exec? && pc'.s == PcOf(w, t).s
    requires slot == Counted(w.slots[pc'.s], gate, active, drained, handles)
    requires drained <==> active == 0
    requires Tracks(w.slots[pc'.s].gate, gate, HoldsGate(PcOf(w, t)), HoldsGate(pc'), t)
    requires active == w.slots[pc'.s].core.active - One(InOperation(PcOf(w, t))) + One(InOperation(pc'))
    requires handles == w.slots[pc'.s].core.handles - One(HoldsHandle(PcOf(w, t))) + One(HoldsHandle(pc'))
    requires active > w.slots[pc'.s].core.active ==> CanReserve(w.slots[pc'.s].core, pc'.e)
    ensures SlotStep(w, SlotMove(w, t, pc', pc'.s, slot), t, pc'.s)
  {
  }

  /** A step of Execute outside its callback. */
  lemma ExecStepOk(w: World, t: Tid, at: ExecAt, gate: Option<Tid>, active: nat, drained: bool, handles: nat)
    requires Here(w, t) && Executes(w, t) && !PcOf(w, t).at.Calling? && !at.Calling?
    requires drained <==> active == 0
    requires var pc, pc', slot := PcOf(w, t), PcOf(w, t).(at := at), w.slots[PcOf(w, t).s];
             && Tracks(slot.gate, gate, HoldsGate(pc), HoldsGate(pc'), t)
             && active == slot.core.active - One(InOperation(pc)) + One(InOperation(pc'))
             && handles == slot.core.handles - 1 + One(HoldsHandle(pc'))
             && (active > slot.core.active ==> CanReserve(slot.core, pc.e))
    ensures var pc := PcOf(w, t);
            StepOk(w, SlotMove(w, t, pc.(at := at), pc.s, Counted(w.slots[pc.s], gate, active, drained, handles)), t)
  {
    var pc := PcOf(w, t);
    var pc' := pc.(at := at);
    var slot := Counted(w.slots[pc.s], gate, active, drained, handles);
    ExecSlotStep(w, t, pc', slot, active, drained, handles, gate);
    ExecThreadOk(SlotMove(w, t, pc', pc.s, slot), t, pc');
    SlotMoveOk(w, t, pc', slot);
  }

  lemma StayOk(w: World, t: Tid, at: ExecAt)
    requires Here(w, t) && Executes(w, t) && !PcOf(w, t).at.Calling? && !at.Calling? && at != Closed
    requires HoldsGate(PcOf(w, t)) == HoldsGate(PcOf(w, t).(at := at))
    requires InOperation(PcOf(w, t)) == InOperation(PcOf(w, t).(at := at))
    ensures StepOk(w, Move(w, t, at), t)
  {
    var pc := PcOf(w, t);
    ExecThreadOk(Move(w, t, at), t, pc.(at := at));
    MoveOk(w, t, pc.(at := at));
  }

  lemma TakeGateOk(w: World, t: Tid)
    requires Here(w, t) && CanTakeGate(w, t)
    ensures StepOk(w, DoTakeGate(w, t), t)
  {
    var core := w.slots[PcOf(w, t).s].core;
    ExecStepOk(w, t, Beginning, Some(t), core.active, core.drained, core.handles);
  }

  lemma BegunOk(w: World, t: Tid)
    requires Here(w, t) && CanBeginOperation(w, t) && Verdict(w, t) == Success
    ensures StepOk(w, DoBeginOperation(w, t), t)
  {
    var core := w.slots[PcOf(w, t).s].core;
    ExecStepOk(w, t, Operating, Some(t), core.active + 1, false, core.handles);
  }

  lemma BeginOperationOk(w: World, t: Tid)
    requires Here(w, t) && CanBeginOperation(w, t)
    ensures StepOk(w, DoBeginOperation(w, t), t)
  {
    if Verdict(w, t) == Success {
      BegunOk(w, t);
    } else {
      StayOk(w, t, Ungating);
    }
  }

  lemma FinishOk(w: World, t: Tid)
    requires Here(w, t) && CanFinish(w, t)
    ensures StepOk(w, DoFinish(w, t), t)
  {
    var core := w.slots[PcOf(w, t).s].core;
    ExecStepOk(w, t, Sweeping, Some(t), core.active - 1, core.active == 1, core.handles);
  }

  lemma DropOk(w: World, t: Tid)
    requires Here(w, t) && CanDrop(w, t)
    ensures StepOk(w, DoDrop(w, t), t)
  {
    var slot := w.slots[PcOf(w, t).s];
    ExecStepOk(w, t, Closed, slot.gate, slot.core.active, slot.core.drained, slot.core.handles - 1);
  }

  lemma GiveGateOk(w: World, t: Tid)
    requires Here(w, t) && CanGiveGate(w, t)
    ensures StepOk(w, DoGiveGate(w, t), t)
  {
    var core := w.slots[PcOf(w, t).s].core;
    ExecStepOk(w, t, Closing, None, core.active, core.drained, core.handles);
  }

  lemma CallOk(w: World, t: Tid)
    requires Here(w, t) && CanCall(w, t)
    ensures StepOk(w, DoCall(w, t), t)
  {
    var pc := PcOf(w, t);
    var owner := w.entries[pc.e].owner.value.(callback := Some(t));
    var entry := w.entries[pc.e].(owner := Some(owner));
    ExecThreadOk(DoCall(w, t), t, pc.(at := Calling));
    EntryMoveOk(w, t, pc.(at := Calling), pc.e, entry);
  }

  lemma ReturnOk(w: World, t: Tid)
    requires Here(w, t) && CanReturn(w, t)
    ensures StepOk(w, DoReturn(w, t), t)
  {
    var pc := PcOf(w, t);
    var owner := w.entries[pc.e].owner.value.(callback := None);
    var entry := w.entries[pc.e].(owner := Some(owner));
    ExecThreadOk(DoReturn(w, t), t, pc.(at := Finishing));
    EntryMoveOk(w, t, pc.(at := Finishing), pc.e, entry);
  }

  lemma SweepAfterOk(w: World, t: Tid, sweep: bool)
    requires Here(w, t) && TableOk(w) && CanSweepAfter(w, t, sweep)
    ensures StepOk(w, DoSweepAfter(w, t, sweep), t)
  {
    var pc := PcOf(w, t);
    if sweep {
      ExecThreadOk(DoSweepAfter(w, t, sweep), t, pc.(at := Ungating));
      SweepOk(w, t, pc.(at := Ungating), pc.s);
    } else {
      StayOk(w, t, Ungating);
    }
  }

  lemma EndExecuteOk(w: World, t: Tid, sweep: bool)
    requires Here(w, t) && TableOk(w) && CanEndExecute(w, t, sweep)
    ensures StepOk(w, DoEndExecute(w, t, sweep), t)
  {
    var pc := PcOf(w, t);
    if sweep {
      SweepOk(w, t, Idle, pc.s);
    } else {
      LockMoveOk(w, t, Idle, w.mu);
    }
  }

  lemma ExecutionOk(w: World, t: Tid, step: ExecStep)
    requires Here(w, t) && TableOk(w) && CanExecution(w, t, step)
    ensures StepOk(w, DoExecution(w, t, step), t)
  {
    match step
    case Open => StayOk(w, t, AtGate);
    case GiveUp => StayOk(w, t, Closing);
    case TakeGate => TakeGateOk(w, t);
    case BeginOp => BeginOperationOk(w, t);
    case Call => CallOk(w, t);
    case Return => ReturnOk(w, t);
    case Abandon => StayOk(w, t, Finishing);
    case Finish => FinishOk(w, t);
    case SweepAfter(sweep) => SweepAfterOk(w, t, sweep);
    case GiveGate => GiveGateOk(w, t);
    case Drop => DropOk(w, t);
    case EndExecute(sweep) => EndExecuteOk(w, t, sweep);
  }
}

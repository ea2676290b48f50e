/** The steps of buildEntry and runEntry keep the invariant. */
module AccountLife {
  import opened Options
  import opened Targets
  import opened Slots
  import opened AccountWorld
  import opened AccountSteps
  import opened AccountInvariant
  import opened AccountRely
  import opened AccountLocal
  import Fences

  lemma RunnerThreadOk(w': World, t: Tid, pc: Pc)
    requires IsRunner(pc) && RefsOk(w', pc) && RunnerOk(w', t, pc)
    ensures ThreadOk(w', t, pc)
  {
  }

  /** A built entry is published only while it is installed and admission allows it. */
  lemma BuiltWellOk(w: World, t: Tid)
    requires Here(w, t) && CanBuilt(w, t, Success)
    requires !w.stopped && w.slots[PcOf(w, t).s].core.current == Some(PcOf(w, t).e)
    requires !w.slots[PcOf(w, t).s].core.closed || w.slots[PcOf(w, t).s].revokeRunning
    ensures StepOk(w, DoBuilt(w, t, Success), t)
  {
    var pc := PcOf(w, t);
    var entry := w.entries[pc.e].(built := true, buildErr := Success, owner := Some(NEW_OWNER));
    RunnerThreadOk(DoBuilt(w, t, Success), t, RunReady(pc.s, pc.e));
    EntryMoveOk(w, t, RunReady(pc.s, pc.e), pc.e, entry);
  }

  /** The world after a failed build of the installed entry. */
  function Withdrawn(w: World, t: Tid, failure: Failure): World
    requires PcOf(w, t).Build? && PcOf(w, t).s in w.slots && PcOf(w, t).e in w.entries
  {
    var pc := PcOf(w, t);
    Put(w, t, Sweep(pc.s))
      .(slots := w.slots[pc.s := w.slots[pc.s].(core := w.slots[pc.s].core.(current := None))],
        entries := w.entries[pc.e := w.entries[pc.e].(built := true, buildErr := failure, owner := None)])
  }

  ghost predicate Withdraws(w: World, t: Tid) {
    && Here(w, t) && PcOf(w, t).Build? && !w.stopped && w.slots[PcOf(w, t).s].core.current == Some(PcOf(w, t).e)
    && (!w.slots[PcOf(w, t).s].core.closed || w.slots[PcOf(w, t).s].revokeRunning)
  }

  lemma WithdrawnIs(w: World, t: Tid, failure: Failure)
    requires Withdraws(w, t) && CanBuilt(w, t, failure) && failure != Success
    ensures DoBuilt(w, t, failure) == Withdrawn(w, t, failure)
  {
  }

  lemma WithdrawnEntry(w: World, t: Tid, failure: Failure)
    requires Withdraws(w, t)
    ensures EntryStep(w, Withdrawn(w, t, failure), t, PcOf(w, t).e)
    ensures ThreadOk(Withdrawn(w, t, failure), t, Sweep(PcOf(w, t).s)) && ThreadOk(w, t, PcOf(w, t))
  {
  }

  lemma WithdrawnSlot(w: World, t: Tid, failure: Failure)
    requires Withdraws(w, t)
    ensures var w', s := Withdrawn(w, t, failure), PcOf(w, t).s;
            SlotStep(w, w', t, s) && OutStep(w, w', s) && FenceStep(w, w', s) && StopStepOk(w, w', s)
  {
  }

  /** A failed build of an entry that admission still allows uninstalls it. */
  lemma BuildFailedOk(w: World, t: Tid, failure: Failure)
    requires Withdraws(w, t)
    ensures StepOk(w, Withdrawn(w, t, failure), t)
  {
    WithdrawnSlot(w, t, failure);
    WithdrawnEntry(w, t, failure);
    InsideOk(w, Withdrawn(w, t, failure), t, {PcOf(w, t).s}, {PcOf(w, t).e});
  }

  lemma BuildRefusedOk(w: World, t: Tid, failure: Failure)
    requires Here(w, t) && CanBuilt(w, t, failure)
    requires var slot := w.slots[PcOf(w, t).s];
             w.stopped || slot.core.current != Some(PcOf(w, t).e) || (slot.core.closed && !slot.revokeRunning)
    ensures StepOk(w, DoBuilt(w, t, failure), t)
  {
    var pc := PcOf(w, t);
    EntryMoveOk(w, t, Idle, pc.e, DoBuilt(w, t, failure).entries[pc.e]);
  }

  lemma RunStartOk(w: World, t: Tid)
    requires Here(w, t) && CanRun(w, t) && !w.entries[PcOf(w, t).e].owner.value.started
    ensures StepOk(w, DoRun(w, t), t)
  {
    var pc := PcOf(w, t);
    var owner := w.entries[pc.e].owner.value;
    RunnerThreadOk(DoRun(w, t), t, Running(pc.s, pc.e));
    EntryMoveOk(w, t, Running(pc.s, pc.e), pc.e, w.entries[pc.e].(owner := Some(owner.(started := true))));
  }

  lemma RunConsumedOk(w: World, t: Tid)
    requires Here(w, t) && CanRun(w, t) && w.entries[PcOf(w, t).e].owner.value.started
    ensures StepOk(w, DoRun(w, t), t)
  {
    var pc := PcOf(w, t);
    RunnerThreadOk(DoRun(w, t), t, RunExit(pc.s, pc.e, Other));
    MoveOk(w, t, RunExit(pc.s, pc.e, Other));
  }

  lemma RunReturnOk(w: World, t: Tid, failure: Failure)
    requires Here(w, t) && CanRunReturn(w, t, failure)
    ensures StepOk(w, DoRunReturn(w, t, failure), t)
  {
    var pc := PcOf(w, t);
    var owner := w.entries[pc.e].owner.value.(completed := true, result := failure);
    RunnerThreadOk(DoRunReturn(w, t, failure), t, RunExit(pc.s, pc.e, failure));
    EntryMoveOk(w, t, RunExit(pc.s, pc.e, failure), pc.e, w.entries[pc.e].(owner := Some(owner)));
  }

  lemma RunExitOk(w: World, t: Tid)
    requires Here(w, t) && CanRunExit(w, t)
    ensures StepOk(w, DoRunExit(w, t), t)
  {
    var pc := PcOf(w, t);
    RunnerThreadOk(DoRunExit(w, t), t, RunSave(pc.s, pc.e, pc.failure));
    CoreMoveOk(w, t, RunSave(pc.s, pc.e, pc.failure),
               w.slots[pc.s].(core := ClearAfterRun(w.slots[pc.s].core, pc.e)));
  }

  lemma RunSaveOk(w: World, t: Tid)
    requires Here(w, t) && CanRunSave(w, t)
    ensures StepOk(w, DoRunSave(w, t), t)
  {
    var pc := PcOf(w, t);
    EntryMoveOk(w, t, Sweep(pc.s), pc.e, w.entries[pc.e].(buildErr := pc.failure));
  }

  lemma SweepRunOk(w: World, t: Tid, sweep: bool)
    requires Here(w, t) && TableOk(w) && CanSweep(w, t, sweep)
    ensures StepOk(w, DoSweep(w, t, sweep), t)
  {
    if sweep { SweepOk(w, t, Idle, PcOf(w, t).s); } else { LockMoveOk(w, t, Idle, w.mu); }
  }

  lemma LifeOk(w: World, t: Tid, step: RunStep)
    requires Here(w, t) && TableOk(w) && CanLife(w, t, step)
    ensures StepOk(w, DoLife(w, t, step), t)
  {
    match step
    case Built(failure) =>
      var slot := w.slots[PcOf(w, t).s];
      if w.stopped || slot.core.current != Some(PcOf(w, t).e) || (slot.core.closed && !slot.revokeRunning) {
        BuildRefusedOk(w, t, failure);
      } else if failure == Success {
        BuiltWellOk(w, t);
      } else {
        WithdrawnIs(w, t, failure);
        BuildFailedOk(w, t, failure);
      }
    case Run => if w.entries[PcOf(w, t).e].owner.value.started { RunConsumedOk(w, t); } else { RunStartOk(w, t); }
    case RunReturn(failure) => RunReturnOk(w, t, failure);
    case Exit => RunExitOk(w, t);
    case Save => RunSaveOk(w, t);
    case SweepRun(sweep) => SweepRunOk(w, t, sweep);
  }
}

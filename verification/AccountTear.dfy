/** The steps of teardownRevoke keep the invariant. */
module AccountTear {
  import opened Options
  import opened Targets
  import opened Slots
  import opened AccountWorld
  import opened AccountSteps
  import opened AccountInvariant
  import opened AccountRely
  import opened AccountLocal
  import opened AccountRevoke
  import Fences

  lemma BuiltOk(w: World, t: Tid, failure: Failure, expired: bool)
    requires Here(w, t) && CanTearBuilt(w, t, failure, expired)
    ensures StepOk(w, DoTearBuilt(w, t, failure, expired), t)
  {
    AdvanceOk(w, t, DoTearBuilt(w, t, failure, expired).threads[t].rev);
  }

  lemma StopOwnerOk(w: World, t: Tid, failure: Failure, known: bool)
    requires Here(w, t) && CanTearStop(w, t, failure, known)
    ensures StepOk(w, DoTearStop(w, t, failure, known), t)
  {
    match w.entries[PcOf(w, t).e].owner
    case None => AdvanceOk(w, t, if known then TearUninstall else TearDone);
    case Some(owner) => StopLiveOk(w, t, failure, known, owner);
  }

  lemma StopLiveOk(w: World, t: Tid, failure: Failure, known: bool, owner: Owner)
    requires Here(w, t) && CanTearStop(w, t, failure, known) && w.entries[PcOf(w, t).e].owner == Some(owner)
    ensures StepOk(w, DoTearStop(w, t, failure, known), t)
  {
    var pc := PcOf(w, t);
    RevokeThreadOk(DoTearStop(w, t, failure, known), t, pc.(rev := TearJoin(failure, known)));
    StopEntryOk(w, t, pc.(rev := TearJoin(failure, known)), pc.e, owner);
    EntryMoveOk(w, t, pc.(rev := TearJoin(failure, known)), pc.e, w.entries[pc.e].(owner := Some(Stopped(owner))));
  }

  /** The verdict "joined" is only wrong about an entry the history marks as masked. */
  lemma JoinOk(w: World, t: Tid, failure: Failure, known: bool, expired: bool)
    requires Here(w, t) && CanTearJoin(w, t, failure, known, expired)
    ensures StepOk(w, DoTearJoin(w, t, failure, known, expired), t)
  {
    var pc := PcOf(w, t);
    var w' := DoTearJoin(w, t, failure, known, expired);
    RevokeThreadOk(w', t, PcOf(w', t));
    InsideOk(w, w', t, {}, {});
  }

  lemma UninstallOk(w: World, t: Tid)
    requires Here(w, t) && CanTearUninstall(w, t)
    ensures StepOk(w, DoTearUninstall(w, t), t)
  {
    var pc := PcOf(w, t);
    RevokeThreadOk(DoTearUninstall(w, t), t, pc.(rev := TearUnprotect));
    CoreMoveOk(w, t, pc.(rev := TearUnprotect), w.slots[pc.s].(core := FinishTeardown(w.slots[pc.s].core, pc.e)));
  }

  lemma UnprotectOk(w: World, t: Tid)
    requires Here(w, t) && Fences.Valid(w.fences) && CanTearUnprotect(w, t)
    ensures StepOk(w, DoTearUnprotect(w, t), t)
  {
    var pc := PcOf(w, t);
    RevokeThreadOk(DoTearUnprotect(w, t), t, pc.(rev := TearRemove));
    UnfenceOk(w, t, pc.(rev := TearRemove), w.entries[pc.e].target.key, w.entries[pc.e].target.version);
  }

  lemma RemoveOk(w: World, t: Tid)
    requires Here(w, t) && TableOk(w) && CanTearRemove(w, t)
    ensures StepOk(w, DoTearRemove(w, t), t)
  {
    var pc := PcOf(w, t);
    RevokeThreadOk(DoTearRemove(w, t), t, pc.(rev := TearFence));
    SweepOk(w, t, pc.(rev := TearFence), pc.s);
  }

  lemma FenceOk(w: World, t: Tid)
    requires Here(w, t) && Fences.Valid(w.fences) && CanTearFence(w, t)
    ensures StepOk(w, DoTearFence(w, t), t)
  {
    var pc := PcOf(w, t);
    RevokeThreadOk(DoTearFence(w, t), t, pc.(rev := TearDone));
    UnfenceOk(w, t, pc.(rev := TearDone), w.entries[pc.e].target.key, pc.target.version);
  }

  lemma DoneOk(w: World, t: Tid)
    requires Here(w, t) && CanTearDone(w, t)
    ensures StepOk(w, DoTearDone(w, t), t)
  {
    var w' := DoTearDone(w, t);
    RevokeThreadOk(w', t, PcOf(w', t));
    MoveOk(w, t, PcOf(w', t));
  }

  lemma TearOk(w: World, t: Tid, step: TearStep)
    requires Here(w, t) && TableOk(w) && Fences.Valid(w.fences) && CanTear(w, t, step)
    ensures StepOk(w, DoTear(w, t, step), t)
  {
    match step
    case TBuilt(failure, expired) => BuiltOk(w, t, failure, expired);
    case TDrain(failure, known, expired) => AdvanceOk(w, t, TearStop(failure, known));
    case TStop(failure, known) => StopOwnerOk(w, t, failure, known);
    case TJoin(failure, known, expired) => JoinOk(w, t, failure, known, expired);
    case TUninstall => UninstallOk(w, t);
    case TUnprotect => UnprotectOk(w, t);
    case TRemove => RemoveOk(w, t);
    case TFence => FenceOk(w, t);
    case TDone => DoneOk(w, t);
  }
}

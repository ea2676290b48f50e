/** The steps of RevokeAndStop up to the end of its callback keep the invariant. */
module AccountRevoke {
  import opened Options
  import opened Targets
  import opened Slots
  import opened AccountWorld
  import opened AccountSteps
  import opened AccountInvariant
  import opened AccountRely
  import opened AccountLocal
  import Fences

  lemma AdvanceOk(w: World, t: Tid, rev: AccountWorld.RevokeAt)
    requires Here(w, t) && PcOf(w, t).Revoke? && !Calls(PcOf(w, t)) && !rev.Privileged?
    requires RevokeOk(w, PcOf(w, t).(rev := rev))
    ensures StepOk(w, Advance(w, t, rev), t)
  {
    var pc := PcOf(w, t);
    RevokeThreadOk(Advance(w, t, rev), t, pc.(rev := rev));
    MoveOk(w, t, pc.(rev := rev));
  }

  lemma GateOk(w: World, t: Tid)
    requires Here(w, t) && CanRevokeGate(w, t)
    ensures StepOk(w, DoRevokeGate(w, t), t)
  {
    var pc := PcOf(w, t);
    RevokeThreadOk(DoRevokeGate(w, t), t, RevokeTurn(pc.target, pc.s));
    CoreMoveOk(w, t, RevokeTurn(pc.target, pc.s), w.slots[pc.s].(teardownGate := Some(t)));
  }

  lemma CancelOk(w: World, t: Tid)
    requires Here(w, t) && CanRevokeCancel(w, t)
    ensures StepOk(w, DoRevokeCancel(w, t), t)
  {
    CoreMoveOk(w, t, Idle, FewerWaiters(w.slots[PcOf(w, t).s]));
  }

  lemma EnterOk(w: World, t: Tid)
    requires Here(w, t) && CanRevokeEnter(w, t)
    ensures StepOk(w, DoRevokeEnter(w, t), t)
  {
    var pc := PcOf(w, t);
    var slot := FewerWaiters(w.slots[pc.s]);
    if w.stopped {
      RevokeThreadOk(DoRevokeEnter(w, t), t, RevokeUngate(pc.s));
      CoreMoveOk(w, t, RevokeUngate(pc.s), slot);
    } else {
      RevokeThreadOk(DoRevokeEnter(w, t), t, RevokeTop(pc.target, pc.s));
      CoreMoveOk(w, t, RevokeTop(pc.target, pc.s), slot.(revokeRunning := true));
    }
  }

  lemma ReadOk(w: World, t: Tid)
    requires Here(w, t) && CanRevokeRead(w, t)
    ensures StepOk(w, DoRevokeRead(w, t), t)
  {
    var pc := PcOf(w, t);
    var w' := DoRevokeRead(w, t);
    if w.stopped {
      RevokeThreadOk(w', t, RevokeLeave(pc.target, pc.s, false));
      MoveOk(w, t, RevokeLeave(pc.target, pc.s, false));
    } else {
      ReadThread(w, t);
      InsideOk(w, w', t, {}, {});
    }
  }

  lemma ReadThread(w: World, t: Tid)
    requires Here(w, t) && CanRevokeRead(w, t) && !w.stopped
    ensures ThreadOk(DoRevokeRead(w, t), t, PcOf(DoRevokeRead(w, t), t))
  {
  }

  lemma LeaveStep(w: World, t: Tid)
    requires Here(w, t) && TableOk(w) && CanRevokeLeave(w, t)
    ensures var w', s := DoRevokeLeave(w, t), PcOf(w, t).s;
            OutStep(w, w', s) && FenceStep(w, w', s) && StopStepOk(w, w', s)
  {
  }

  lemma LeaveSlot(w: World, t: Tid)
    requires Here(w, t) && CanRevokeLeave(w, t)
    ensures SlotStep(w, DoRevokeLeave(w, t), t, PcOf(w, t).s)
  {
  }

  lemma UngateOk(w: World, t: Tid)
    requires Here(w, t) && CanRevokeUngate(w, t)
    ensures StepOk(w, DoRevokeUngate(w, t), t)
  {
    CoreMoveOk(w, t, Idle, w.slots[PcOf(w, t).s].(teardownGate := None));
  }

  lemma CallOk(w: World, t: Tid)
    requires Here(w, t) && CanRevokeCall(w, t)
    ensures StepOk(w, DoRevokeCall(w, t), t)
  {
    var pc := PcOf(w, t);
    var owner := w.entries[pc.e].owner.value.(callback := Some(t));
    RevokeThreadOk(DoRevokeCall(w, t), t, pc.(rev := Privileged));
    EntryMoveOk(w, t, pc.(rev := Privileged), pc.e, w.entries[pc.e].(owner := Some(owner)));
  }

  lemma ReturnOk(w: World, t: Tid, failure: Failure)
    requires Here(w, t) && CanRevokeReturn(w, t, failure)
    ensures StepOk(w, DoRevokeReturn(w, t, failure), t)
  {
    var pc := PcOf(w, t);
    var owner := w.entries[pc.e].owner.value.(callback := None);
    RevokeThreadOk(DoRevokeReturn(w, t, failure), t, pc.(rev := TearBuilt(failure)));
    EntryMoveOk(w, t, pc.(rev := TearBuilt(failure)), pc.e, w.entries[pc.e].(owner := Some(owner)));
  }

  lemma LeaveOk(w: World, t: Tid)
    requires Here(w, t) && TableOk(w) && CanRevokeLeave(w, t)
    ensures StepOk(w, DoRevokeLeave(w, t), t)
  {
    var s := PcOf(w, t).s;
    var slot := w.slots[s].(revokeRunning := false, core := ReopenIfEmpty(w.slots[s].core));
    LeaveStep(w, t);
    LeaveSlot(w, t);
    RevokeThreadOk(DoRevokeLeave(w, t), t, RevokeUngate(s));
    ShedOk(w, DoRevokeLeave(w, t), t, s);
  }

  // ------------------------------------------------------------ the section of prepareRevoke

  /** The section ends without a fence of its own: refused, or a stale private entry is to go first. */
  lemma PrepareReleaseOk(w: World, t: Tid, pc': Pc)
    requires Here(w, t) && PcOf(w, t).RevokeRead? && !InStop(pc') && !HoldsMu(pc') && !Calls(pc')
    requires RevokeRuns(pc') && pc'.s == PcOf(w, t).s
    requires ThreadOk(Unlock(w, t, pc'), t, pc')
    ensures StepOk(w, Unlock(w, t, pc'), t)
  {
    InsideOk(w, Unlock(w, t, pc'), t, {}, {});
  }

  ghost predicate Prepares(w: World, t: Tid, e: EntryId, b: Tid) {
    && CanRevokePrepare(w, t, e, b) && Here(w, t) && SlotsFacts(w) && Fences.Valid(w.fences)
    && Fences.Record(w.fences, PcOf(w, t).target.key, PcOf(w, t).target.version, true).1 == Fences.Recorded
    && InTable(w, PcOf(w, t).s)
  }

  predicate FencesInstalled(w: World, t: Tid, e: EntryId, b: Tid, installed: EntryId) {
    && CanRevokePrepare(w, t, e, b) && PcOf(w, t).seen == Some(installed)
    && !(w.entries[installed].privateRevoke && w.entries[installed].target == PcOf(w, t).target)
    && w.entries[installed].target.key == PcOf(w, t).target.key
    && w.entries[installed].target.version == PcOf(w, t).target.version - 1
    && w.entries[installed].target.status in {Active, ReauthRequired}
  }

  lemma PrepareInstalledIs(w: World, t: Tid, e: EntryId, b: Tid, installed: EntryId)
    requires FencesInstalled(w, t, e, b, installed)
    requires Fences.Record(w.fences, PcOf(w, t).target.key, PcOf(w, t).target.version, true).1 == Fences.Recorded
    ensures var pc := PcOf(w, t);
            DoRevokePrepare(w, t, e, b)
            == FencedClosed(w, t, Revoke(Draining, pc.target, pc.s, installed, false), CloseAdmission(w.slots[pc.s].core))
  {
  }

  lemma PrepareInstalledThread(w: World, t: Tid, installed: EntryId)
    requires ThreadOk(w, t, PcOf(w, t)) && PcOf(w, t).RevokeRead? && PcOf(w, t).seen == Some(installed)
    requires installed in w.entries && Revocable(w.entries[installed].target, PcOf(w, t).target)
    ensures var pc := PcOf(w, t);
            var pc' := Revoke(Draining, pc.target, pc.s, installed, false);
            ThreadOk(FencedClosed(w, t, pc', CloseAdmission(w.slots[pc.s].core)), t, pc')
  {
  }

  lemma ReadHere(w: World, t: Tid)
    requires Here(w, t) && PcOf(w, t).RevokeRead?
    ensures var pc := PcOf(w, t);
            InTable(w, pc.s) && w.slots[pc.s].key == pc.target.key && ThreadOk(w, t, pc)
  {
  }

  /** Fencing the installed predecessor. */
  lemma PrepareInstalledOk(w: World, t: Tid, e: EntryId, b: Tid, installed: EntryId)
    requires Prepares(w, t, e, b) && FencesInstalled(w, t, e, b, installed)
    ensures StepOk(w, DoRevokePrepare(w, t, e, b), t)
  {
    ReadHere(w, t);
    PrepareInstalledIs(w, t, e, b, installed);
    PrepareInstalledThread(w, t, installed);
    var pc := PcOf(w, t);
    FenceAndCloseOk(w, t, Revoke(Draining, pc.target, pc.s, installed, false), CloseAdmission(w.slots[pc.s].core));
  }

  /** Installing a private entry behind the fence. */
  lemma PrepareInstallOk(w: World, t: Tid, e: EntryId, b: Tid)
    requires Prepares(w, t, e, b) && PcOf(w, t).seen.None?
    ensures StepOk(w, DoRevokePrepare(w, t, e, b), t)
  {
    var w', pc := DoRevokePrepare(w, t, e, b), PcOf(w, t);
    PrepareInstallSlot(w, t, e, b);
    PrepareInstallFences(w, t, e, b);
    RevokeThreadOk(w', t, PcOf(w', t));
    InstallOk(w, w', t, PcOf(w', t), pc.s, e, b);
  }

  lemma PrepareInstallFences(w: World, t: Tid, e: EntryId, b: Tid)
    requires Prepares(w, t, e, b) && PcOf(w, t).seen.None?
    requires FenceStep(w, DoRevokePrepare(w, t, e, b), PcOf(w, t).s)
    ensures FencesStep(w, DoRevokePrepare(w, t, e, b), t)
  {
    var pc := PcOf(w, t);
    RecordedFences(w, DoRevokePrepare(w, t, e, b), t, pc.s, pc.target.key, pc.target.version, true);
  }

  lemma PrepareInstallSlot(w: World, t: Tid, e: EntryId, b: Tid)
    requires Prepares(w, t, e, b) && PcOf(w, t).seen.None?
    ensures var w', s := DoRevokePrepare(w, t, e, b), PcOf(w, t).s;
            SlotStep(w, w', t, s) && OutStep(w, w', s) && FenceStep(w, w', s) && StopStepOk(w, w', s)
  {
  }

  lemma PrepareLeaveOk(w: World, t: Tid)
    requires Here(w, t) && PcOf(w, t).RevokeRead?
    ensures StepOk(w, Unlock(w, t, RevokeLeave(PcOf(w, t).target, PcOf(w, t).s, false)), t)
  {
    var pc' := RevokeLeave(PcOf(w, t).target, PcOf(w, t).s, false);
    RevokeThreadOk(Unlock(w, t, pc'), t, pc');
    PrepareReleaseOk(w, t, pc');
  }

  lemma PrepareStaleOk(w: World, t: Tid, installed: EntryId)
    requires Here(w, t) && PcOf(w, t).RevokeRead? && PcOf(w, t).seen == Some(installed)
    ensures StepOk(w, Unlock(w, t, Revoke(TearBuilt(Success), PcOf(w, t).target, PcOf(w, t).s, installed, true)), t)
  {
    var pc' := Revoke(TearBuilt(Success), PcOf(w, t).target, PcOf(w, t).s, installed, true);
    RevokeThreadOk(Unlock(w, t, pc'), t, pc');
    PrepareReleaseOk(w, t, pc');
  }

  lemma PrepareOk(w: World, t: Tid, e: EntryId, b: Tid)
    requires Here(w, t) && SlotsFacts(w) && Fences.Valid(w.fences) && CanRevokePrepare(w, t, e, b)
    ensures StepOk(w, DoRevokePrepare(w, t, e, b), t)
  {
    var pc := PcOf(w, t);
    var refused := Fences.Record(w.fences, pc.target.key, pc.target.version, true).1 != Fences.Recorded;
    ReadHere(w, t);
    match pc.seen
    case None => if refused { PrepareLeaveOk(w, t); } else { PrepareInstallOk(w, t, e, b); }
    case Some(installed) => PrepareBehindOk(w, t, e, b, installed);
  }

  lemma PrepareBehindOk(w: World, t: Tid, e: EntryId, b: Tid, installed: EntryId)
    requires Here(w, t) && SlotsFacts(w) && Fences.Valid(w.fences) && CanRevokePrepare(w, t, e, b)
    requires PcOf(w, t).seen == Some(installed) && InTable(w, PcOf(w, t).s)
    ensures StepOk(w, DoRevokePrepare(w, t, e, b), t)
  {
    var target := PcOf(w, t).target;
    if w.entries[installed].privateRevoke && w.entries[installed].target == target {
      PrepareStaleOk(w, t, installed);
    } else if FencesInstalled(w, t, e, b, installed)
        && Fences.Record(w.fences, target.key, target.version, true).1 == Fences.Recorded {
      PrepareInstalledOk(w, t, e, b, installed);
    } else {
      PrepareLeaveOk(w, t);
    }
  }

  lemma RevocationOk(w: World, t: Tid, step: RevokeStep)
    requires Here(w, t) && TableOk(w) && SlotsFacts(w) && Fences.Valid(w.fences) && CanRevocation(w, t, step)
    ensures StepOk(w, DoRevocation(w, t, step), t)
  {
    match step
    case RevokeGate => GateOk(w, t);
    case Cancel => CancelOk(w, t);
    case Enter => EnterOk(w, t);
    case Read => ReadOk(w, t);
    case Prepare(e, b) => PrepareOk(w, t, e, b);
    case Leave => LeaveOk(w, t);
    case Ungate => UngateOk(w, t);
    case RevokeDrained => AdvanceOk(w, t, Ready);
    case Fail(failure) => AdvanceOk(w, t, TearBuilt(failure));
    case CallPrivileged => CallOk(w, t);
    case ReturnPrivileged(failure) => ReturnOk(w, t, failure);
  }
}

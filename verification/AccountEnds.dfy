/**
 How builds, runs, teardowns, revokes and Stop decide, section by section, and
 what a caller who was told that they succeeded may rely on.
 */
module AccountEnds {
  import opened Options
  import opened Targets
  import opened Slots
  import opened AccountWorld
  import opened AccountSteps
  import opened AccountInvariant
  import opened AccountTheorems
  import opened AccountCalls
  import Fences

  // ------------------------------------------------------------------ build and run

  /** A built client becomes the entry's owner exactly if the entry may still have one. */
  lemma BuildPublishesExactly(w: World, t: Tid, failure: Failure, w': World)
    requires Takes(w, Life(t, Built(failure)), w')
    ensures var pc := PcOf(w, t);
            var slot, entry := w.slots[pc.s], w.entries[pc.e];
            var wanted := !w.stopped && slot.core.current == Some(pc.e) && (!slot.core.closed || slot.revokeRunning);
            if wanted && failure == Success then
              w' == Moved(WithEntry(w, pc.e, entry.(built := true, buildErr := Success,
                                                    owner := Some(Owner(false, false, false, Success, None)))), t, RunReady(pc.s, pc.e))
            else
              && w'.entries == w.entries[pc.e := entry.(built := true, owner := None,
                                                        buildErr := if failure == Success then AccountStopped else failure)]
              && w'.slots == (if wanted then w.slots[pc.s := slot.(core := slot.core.(current := None))] else w.slots)
              && PcOf(w', t) == if wanted then Sweep(pc.s) else Idle
  {
  }

  /** Run starts an owner that was not stopped before; when it returns, the owner is done and says why. */
  lemma RunExactly(w: World, t: Tid, step: RunStep, w': World)
    requires Takes(w, Life(t, step), w') && (step.Run? || step.RunReturn?)
    ensures var pc := PcOf(w, t);
            var entry := w.entries[pc.e];
            if step.RunReturn? then
              w' == Moved(WithEntry(w, pc.e, entry.(owner := Some(entry.owner.value.(completed := true, result := step.failure)))), t,
                          RunExit(pc.s, pc.e, step.failure))
            else if entry.owner.value.started then w' == Moved(w, t, RunExit(pc.s, pc.e, Other))
            else w' == Moved(WithEntry(w, pc.e, entry.(owner := Some(entry.owner.value.(started := true)))), t, Running(pc.s, pc.e))
  {
  }

  /** A run that ended leaves its slot, unless a teardown owns the slot, and leaves its failure on the entry. */
  lemma RunLeavesExactly(w: World, t: Tid, step: RunStep, w': World)
    requires Takes(w, Life(t, step), w') && (step.Exit? || step.Save?)
    ensures var pc := PcOf(w, t);
            if step.Save? then w' == Moved(WithEntry(w, pc.e, w.entries[pc.e].(buildErr := pc.failure)), t, Sweep(pc.s))
            else
              var core := w.slots[pc.s].core;
              w' == Moved(WithCore(w, pc.s, if core.current == Some(pc.e) && !core.stopping then core.(current := None) else core), t,
                          RunSave(pc.s, pc.e, pc.failure))
  {
  }

  // ----------------------------------------------------------------------- teardown

  /** A teardown proceeds only when no revoke runs or waits, holds the gate, and leaves an entry that is not current alone. */
  lemma TeardownEntersExactly(w: World, t: Tid, step: DownStep, w': World)
    requires Takes(w, Teardown(t, step), w') && (step.Proceed? || step.DownGate? || step.Check? || step.Drained?)
    ensures var pc := PcOf(w, t);
            var slot := w.slots[pc.s];
            if step.Proceed? then !RevokePending(slot) && w' == Moved(w, t, pc.(down := AwaitGate))
            else if step.DownGate? then
              PcOf(w', t) == pc.(down := Checking) && w'.entries == w.entries && w'.slots[pc.s].core == slot.core
            else if step.Check? then
              w' == Moved(w, t, pc.(down := if slot.core.current == Some(pc.e) then AwaitBuilt else Releasing(true)))
            else slot.core.drained && w' == Moved(w, t, pc.(down := Stopping))
  {
  }

  /** How a finished wait decides: clean ends go on, other failures uninstall all the same, context failures keep the entry. */
  function Decided(failure: Failure, clean: AccountWorld.DownAt): AccountWorld.DownAt {
    match failure
    case Canceled => Releasing(false)
    case DeadlineExceeded => Releasing(false)
    case Success => clean
    case AccountStopped => if clean == AwaitDrain then clean else Uninstalling(false)
    case OwnerStopped => if clean == Uninstalling(true) then clean else Uninstalling(false)
    case _ => Uninstalling(false)
  }

  lemma TeardownWaitsExactly(w: World, t: Tid, step: DownStep, w': World)
    requires Takes(w, Teardown(t, step), w') && (step.DownBuilt? || step.Join? || step.Expire?)
    ensures var pc := PcOf(w, t);
            var entry := w.entries[pc.e];
            w' == Moved(w, t, pc.(down :=
              if step.DownBuilt? then Decided(entry.buildErr, AwaitDrain)
              else if step.Join? then Decided(entry.owner.value.result, Uninstalling(true))
              else Releasing(false)))
  {
  }

  lemma TeardownWaitsFor(w: World, t: Tid)
    ensures Can(w, Teardown(t, DownBuilt)) ==> w.entries[PcOf(w, t).e].built
    ensures Can(w, Teardown(t, Join)) ==> w.entries[PcOf(w, t).e].owner.value.completed
  {
  }

  /** An owner is stopped: for good if it never ran, otherwise its run is cancelled and joined. */
  lemma OwnerStopsExactly(w: World, t: Tid, w': World)
    requires Takes(w, Teardown(t, StopOwner), w')
    ensures var pc := PcOf(w, t);
            var entry := w.entries[pc.e];
            if entry.owner.None? then w' == Moved(w, t, pc.(down := Uninstalling(true)))
            else
              var owner := entry.owner.value;
              w' == Moved(WithEntry(w, pc.e, entry.(owner := Some(
                            if !owner.started then Owner(true, true, true, OwnerStopped, owner.callback)
                            else if owner.completed then owner else owner.(stopping := true)))), t,
                          pc.(down := Joining))
  {
  }

  /** The torn-down entry leaves its slot, and admission reopens. */
  lemma TeardownUninstallsExactly(w: World, t: Tid, ok: bool, w': World)
    requires Takes(w, Teardown(t, Uninstall(ok)), w')
    ensures var pc := PcOf(w, t);
            var core := w.slots[pc.s].core;
            w' == Moved(WithCore(w, pc.s, if core.current == Some(pc.e)
                                          then core.(current := None, closed := false, stopping := false) else core), t,
                        pc.(down := Unprotecting(ok)))
  {
  }

  /** The fence of its version becomes evictable again, and goes on standing. */
  lemma TeardownUnprotectsExactly(w: World, t: Tid, ok: bool, w': World)
    requires Reachable(w) && Takes(w, Teardown(t, Unprotect(ok)), w')
    ensures var pc := PcOf(w, t);
            var target := w.entries[pc.e].target;
            && PcOf(w', t) == pc.(down := Removing(ok)) && w'.slots == w.slots && w'.entries == w.entries
            && w'.fences.records.Keys == w.fences.records.Keys
            && forall k <- w.fences.records ::
                 && w'.fences.records[k].version == w.fences.records[k].version
                 && w'.fences.records[k].protected
                    == (w.fences.records[k].protected && !(k == target.key && w.fences.records[k].version == target.version))
  {
    ValidFences(w);
    Fences.UnprotectEffect(w.fences, w.entries[PcOf(w, t).e].target.key, w.entries[PcOf(w, t).e].target.version);
  }

  lemma ValidFences(w: World)
    requires Reachable(w)
    ensures Fences.Valid(w.fences)
  {
    ReachableInv(w);
  }

  /** Where a teardown's caller goes on. */
  lemma TeardownReturnsExactly(w: World, t: Tid, step: DownStep, w': World)
    requires Takes(w, Teardown(t, step), w') && (step.Release? || step.DownGiveUp? || step.Remove?)
    ensures var pc := PcOf(w, t);
            if step.Remove? then PcOf(w', t) == pc.(down := Releasing(step.ok)) && w'.entries == w.entries
            else
              && w'.entries == w.entries && w'.table == w.table && w'.fences == w.fences
              && (forall s <- w.slots :: s in w'.slots && w'.slots[s].core == w.slots[s].core)
              && PcOf(w', t) ==
                   match pc.cont
                   case Readmit(want) => if step.Release? && step.ok then Retry(want) else Idle
                   case EndStopAccount => Idle
                   case NextRetired(rest) => ReapEach(rest)
                   case NextStopped(rest) => StopEach(rest)
  {
  }

  /** A teardown that succeeded leaves its entry installed nowhere, and its owner done unless a revoke took it for joined. */
  lemma TeardownIsFinal(w: World, t: Tid)
    requires Reachable(w) && PcOf(w, t).Down? && PcOf(w, t).down == Releasing(true)
    ensures var e := PcOf(w, t).e;
            && (forall s <- w.slots :: w.slots[s].core.current != Some(e)) && (OwnerRuns(w, e) ==> e in w.masked)
  {
    ReachableInv(w);
    var e := PcOf(w, t).e;
    assert ThreadOk(w, t, PcOf(w, t)) && EntryOk(w, e);
    forall s <- w.slots ensures w.slots[s].core.current != Some(e) { assert SlotOk(w, s); }
  }

  // ------------------------------------------------------------------ RevokeAndStop

  /** A revoke whose turn has come runs, unless the registry was stopped; a cancelled one only stops waiting. */
  lemma RevokeEntersExactly(w: World, t: Tid, step: RevokeStep, w': World)
    requires Takes(w, Revocation(t, step), w') && (step.RevokeGate? || step.Cancel? || step.Enter?)
    ensures var pc := PcOf(w, t);
            && w'.entries == w.entries && w'.fences == w.fences && w'.table == w.table
            && w'.slots == w.slots[pc.s := w'.slots[pc.s]] && w'.slots[pc.s].core == w.slots[pc.s].core
            && (w'.slots[pc.s].revokeRunning == (w.slots[pc.s].revokeRunning || (step.Enter? && !w.stopped)))
            && PcOf(w', t) == if step.RevokeGate? then RevokeTurn(pc.target, pc.s) else if step.Cancel? then Idle
                              else if w.stopped then RevokeUngate(pc.s) else RevokeTop(pc.target, pc.s)
  {
  }

  lemma RevokeReadsExactly(w: World, t: Tid, w': World)
    requires Takes(w, Revocation(t, Read), w')
    ensures var pc := PcOf(w, t);
            w' == if w.stopped then Moved(w, t, RevokeLeave(pc.target, pc.s, false))
                  else Moved(w, t, RevokeRead(pc.target, pc.s, w.slots[pc.s].core.current)).(mu := Some(t))
  {
  }

  /** What prepareRevoke finds in the slot. */
  predicate StalePrivate(w: World, pc: Pc)
    requires pc.RevokeRead? && (pc.seen.Some? ==> pc.seen.value in w.entries)
  {
    pc.seen.Some? && w.entries[pc.seen.value].privateRevoke && w.entries[pc.seen.value].target == pc.target
  }

  /** Nothing, or the signed-in version right before the revoked one. */
  predicate MayBeRevoked(w: World, pc: Pc)
    requires pc.RevokeRead? && (pc.seen.Some? ==> pc.seen.value in w.entries)
  {
    pc.seen.None? ||
    var installed := w.entries[pc.seen.value].target;
    && installed.key == pc.target.key && installed.version + 1 == pc.target.version
    && (installed.status == Active || installed.status == ReauthRequired)
  }

  /** The fence cannot be recorded: a newer one stands, or the table has no room. */
  predicate FenceRefused(fences: Fences.Table, target: Target) {
    Covered(fences, target.key, target.version + 1) || NoRoomFor(fences, target.key)
  }

  ghost predicate RecordingIsExact(fences: Fences.Table, target: Target) {
    var (fences', outcome) := Fences.Record(fences, target.key, target.version, true);
    && (outcome == Fences.Recorded <==> !FenceRefused(fences, target))
    && (outcome == Fences.Recorded ==>
          Covered(fences', target.key, target.version) && fences'.records[target.key].protected)
  }

  lemma RecordsExactly(w: World, target: Target)
    requires Reachable(w)
    ensures RecordingIsExact(w.fences, target)
  {
    ValidFences(w);
    RecordCovers(w.fences, target.key, target.version, true);
  }

  /**
   A revoke is prepared exactly if the slot is empty or holds the signed-in
   version right before it, and its fence can be recorded; then the fence stands
   and is protected, admission is closed, and an empty slot has got a private
   entry for the callback.  A private entry left by an earlier attempt is torn
   down first; every other revoke is refused and changes nothing.
   */
  lemma RevokePreparesOnEntry(w: World, t: Tid, e: EntryId, b: Tid, w': World)
    requires Reachable(w) && Takes(w, Revocation(t, Prepare(e, b)), w') && PcOf(w, t).seen.Some?
    ensures var pc := PcOf(w, t);
            if StalePrivate(w, pc) then
              w' == Moved(w, t, Revoke(TearBuilt(Success), pc.target, pc.s, pc.seen.value, true)).(mu := None)
            else if !MayBeRevoked(w, pc) || FenceRefused(w.fences, pc.target) then
              w' == Moved(w, t, RevokeLeave(pc.target, pc.s, false)).(mu := None)
            else
              && Covered(w'.fences, pc.target.key, pc.target.version) && w'.fences.records[pc.target.key].protected
              && PcOf(w', t) == Revoke(Draining, pc.target, pc.s, pc.seen.value, false)
              && w'.mu.None? && w'.entries == w.entries
              && w'.slots == w.slots[pc.s := w.slots[pc.s].(core := w.slots[pc.s].core.(closed := true, stopping := true))]
  {
    RecordsExactly(w, PcOf(w, t).target);
    PreparesOnEntry(w, t, e, b, w');
  }

  lemma PreparesOnEntry(w: World, t: Tid, e: EntryId, b: Tid, w': World)
    requires Takes(w, Revocation(t, Prepare(e, b)), w') && PcOf(w, t).seen.Some? && RecordingIsExact(w.fences, PcOf(w, t).target)
    ensures var pc := PcOf(w, t);
            if StalePrivate(w, pc) then
              w' == Moved(w, t, Revoke(TearBuilt(Success), pc.target, pc.s, pc.seen.value, true)).(mu := None)
            else if !MayBeRevoked(w, pc) || FenceRefused(w.fences, pc.target) then
              w' == Moved(w, t, RevokeLeave(pc.target, pc.s, false)).(mu := None)
            else
              && Covered(w'.fences, pc.target.key, pc.target.version) && w'.fences.records[pc.target.key].protected
              && PcOf(w', t) == Revoke(Draining, pc.target, pc.s, pc.seen.value, false)
              && w'.mu.None? && w'.entries == w.entries
              && w'.slots == w.slots[pc.s := w.slots[pc.s].(core := w.slots[pc.s].core.(closed := true, stopping := true))]
  {
  }

  lemma RevokePreparesOnEmpty(w: World, t: Tid, e: EntryId, b: Tid, w': World)
    requires Reachable(w) && Takes(w, Revocation(t, Prepare(e, b)), w') && PcOf(w, t).seen.None?
    ensures var pc := PcOf(w, t);
            if FenceRefused(w.fences, pc.target) then w' == Moved(w, t, RevokeLeave(pc.target, pc.s, false)).(mu := None)
            else
              && Covered(w'.fences, pc.target.key, pc.target.version) && w'.fences.records[pc.target.key].protected
              && PcOf(w', t) == Revoke(Draining, pc.target, pc.s, e, false) && PcOf(w', b) == Build(pc.s, e)
              && w'.mu.None? && w'.entries == w.entries[e := Entry(pc.s, pc.target, true, false, Success, None, b)]
              && w'.slots == w.slots[pc.s := w.slots[pc.s].(core := w.slots[pc.s].core.(current := Some(e), closed := true, stopping := true))]
  {
    RecordsExactly(w, PcOf(w, t).target);
    if !FenceRefused(w.fences, PcOf(w, t).target) { PreparesOnEmpty(w, t, e, b, w'); }
  }

  lemma PreparesOnEmpty(w: World, t: Tid, e: EntryId, b: Tid, w': World)
    requires Takes(w, Revocation(t, Prepare(e, b)), w') && PcOf(w, t).seen.None? && RecordingIsExact(w.fences, PcOf(w, t).target)
    requires !FenceRefused(w.fences, PcOf(w, t).target)
    ensures var pc := PcOf(w, t);
            && Covered(w'.fences, pc.target.key, pc.target.version) && w'.fences.records[pc.target.key].protected
            && PcOf(w', t) == Revoke(Draining, pc.target, pc.s, e, false) && PcOf(w', b) == Build(pc.s, e)
            && w'.mu.None? && w'.entries == w.entries[e := Entry(pc.s, pc.target, true, false, Success, None, b)]
            && w'.slots == w.slots[pc.s := w.slots[pc.s].(core := w.slots[pc.s].core.(current := Some(e), closed := true, stopping := true))]
  {
  }

  /** The callback waits for a built, drained and running owner, and is the only one it executes. */
  lemma PrivilegedStartsExactly(w: World, t: Tid)
    ensures Can(w, Revocation(t, CallPrivileged)) <==>
              var pc := PcOf(w, t);
              && pc.Revoke? && pc.rev == Ready && pc.s in w.slots && pc.e in w.entries
              && var owner := w.entries[pc.e].owner;
                 owner.Some? && owner.value.started && !owner.value.completed && owner.value.callback.None?
    ensures Can(w, Revocation(t, RevokeDrained)) <==>
              var pc := PcOf(w, t);
              && pc.Revoke? && pc.rev == Draining && pc.s in w.slots && pc.e in w.entries
              && w.slots[pc.s].core.drained && w.entries[pc.e].built && w.entries[pc.e].buildErr == Success
  {
  }

  lemma PrivilegedGoesOn(w: World, t: Tid, step: RevokeStep, w': World)
    requires Takes(w, Revocation(t, step), w')
    requires step.RevokeDrained? || step.Fail? || step.CallPrivileged? || step.ReturnPrivileged?
    ensures var pc := PcOf(w, t);
            var entry := w.entries[pc.e];
            && PcOf(w', t) == pc.(rev := if step.RevokeDrained? then Ready else if step.CallPrivileged? then Privileged
                                         else TearBuilt(step.failure))
            && w'.slots == w.slots && w'.fences == w.fences
            && w'.entries == if step.CallPrivileged? then
                               w.entries[pc.e := entry.(owner := Some(entry.owner.value.(callback := Some(t))))]
                             else if step.ReturnPrivileged? then
                               w.entries[pc.e := entry.(owner := Some(entry.owner.value.(callback := None)))]
                             else w.entries
  {
  }

  /** The privileged callback runs on the owner of the version right before the revoked one, or on a private one. */
  lemma PrivilegedOnItsOwner(w: World, t: Tid)
    requires Reachable(w) && t in w.threads && RunsPrivileged(w.threads[t])
    ensures var pc := w.threads[t];
            && OwnerRuns(w, pc.e) && w.entries[pc.e].owner.value.callback == Some(t)
            && w.entries[pc.e].target.key == pc.target.key
            && (w.entries[pc.e].target == pc.target
                || (w.entries[pc.e].target.version + 1 == pc.target.version
                    && w.entries[pc.e].target.status in {Active, ReauthRequired}))
  {
    ReachableInv(w);
    assert ThreadOk(w, t, w.threads[t]) && EntryOk(w, w.threads[t].e);
  }

  /** A revoke's teardown stops the owner whatever its waits said, and uninstalls it only if the build is known. */
  lemma RevokeTearsExactly(w: World, t: Tid, step: TearStep, w': World)
    requires Takes(w, RevokeTeardown(t, step), w') && (step.TBuilt? || step.TDrain? || step.TStop?)
    ensures var pc := PcOf(w, t);
            var entry := w.entries[pc.e];
            && (step.TBuilt? && !step.expired ==> entry.built) && (step.TDrain? && !step.expired ==> w.slots[pc.s].core.drained)
            && if step.TBuilt? then
              var known := !step.expired && entry.buildErr != Canceled && entry.buildErr != DeadlineExceeded;
              w' == Moved(w, t, pc.(rev := TearDrain(step.failure, known)))
            else if step.TDrain? then w' == Moved(w, t, pc.(rev := TearStop(step.failure, step.known)))
            else if entry.owner.None? then w' == Moved(w, t, pc.(rev := if step.known then TearUninstall else TearDone))
            else
              var owner := entry.owner.value;
              w' == Moved(WithEntry(w, pc.e, entry.(owner := Some(
                            if !owner.started then Owner(true, true, true, OwnerStopped, owner.callback)
                            else if owner.completed then owner else owner.(stopping := true)))), t,
                          pc.(rev := TearJoin(step.failure, step.known)))
  {
  }

  /** A joined owner is uninstalled unless it ended with a context failure that was not the callback's own. */
  lemma RevokeJoinsExactly(w: World, t: Tid, failure: Failure, known: bool, w': World)
    requires Takes(w, RevokeTeardown(t, TJoin(failure, known, false)), w')
    ensures var result := w.entries[PcOf(w, t).e].owner.value.result;
            var lost := (result == Canceled || result == DeadlineExceeded) && result != failure;
            && w.entries[PcOf(w, t).e].owner.value.completed
            && w' == Moved(w, t, PcOf(w, t).(rev := if known && !lost then TearUninstall else TearDone))
  {
  }

  lemma RevokeUninstallsExactly(w: World, t: Tid, step: TearStep, w': World)
    requires Takes(w, RevokeTeardown(t, step), w') && (step.TUninstall? || step.TRemove?)
    ensures var pc := PcOf(w, t);
            var core := w.slots[pc.s].core;
            if step.TRemove? then PcOf(w', t) == pc.(rev := TearFence) && w'.slots == w.slots && w'.entries == w.entries
            else w' == Moved(WithCore(w, pc.s, if core.current == Some(pc.e)
                                               then core.(current := None, closed := false, stopping := false) else core), t,
                             pc.(rev := TearUnprotect))
  {
  }

  /** The fences of the entry's version and of the revoked one become evictable, and go on standing. */
  lemma RevokeUnprotectsExactly(w: World, t: Tid, step: TearStep, w': World)
    requires Reachable(w) && Takes(w, RevokeTeardown(t, step), w') && (step.TUnprotect? || step.TFence?)
    ensures var pc := PcOf(w, t);
            var target := w.entries[pc.e].target;
            var version := if step.TUnprotect? then target.version else pc.target.version;
            && PcOf(w', t) == pc.(rev := if step.TUnprotect? then TearRemove else TearDone)
            && w'.slots == w.slots && w'.entries == w.entries && w'.fences.records.Keys == w.fences.records.Keys
            && forall k <- w.fences.records ::
                 && w'.fences.records[k].version == w.fences.records[k].version
                 && w'.fences.records[k].protected
                    == (w.fences.records[k].protected && !(k == target.key && w.fences.records[k].version == version))
  {
    ValidFences(w);
    Fences.UnprotectEffect(w.fences, w.entries[PcOf(w, t).e].target.key, w.entries[PcOf(w, t).e].target.version);
    Fences.UnprotectEffect(w.fences, w.entries[PcOf(w, t).e].target.key, PcOf(w, t).target.version);
  }

  /** A stale private entry that is gone makes way for another try; otherwise the revoke leaves. */
  lemma RevokeTriesAgainExactly(w: World, t: Tid, w': World)
    requires Takes(w, RevokeTeardown(t, TDone), w')
    ensures var pc := PcOf(w, t);
            w' == Moved(w, t, if pc.stale && w.slots[pc.s].core.current != Some(pc.e) then RevokeTop(pc.target, pc.s)
                              else RevokeLeave(pc.target, pc.s, !pc.stale))
  {
  }

  /** A leaving revoke reopens an empty slot, and takes it out of the table if nothing refers to it. */
  lemma RevokeLeavesExactly(w: World, t: Tid, w': World)
    requires Takes(w, Revocation(t, Leave), w')
    ensures var s := PcOf(w, t).s;
            var slot := w.slots[s];
            var core := if slot.core.current.None? && slot.core.active == 0
                        then slot.core.(closed := false, stopping := false) else slot.core;
            && PcOf(w', t) == RevokeUngate(s) && w'.entries == w.entries && w'.fences == w.fences
            && w'.slots == w.slots[s := slot.(revokeRunning := false, core := core)]
            && w'.table == if InTable(w, s) && core.current.None? && core.handles == 0 && core.active == 0 && !core.stopping
                              && slot.revokeWaiters == 0 then w.table - {slot.key} else w.table
  {
  }

  // ------------------------------------------------------------ idle eviction and Stop

  /** An eviction closes the idle slots it picks, and tears down each one it picked. */
  lemma EvictionDoes(w: World, t: Tid, step: StopStep, w': World)
    requires Takes(w, Stop(t, step), w')
    requires step.StartReap? || step.ReapPick? || step.ReapEnd? || (step.ReapNext? && step.item.1.Some?) || step.ReapDone?
    ensures var pc := PcOf(w, t);
            && w'.slots == w.slots && w'.entries == w.entries && w'.fences == w.fences && w'.table == w.table
            && (step.ReapPick? ==> var core := w.slots[step.s].core;
                  InTable(w, step.s) && core.current.Some? && !core.closed && core.handles == 0 && core.active == 0)
            && PcOf(w', t) == if step.StartReap? then Reap({})
                              else if step.ReapPick? then ReapVictim(step.s, w.slots[step.s].core.current.value, pc.retired)
                              else if step.ReapEnd? then ReapEach(pc.retired)
                              else if step.ReapNext?
                              then Down(AwaitRevoke, step.item.0, step.item.1.value, NextRetired(pc.retired - {step.item}))
                              else Idle
  {
  }

  lemma EvictionCloses(w: World, t: Tid, seen: bool, w': World)
    requires Takes(w, Stop(t, ReapClose(seen)), w')
    ensures var pc := PcOf(w, t);
            w' == Moved(WithCore(w, pc.s, w.slots[pc.s].core.(closed := true, stopping := true)), t,
                        Reap(pc.retired + {(pc.s, if seen then Some(pc.e) else None)}))
  {
  }

  /** Stop closes every installed slot of the table before anyone else sees the registry stopped. */
  lemma StopClosesAll(w: World, s: SlotId)
    requires Reachable(w) && w.stopped && InTable(w, s) && w.slots[s].core.current.Some?
    requires w.mu.None? || (!PcOf(w, w.mu.value).StopAll? && !PcOf(w, w.mu.value).StopClose?)
    ensures w.slots[s].core.closed
  {
    ReachableInv(w);
    assert SlotOk(w, s);
  }

  lemma StopBegins(w: World, t: Tid, w': World)
    requires Takes(w, Stop(t, StartStop), w')
    ensures w'.stopped && w'.slots == w.slots && w'.entries == w.entries
    ensures if w.stopped then w' == Moved(w, t, StopLoop)
            else w'.mu == Some(t) && PcOf(w', t).StopAll? && PcOf(w', t).todo == set k | k in w.table :: w.table[k]
  {
    if !w.stopped { assert w.table.Values == set k | k in w.table :: w.table[k]; }
  }

  lemma StopVisits(w: World, t: Tid, step: StopStep, w': World)
    requires Takes(w, Stop(t, step), w') && (step.Visit? || step.CloseOne? || step.AllClosed?)
    ensures var pc := PcOf(w, t);
            if step.Visit? then
              w' == Moved(w, t, if w.slots[step.s].core.current.None? then StopAll(pc.todo - {step.s})
                                else StopClose(step.s, pc.todo - {step.s}))
            else if step.CloseOne? then
              w' == Moved(WithCore(w, pc.s, w.slots[pc.s].core.(closed := true, stopping := true)), t, StopAll(pc.todo))
            else pc.todo == {} && w' == Moved(w, t, StopLoop).(mu := None)
  {
  }

  /** Stop tears down every installed entry of the table, scan after scan. */
  lemma StopScans(w: World, t: Tid, s: SlotId, w': World)
    requires Takes(w, Stop(t, Scan), w')
    ensures PcOf(w', t).StopEach? && w' == Moved(w, t, PcOf(w', t))
    ensures InTable(w, s) && w.slots[s].core.current.Some? <==>
              s in w.slots && w.slots[s].core.current.Some? && (s, w.slots[s].core.current) in PcOf(w', t).retired
    ensures forall item <- PcOf(w', t).retired :: InTable(w, item.0) && item.1 == w.slots[item.0].core.current
  {
  }

  lemma StopTearsDown(w: World, t: Tid, step: StopStep, w': World)
    requires Takes(w, Stop(t, step), w') && (step.StopNext? || step.Again? || step.Root?)
    ensures if step.StopNext? then
              w' == Moved(w, t, Down(AwaitRevoke, step.item.0, step.item.1.value, NextStopped(PcOf(w, t).retired - {step.item})))
            else if step.Again? then PcOf(w, t).retired == {} && w' == Moved(w, t, StopLoop)
            else w' == Moved(w, t, Idle).(rootStopped := w.rootStopped || step.complete)
    ensures step.Root? && step.complete ==> forall s <- w.slots :: InTable(w, s) ==> w.slots[s].core.current.None?
  {
  }
}

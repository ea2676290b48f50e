/**
 What StopAccount and Execute do for their callers: which calls are let in,
 which are refused and why, and what they leave behind.
 */
module AccountCalls {
  import opened Options
  import opened Targets
  import opened Slots
  import opened AccountWorld
  import opened AccountSteps
  import opened AccountInvariant
  import opened AccountLocal
  import opened AccountTheorems
  import Fences

  function Moved(w: World, t: Tid, pc: Pc): World { w.(threads := w.threads[t := pc]) }

  function WithCore(w: World, s: SlotId, core: Core): World
    requires s in w.slots
  {
    w.(slots := w.slots[s := w.slots[s].(core := core)])
  }

  function WithEntry(w: World, e: EntryId, entry: Entry): World { w.(entries := w.entries[e := entry]) }

  // ------------------------------------------------------------------------- fences

  /** A record stands at `version` or above. */
  predicate Covered(fences: Fences.Table, key: nat, version: nat) {
    key in fences.records && version <= fences.records[key].version
  }

  lemma BlocksIsCovered(fences: Fences.Table, key: nat, version: nat)
    ensures Fences.Blocks(fences, key, version) <==> Covered(fences, key, version)
  {
  }

  /** The one way to leave no fence: the key is new to a full table of protected records. */
  predicate NoRoomFor(fences: Fences.Table, key: nat) {
    key !in fences.records && |fences.records| >= fences.limit && forall k <- fences.records :: fences.records[k].protected
  }

  lemma RecordCovers(fences: Fences.Table, key: nat, version: nat, protected: bool)
    requires Fences.Valid(fences)
    ensures var (fences', outcome) := Fences.Record(fences, key, version, protected);
            && (Covered(fences', key, version) || NoRoomFor(fences, key))
            && (outcome == Fences.Recorded <==>
                  !NoRoomFor(fences, key) && (key in fences.records ==> fences.records[key].version <= version))
            && (outcome == Fences.Recorded ==>
                  key in fences'.records && fences'.records[key].version == version
                  && (protected ==> fences'.records[key].protected))
            && (outcome != Fences.Recorded ==> fences' == fences)
  {
    Fences.RecordOutcome(fences, key, version, protected);
    if Fences.Record(fences, key, version, protected).1 == Fences.Recorded {
      Fences.RecordEffect(fences, key, version, protected);
    }
  }

  // ---------------------------------------------------------------- which calls begin

  /** Execute takes signing-in and signed-in versions, a revoke takes a disconnecting version that has a predecessor. */
  lemma CallBeginsExactly(w: World, t: Tid, want: Want)
    ensures Can(w, Admission(t, Begin(want))) <==>
              var target := want.target;
              && PcOf(w, t).Idle? && target.key != 0 && target.version != 0
              && if want.ToExecute? then target.status == Authenticating || target.status == Active || target.status == ReauthRequired
                 else target.status == Disconnecting && target.version > 1
    ensures Can(w, Admission(t, Begin(want))) ==> Do(w, Admission(t, Begin(want))) == Moved(w, t, Retry(want))
  {
  }

  /** StopAccount takes every version that is not disconnected. */
  lemma StopBeginsExactly(w: World, t: Tid, target: Target)
    ensures Can(w, Stop(t, StopOne(target))) <==>
              && PcOf(w, t).Idle? && w.mu.None? && target.key != 0 && target.version != 0 && target.status != Disconnected
  {
  }

  // -------------------------------------------------------------------- StopAccount

  /** An account without a slot is fenced at once. */
  lemma StopUnknownAccount(w: World, t: Tid, target: Target, w': World)
    requires Reachable(w) && Takes(w, Stop(t, StopOne(target)), w') && !w.stopped && target.key !in w.table
    ensures PcOf(w', t) == Idle && w'.slots == w.slots && w'.entries == w.entries
    ensures Covered(w'.fences, target.key, target.version) || NoRoomFor(w.fences, target.key)
  {
    ReachableInv(w);
    RecordCovers(w.fences, target.key, target.version, false);
  }

  /** An account with a slot is looked at under the registry mutex; a stopped registry has nothing to do. */
  lemma StopReadsAccount(w: World, t: Tid, target: Target, w': World)
    requires Reachable(w) && Takes(w, Stop(t, StopOne(target)), w') && (w.stopped || target.key in w.table)
    ensures w.stopped ==> w' == Moved(w, t, Idle)
    ensures !w.stopped ==>
              && w.table[target.key] in w.slots
              && w' == Moved(w, t, StopRead(target, w.table[target.key], w.slots[w.table[target.key]].core.current)).(mu := Some(t))
  {
    ReachableInv(w);
  }

  /** An account without an entry is fenced; it has nothing to tear down. */
  lemma StopEmptyAccount(w: World, t: Tid, w': World)
    requires Reachable(w) && Takes(w, Stop(t, StopFence), w') && PcOf(w, t).seen.None?
    ensures var target := PcOf(w, t).target;
            && PcOf(w', t) == Idle && w'.slots == w.slots && w'.entries == w.entries && w'.mu.None?
            && (Covered(w'.fences, target.key, target.version) || NoRoomFor(w.fences, target.key))
  {
    StopReadsItsSlot(w, t);
    RecordCovers(w.fences, PcOf(w, t).target.key, PcOf(w, t).target.version, false);
  }

  /** Another version or status is refused, and nothing changes. */
  lemma StopOtherTarget(w: World, t: Tid, w': World)
    requires Takes(w, Stop(t, StopFence), w') && PcOf(w, t).seen.Some?
    requires w.entries[PcOf(w, t).seen.value].target != PcOf(w, t).target
    ensures w' == Moved(w, t, Idle).(mu := None)
  {
  }

  /** The installed target is fenced and closed, and the caller goes on to tear its entry down. */
  lemma StopInstalledTarget(w: World, t: Tid, w': World)
    requires Reachable(w) && Takes(w, Stop(t, StopFence), w') && PcOf(w, t).seen.Some?
    requires w.entries[PcOf(w, t).seen.value].target == PcOf(w, t).target
    ensures var pc, core := PcOf(w, t), w'.slots[PcOf(w, t).s].core;
            && (Covered(w'.fences, pc.target.key, pc.target.version) || NoRoomFor(w.fences, pc.target.key))
            && (Covered(w'.fences, pc.target.key, pc.target.version) && core.current == pc.seen ==> core.closed)
            && (if NoRoomFor(w.fences, pc.target.key)
                   || Covered(w.fences, pc.target.key, pc.target.version + 1) then PcOf(w', t) == Idle && w'.slots == w.slots
                else
                  && PcOf(w', t) == Down(AwaitRevoke, pc.s, pc.seen.value, EndStopAccount) && core.closed && core.stopping
                  && w'.fences.records[pc.target.key].protected)
  {
    StopInstalledRecords(w, t, w');
    StopInstalledSlot(w, t, w');
  }

  lemma StopInstalledRecords(w: World, t: Tid, w': World)
    requires Reachable(w) && Takes(w, Stop(t, StopFence), w') && PcOf(w, t).seen.Some?
    requires w.entries[PcOf(w, t).seen.value].target == PcOf(w, t).target
    ensures var pc := PcOf(w, t);
            && w.slots[pc.s].core.stopping == w.slots[pc.s].core.closed
            && (Covered(w'.fences, pc.target.key, pc.target.version) || NoRoomFor(w.fences, pc.target.key))
            && (if NoRoomFor(w.fences, pc.target.key) || Covered(w.fences, pc.target.key, pc.target.version + 1)
                then PcOf(w', t) == Idle && w'.slots == w.slots && w'.fences == w.fences
                else
                  && PcOf(w', t) == Down(AwaitRevoke, pc.s, pc.seen.value, EndStopAccount)
                  && pc.target.key in w'.fences.records && w'.fences.records[pc.target.key].protected
                  && w'.slots[pc.s].core.closed && w'.slots[pc.s].core.stopping)
  {
    StopReadsItsSlot(w, t);
    RecordCovers(w.fences, PcOf(w, t).target.key, PcOf(w, t).target.version, true);
  }

  lemma StopInstalledSlot(w: World, t: Tid, w': World)
    requires Reachable(w) && Takes(w, Stop(t, StopFence), w') && PcOf(w, t).seen.Some?
    requires w.entries[PcOf(w, t).seen.value].target == PcOf(w, t).target
    ensures var pc, core := PcOf(w, t), w'.slots[PcOf(w, t).s].core;
            Covered(w'.fences, pc.target.key, pc.target.version) && core.current == pc.seen ==> core.closed
  {
    StopKeepsInv(w, t, w');
    StopReadsItsSlot(w, t);
    StopKeepsEntry(w, t, w');
    if Covered(w'.fences, PcOf(w, t).target.key, PcOf(w, t).target.version) {
      CoveredIsClosed(w', PcOf(w, t).s, PcOf(w, t).seen.value);
    }
  }

  lemma StopKeepsInv(w: World, t: Tid, w': World)
    requires Reachable(w) && Takes(w, Stop(t, StopFence), w')
    ensures Inv(w')
  {
    ReachableInv(w);
    StepKeeps(w, Stop(t, StopFence));
  }

  lemma StopReadsItsSlot(w: World, t: Tid)
    requires Reachable(w) && PcOf(w, t).StopRead?
    ensures var pc := PcOf(w, t);
            && pc.s in w.slots && w.slots[pc.s].key == pc.target.key && Fences.Valid(w.fences)
            && w.slots[pc.s].core.stopping == w.slots[pc.s].core.closed
  {
    ReachableInv(w);
    assert ThreadOk(w, t, PcOf(w, t)) && SlotOk(w, PcOf(w, t).s);
  }

  lemma StopKeepsEntry(w: World, t: Tid, w': World)
    requires Takes(w, Stop(t, StopFence), w') && PcOf(w, t).seen.Some?
    ensures w'.entries == w.entries && PcOf(w, t).s in w'.slots && w'.slots[PcOf(w, t).s].key == w.slots[PcOf(w, t).s].key
  {
  }

  lemma CoveredIsClosed(w: World, s: SlotId, e: EntryId)
    requires Inv(w) && s in w.slots && e in w.entries && Covered(w.fences, w.slots[s].key, w.entries[e].target.version)
    ensures w.slots[s].core.current == Some(e) ==> w.slots[s].core.closed
  {
    assert SlotOk(w, s);
    BlocksIsCovered(w.fences, w.slots[s].key, w.entries[e].target.version);
  }

  // ------------------------------------------------------------------------ Execute

  /** A call gets past its lookup exactly if the registry is open and, for Execute, no record covers its version. */
  lemma LookupExactly(w: World, t: Tid, w': World)
    requires Reachable(w) && Takes(w, Admission(t, Lookup), w')
    ensures var want := PcOf(w, t).want;
            var refused := w.stopped || (want.ToExecute? && Covered(w.fences, want.target.key, want.target.version));
            && (PcOf(w', t) == Idle <==> refused) && (refused ==> w' == Moved(w, t, Idle))
            && (!refused ==>
                  if want.target.key !in w.table then w' == Moved(w, t, NoSlot(want)).(mu := Some(t))
                  else
                    var s := w.table[want.target.key];
                    && s in w.slots
                    && if want.ToRevoke? then
                         w' == Moved(w, t, RevokeWait(want.target, s)).(
                           slots := w.slots[s := w.slots[s].(revokeWaiters := w.slots[s].revokeWaiters + 1)])
                       else
                         w' == Moved(w, t, Admit(want.target, s, w.slots[s].core.current, w.slots[s].core.stopping)).(mu := Some(t)))
  {
    if PcOf(w, t).want.target.key in w.table { TabledSlot(w, PcOf(w, t).want.target.key); }
    BlocksIsCovered(w.fences, PcOf(w, t).want.target.key, PcOf(w, t).want.target.version);
  }

  lemma TabledSlot(w: World, key: nat)
    requires Reachable(w) && key in w.table
    ensures w.table[key] in w.slots
  {
    ReachableInv(w);
  }

  /** So no Execute at or below the fenced version gets past its lookup. */
  lemma FencedExecuteIsRefused(w: World, t: Tid, target: Target, w': World)
    requires Takes(w, Admission(t, Lookup), w') && PcOf(w, t) == Retry(ToExecute(target))
    requires Covered(w.fences, target.key, target.version)
    ensures w' == Moved(w, t, Idle)
  {
    BlocksIsCovered(w.fences, target.key, target.version);
  }

  /** A version that StopAccount was given before the account ever ran is not let in afterwards. */
  lemma StoppedVersionIsRefused(w: World, t: Tid, target: Target, w': World, o: Tid, version: nat, w'': World)
    requires Reachable(w) && Takes(w, Stop(t, StopOne(target)), w') && !w.stopped && target.key !in w.table
    requires !NoRoomFor(w.fences, target.key) && version <= target.version
    requires PcOf(w', o).Retry? && PcOf(w', o).want.ToExecute?
    requires PcOf(w', o).want.target.key == target.key && PcOf(w', o).want.target.version == version
    requires Takes(w', Admission(o, Lookup), w'')
    ensures PcOf(w'', o) == Idle
  {
    StopUnknownAccount(w, t, target, w');
    FencedExecuteIsRefused(w', o, PcOf(w', o).want.target, w'');
  }

  /** A new slot is made exactly while the table has room. */
  lemma SlotMadeExactly(w: World, t: Tid, s: SlotId, w': World)
    requires Takes(w, Admission(t, MakeSlot(s)), w')
    ensures var target := PcOf(w, t).want.target;
            if |w.table| >= w.capacity then w' == Moved(w, t, Idle).(mu := None)
            else
              && w'.table == w.table[target.key := s] && s in w'.slots && w'.slots == w.slots[s := w'.slots[s]]
              && w'.slots[s].key == target.key && w'.slots[s].core == Core(None, false, false, 0, 0, true)
              && w'.slots[s].gate.None? && w'.slots[s].teardownGate.None? && !w'.slots[s].revokeRunning
              && (if PcOf(w, t).want.ToRevoke?
                  then PcOf(w', t) == RevokeWait(target, s) && w'.slots[s].revokeWaiters == 1 && w'.mu.None?
                  else PcOf(w', t) == Admit(target, s, None, false) && w'.slots[s].revokeWaiters == 0)
  {
  }

  /** A full table makes room by closing an idle slot and tearing its entry down. */
  lemma VictimIsIdle(w: World, t: Tid, s: SlotId, w': World)
    requires Takes(w, Admission(t, PickVictim(s)), w')
    ensures var core := w.slots[s].core;
            && |w.table| >= w.capacity && InTable(w, s) && core.current.Some? && !core.closed && core.handles == 0 && core.active == 0
            && w' == Moved(w, t, Victim(PcOf(w, t).want, s, core.current.value))
  {
  }

  lemma VictimIsClosed(w: World, t: Tid, seen: bool, w': World)
    requires Takes(w, Admission(t, CloseVictim(seen)), w')
    ensures var pc := PcOf(w, t);
            && w'.slots[pc.s].core == w.slots[pc.s].core.(closed := true, stopping := true)
            && w'.slots == w.slots[pc.s := w'.slots[pc.s]] && w'.entries == w.entries
            && if seen then PcOf(w', t) == Down(AwaitRevoke, pc.s, pc.e, Readmit(pc.want)) && w'.mu.None?
               else PcOf(w', t) == NoRoom(pc.want) && w'.mu == w.mu
  {
  }

  /** The entry that serves the target, if the slot can serve it at all. */
  predicate Serves(w: World, pc: Pc, stopSeen: bool)
    requires pc.Admit? && pc.s in w.slots && (pc.seen.Some? ==> pc.seen.value in w.entries)
  {
    var core := w.slots[pc.s].core;
    && !stopSeen && !core.closed && !core.stopping && core.current == pc.seen
    && (pc.seen.Some? ==> w.entries[pc.seen.value].target == pc.target)
  }

  predicate Replaces(w: World, pc: Pc)
    requires pc.Admit? && (pc.seen.Some? ==> pc.seen.value in w.entries)
  {
    pc.seen.Some? && w.entries[pc.seen.value].target.version < pc.target.version
  }

  predicate RevokePending(slot: Slot) { slot.revokeRunning || slot.revokeWaiters > 0 }

  lemma AdmitHere(w: World, t: Tid)
    requires Reachable(w) && PcOf(w, t).Admit?
    ensures !w.stopped
  {
    ReachableInv(w);
    assert ThreadOk(w, t, PcOf(w, t));
  }

  /**
   A handle is given out exactly if no revoke runs or waits and the slot is open
   and empty, or open with exactly the target; a newer version closes the older
   entry and tears it down first; every other call is refused and changes nothing.
   */
  lemma AdmitOnEntry(w: World, t: Tid, stopSeen: bool, e: EntryId, b: Tid, w': World)
    requires Takes(w, Admission(t, AdmitStep(stopSeen, e, b)), w') && PcOf(w, t).seen.Some? && !Replaces(w, PcOf(w, t))
    ensures var pc := PcOf(w, t);
            var core := w.slots[pc.s].core;
            w' == if RevokePending(w.slots[pc.s]) || !Serves(w, pc, stopSeen) then Moved(w, t, Idle).(mu := None)
                  else Moved(WithCore(w, pc.s, core.(handles := core.handles + 1)), t,
                             Exec(Opening, pc.target, pc.s, pc.seen.value)).(mu := None)
  {
  }

  lemma AdmitBehindEntry(w: World, t: Tid, stopSeen: bool, e: EntryId, b: Tid, w': World)
    requires Takes(w, Admission(t, AdmitStep(stopSeen, e, b)), w') && PcOf(w, t).Admit? && Replaces(w, PcOf(w, t))
    ensures var pc := PcOf(w, t);
            var core := w.slots[pc.s].core;
            if RevokePending(w.slots[pc.s]) then w' == Moved(w, t, Idle).(mu := None)
            else
              && w'.slots == (if stopSeen then w.slots
                              else w.slots[pc.s := w.slots[pc.s].(core := core.(closed := true, stopping := true))])
              && w'.entries == w.entries && w'.mu.None?
              && PcOf(w', t) == Down(AwaitRevoke, pc.s, pc.seen.value, Readmit(ToExecute(pc.target)))
  {
  }

  lemma AdmitOnEmpty(w: World, t: Tid, stopSeen: bool, e: EntryId, b: Tid, w': World)
    requires Reachable(w) && Takes(w, Admission(t, AdmitStep(stopSeen, e, b)), w') && PcOf(w, t).seen.None?
    ensures var pc := PcOf(w, t);
            var slot := w.slots[pc.s];
            && w'.mu.None? && w'.slots == w.slots[pc.s := w'.slots[pc.s]]
            && if RevokePending(slot) || !Serves(w, pc, stopSeen) then w' == Moved(w, t, Idle).(mu := None)
               else
                 && PcOf(w', t) == Exec(Opening, pc.target, pc.s, e) && PcOf(w', b) == Build(pc.s, e)
                 && w'.slots[pc.s] == slot.(core := slot.core.(current := Some(e), handles := slot.core.handles + 1))
                 && w'.entries == w.entries[e := Entry(pc.s, pc.target, false, false, Success, None, b)]
  {
    AdmitHere(w, t);
    if Serves(w, PcOf(w, t), stopSeen) && !RevokePending(w.slots[PcOf(w, t).s]) { PublishesOnEmpty(w, t, e, b, w'); }
  }

  lemma PublishesOnEmpty(w: World, t: Tid, e: EntryId, b: Tid, w': World)
    requires !w.stopped && Takes(w, Admission(t, AdmitStep(false, e, b)), w') && PcOf(w, t).seen.None?
    requires Serves(w, PcOf(w, t), false) && !RevokePending(w.slots[PcOf(w, t).s])
    ensures var pc := PcOf(w, t);
            var slot := w.slots[pc.s];
            && w'.mu.None? && w'.slots == w.slots[pc.s := w'.slots[pc.s]]
            && PcOf(w', t) == Exec(Opening, pc.target, pc.s, e) && PcOf(w', b) == Build(pc.s, e)
            && w'.slots[pc.s] == slot.(core := slot.core.(current := Some(e), handles := slot.core.handles + 1))
            && w'.entries == w.entries[e := Entry(pc.s, pc.target, false, false, Success, None, b)]
  {
  }

  /** The slot, its entry and the target still agree, and admission is open. */
  predicate StillAdmitted(w: World, pc: Pc)
    requires pc.Exec? && pc.s in w.slots && pc.e in w.entries
  {
    var core, installed := w.slots[pc.s].core, w.entries[pc.e].target;
    && !core.closed && !core.stopping && core.current == Some(pc.e)
    && installed.version == pc.target.version && installed.key == pc.target.key && installed.status == pc.target.status
  }

  /** An operation behind its gate begins exactly if its admission still holds, and is sent away otherwise. */
  lemma OperationBeginsExactly(w: World, t: Tid, w': World)
    requires Takes(w, Execution(t, BeginOp), w')
    ensures var pc := PcOf(w, t);
            var core := w.slots[pc.s].core;
            if StillAdmitted(w, pc)
            then w' == Moved(WithCore(w, pc.s, core.(active := core.active + 1, drained := false)), t, pc.(at := Operating))
            else w' == Moved(w, t, pc.(at := Ungating))
  {
  }

  /** Its callback starts only on the running, free owner of the entry that still admits it. */
  lemma CallbackStartsExactly(w: World, t: Tid)
    ensures Can(w, Execution(t, Call)) <==>
              var pc := PcOf(w, t);
              && pc.Exec? && pc.at == Operating && pc.s in w.slots && pc.e in w.entries && StillAdmitted(w, pc)
              && var owner := w.entries[pc.e].owner;
                 owner.Some? && owner.value.started && !owner.value.completed && owner.value.callback.None?
    ensures Can(w, Execution(t, Call)) ==>
              var pc, entry := PcOf(w, t), w.entries[PcOf(w, t).e];
              Do(w, Execution(t, Call))
              == Moved(WithEntry(w, pc.e, entry.(owner := Some(entry.owner.value.(callback := Some(t))))), t, pc.(at := Calling))
  {
  }

  /** A handle is opened exactly on a built entry whose admission still holds. */
  lemma HandleOpensExactly(w: World, t: Tid)
    ensures Can(w, Execution(t, Open)) <==>
              var pc := PcOf(w, t);
              && pc.Exec? && pc.at == Opening && pc.s in w.slots && pc.e in w.entries && StillAdmitted(w, pc)
              && w.entries[pc.e].built && w.entries[pc.e].buildErr == Success && w.entries[pc.e].owner.Some?
    ensures Can(w, Execution(t, Open)) ==> Do(w, Execution(t, Open)) == Moved(w, t, PcOf(w, t).(at := AtGate))
  {
  }

  /** Where an operation goes after each of its other sections; what these do to the slot, SlotsCount says. */
  function NextAt(step: ExecStep, at: ExecAt): ExecAt {
    match step
    case GiveUp => Closing
    case TakeGate => Beginning
    case Return => Finishing
    case Abandon => Finishing
    case Finish => Sweeping
    case SweepAfter(_) => Ungating
    case GiveGate => Closing
    case Drop => Closed
    case _ => at
  }

  lemma OperationGoesOn(w: World, t: Tid, step: ExecStep, w': World)
    requires Takes(w, Execution(t, step), w') && !step.Open? && !step.BeginOp? && !step.Call?
    ensures PcOf(w', t) == if step.EndExecute? then Idle else PcOf(w, t).(at := NextAt(step, PcOf(w, t).at))
    ensures w'.fences == w.fences && (forall s <- w.slots :: s in w'.slots && w'.slots[s].core.current == w.slots[s].core.current)
    ensures step.Return? ==>
              var e := PcOf(w, t).e; w'.entries == w.entries[e := w.entries[e].(owner := Some(w.entries[e].owner.value.(callback := None)))]
    ensures !step.Return? ==> w'.entries == w.entries
  {
  }

  /** A sweep takes a slot out of the table exactly if nothing refers to it. */
  lemma SweepsExactly(w: World, s: SlotId, step: Step, w': World)
    requires Takes(w, step, w') && s in w.slots && InTable(w, s)
    requires || (step.Execution? && step.execution.SweepAfter? && step.execution.sweep && PcOf(w, step.t).s == s)
             || (step.Execution? && step.execution.EndExecute? && step.execution.sweep && PcOf(w, step.t).s == s)
             || (step.Life? && step.life.SweepRun? && step.life.sweep && PcOf(w, step.t).s == s)
             || (step.Teardown? && step.teardown.Remove? && PcOf(w, step.t).s == s)
             || (step.RevokeTeardown? && step.tear.TRemove? && PcOf(w, step.t).s == s)
    ensures var slot := w.slots[s];
            w'.table == if slot.core.current.None? && slot.core.handles == 0 && slot.core.active == 0 && !slot.core.stopping
                           && !slot.revokeRunning && slot.revokeWaiters == 0
                        then w.table - {slot.key} else w.table
    ensures w'.slots == w.slots
  {
  }
}

/** The steps of StopAccount, evictIdle and Stop keep the invariant. */
module AccountStop {
  import opened Options
  import opened Targets
  import opened Slots
  import opened AccountWorld
  import opened AccountSteps
  import opened AccountInvariant
  import opened AccountRely
  import opened AccountLocal
  import Fences

  // ---------------------------------------------------------------- StopAccount

  lemma FenceOnlyOk(w: World, t: Tid, target: Target, mu: Option<Tid>)
    requires ThreadOk(w, t, PcOf(w, t)) && SlotsFacts(w) && Fences.Valid(w.fences) && MayUseMu(w, t)
    requires HoldsNothing(PcOf(w, t)) && !InStop(PcOf(w, t)) && !Calls(PcOf(w, t))
    requires Tracks(w.mu, mu, HoldsMu(PcOf(w, t)), false, t)
    requires target.key in w.table ==> w.table[target.key] in w.slots && w.slots[w.table[target.key]].core.current.None?
    ensures var fences := Fences.Record(w.fences, target.key, target.version, false).0;
            StepOk(w, Put(w, t, Idle).(mu := mu, fences := fences), t)
  {
    var w' := Put(w, t, Idle).(mu := mu, fences := Fences.Record(w.fences, target.key, target.version, false).0);
    FenceOnlyFences(w, w', t, target);
    FreeThreadOk(w', t, Idle);
    InsideOk(w, w', t, {}, {});
  }

  lemma FenceOnlyFences(w: World, w': World, t: Tid, target: Target)
    requires SlotsFacts(w) && Fences.Valid(w.fences) && MayUseMu(w, t)
    requires w'.fences == Fences.Record(w.fences, target.key, target.version, false).0
    requires w'.slots == w.slots && w'.entries == w.entries
    requires target.key in w.table ==> w.table[target.key] in w.slots && w.slots[w.table[target.key]].core.current.None?
    ensures FencesStep(w, w', t)
  {
    if target.key in w.table {
      RecordedFences(w, w', t, w.table[target.key], target.key, target.version, false);
    } else {
      RecordedNowhere(w, w', t, target.key, target.version);
    }
  }

  lemma RecordedNowhere(w: World, w': World, t: Tid, key: nat, version: nat)
    requires SlotsFacts(w) && Fences.Valid(w.fences) && MayUseMu(w, t) && key !in w.table
    requires w'.fences == Fences.Record(w.fences, key, version, false).0 && w'.slots == w.slots && w'.entries == w.entries
    ensures FencesStep(w, w', t)
  {
    Fences.RecordKeepsValid(w.fences, key, version, false);
    Fences.RecordOutcome(w.fences, key, version, false);
    if Fences.Record(w.fences, key, version, false).1 == Fences.Recorded {
      Fences.RecordEffect(w.fences, key, version, false);
    }
  }

  lemma StopAccountOk(w: World, t: Tid, target: Target)
    requires Here(w, t) && TableOk(w) && SlotsFacts(w) && Fences.Valid(w.fences) && CanStopAccount(w, t, target)
    requires forall s <- w.slots :: SlotOk(w, s)
    ensures StepOk(w, DoStopAccount(w, t, target), t)
  {
    if w.stopped {
      FreeMoveOk(w, t, Idle);
    } else if target.key !in w.table {
      FenceOnlyOk(w, t, target, w.mu);
    } else {
      var s := w.table[target.key];
      StopReadOk(w, t, target, s);
    }
  }

  lemma StopReadOk(w: World, t: Tid, target: Target, s: SlotId)
    requires Here(w, t) && InTable(w, s) && w.slots[s].key == target.key && CanStopAccount(w, t, target) && !w.stopped
    requires w.slots[s].core.current.Some? ==>
          w.slots[s].core.current.value in w.entries && w.entries[w.slots[s].core.current.value].slot == s
    ensures StepOk(w, Lock(w, t, StopRead(target, s, w.slots[s].core.current)), t)
  {
    SectionOfOk(w, t, StopRead(target, s, w.slots[s].core.current));
  }

  lemma StopInstalledOk(w: World, t: Tid, e: EntryId)
    requires Here(w, t) && SlotsFacts(w) && Fences.Valid(w.fences) && CanStopFence(w, t) && PcOf(w, t).seen == Some(e)
    requires w.entries[e].target == PcOf(w, t).target
    requires Fences.Record(w.fences, PcOf(w, t).target.key, PcOf(w, t).target.version, true).1 == Fences.Recorded
    ensures StepOk(w, DoStopFence(w, t), t)
  {
    var core := w.slots[PcOf(w, t).s].core;
    var closed := if core.stopping then core else CloseAdmission(core);
    var pc' := Down(AwaitRevoke, PcOf(w, t).s, e, EndStopAccount);
    StopInstalledIs(w, t, e, pc', closed);
    StopInstalledHere(w, t);
    StopInstalledThread(w, t, e, pc', closed);
    FenceAndCloseOk(w, t, pc', closed);
  }

  lemma StopInstalledHere(w: World, t: Tid)
    requires Here(w, t) && PcOf(w, t).StopRead?
    ensures var pc := PcOf(w, t);
            && InTable(w, pc.s) && w.slots[pc.s].key == pc.target.key && ThreadOk(w, t, pc)
            && (w.slots[pc.s].core.stopping ==> w.slots[pc.s].core.closed)
  {
  }

  lemma StopInstalledIs(w: World, t: Tid, e: EntryId, pc': Pc, core: Core)
    requires CanStopFence(w, t) && PcOf(w, t).seen == Some(e) && w.entries[e].target == PcOf(w, t).target
    requires Fences.Record(w.fences, PcOf(w, t).target.key, PcOf(w, t).target.version, true).1 == Fences.Recorded
    requires pc' == Down(AwaitRevoke, PcOf(w, t).s, e, EndStopAccount)
    requires var open := w.slots[PcOf(w, t).s].core; core == if open.stopping then open else CloseAdmission(open)
    ensures DoStopFence(w, t) == FencedClosed(w, t, pc', core)
  {
  }

  lemma StopInstalledThread(w: World, t: Tid, e: EntryId, pc': Pc, core: Core)
    requires ThreadOk(w, t, PcOf(w, t)) && PcOf(w, t).StopRead? && PcOf(w, t).seen == Some(e) && core.closed
    requires pc' == Down(AwaitRevoke, PcOf(w, t).s, e, EndStopAccount)
    ensures ThreadOk(FencedClosed(w, t, pc', core), t, pc')
  {
  }

  lemma StopAbsentOk(w: World, t: Tid)
    requires Here(w, t) && SlotsFacts(w) && Fences.Valid(w.fences) && CanStopFence(w, t) && PcOf(w, t).seen.None?
    ensures StepOk(w, DoStopFence(w, t), t)
  {
    StopInstalledHere(w, t);
    FenceOnlyOk(w, t, PcOf(w, t).target, None);
  }

  /** The fence and the closed admission appear in one section. */
  lemma StopFenceOk(w: World, t: Tid)
    requires Here(w, t) && SlotsFacts(w) && Fences.Valid(w.fences) && CanStopFence(w, t)
    ensures StepOk(w, DoStopFence(w, t), t)
  {
    var target := PcOf(w, t).target;
    match PcOf(w, t).seen
    case None => StopAbsentOk(w, t);
    case Some(e) =>
      if w.entries[e].target == target && Fences.Record(w.fences, target.key, target.version, true).1 == Fences.Recorded {
        StopInstalledOk(w, t, e);
      } else {
        LeaveSectionOk(w, t, Idle);
      }
  }

  // ------------------------------------------------------------------ evictIdle

  lemma ReapOk(w: World, t: Tid)
    requires Here(w, t) && CanReap(w, t)
    ensures StepOk(w, DoReap(w, t), t)
  {
    SectionOfOk(w, t, Reap({}));
  }

  lemma ReapPickOk(w: World, t: Tid, s: SlotId)
    requires Here(w, t) && CanReapPick(w, t, s) && SlotOk(w, s)
    ensures StepOk(w, DoReapPick(w, t, s), t)
  {
    SectionOfOk(w, t, ReapVictim(s, w.slots[s].core.current.value, PcOf(w, t).retired));
    assert Put(w, t, ReapVictim(s, w.slots[s].core.current.value, PcOf(w, t).retired)).mu == Some(t);
  }

  lemma ReapClosePending(w: World, t: Tid, seen: bool)
    requires Here(w, t) && CanReapClose(w, t, seen)
    ensures PendingOk(DoReapClose(w, t, seen), PcOf(DoReapClose(w, t, seen), t))
  {
  }

  lemma ReapCloseSlot(w: World, t: Tid, seen: bool)
    requires Here(w, t) && CanReapClose(w, t, seen)
    ensures var w', s := DoReapClose(w, t, seen), PcOf(w, t).s;
            SlotStep(w, w', t, s) && OutStep(w, w', s) && FenceStep(w, w', s) && StopStepOk(w, w', s)
  {
  }

  lemma ReapCloseOk(w: World, t: Tid, seen: bool)
    requires Here(w, t) && CanReapClose(w, t, seen)
    ensures StepOk(w, DoReapClose(w, t, seen), t)
  {
    ReapClosePending(w, t, seen);
    ReapCloseSlot(w, t, seen);
    SectionThreadOk(DoReapClose(w, t, seen), t, PcOf(DoReapClose(w, t, seen), t));
    InsideOk(w, DoReapClose(w, t, seen), t, {PcOf(w, t).s}, {});
  }

  lemma ReapEndOk(w: World, t: Tid)
    requires Here(w, t) && CanReapEnd(w, t)
    ensures StepOk(w, DoReapEnd(w, t), t)
  {
    LeaveSectionOk(w, t, ReapEach(PcOf(w, t).retired));
  }

  /** The next teardown of a list begins. */
  lemma DescendOk(w: World, t: Tid, pc': Pc)
    requires ThreadOk(w, t, PcOf(w, t)) && (PcOf(w, t).ReapEach? || PcOf(w, t).StopEach?)
    requires pc'.Down? && pc'.down.AwaitRevoke? && StopsOk(w, pc') && RefsOk(w, pc') && DownOk(w, pc')
    requires Pending(pc') <= Pending(PcOf(w, t))
    ensures StepOk(w, Put(w, t, pc'), t)
  {
    DownThreadOk(Put(w, t, pc'), t, pc');
    LockMoveOk(w, t, pc', w.mu);
  }

  lemma ReapNextOk(w: World, t: Tid, item: (SlotId, Option<EntryId>))
    requires Here(w, t) && CanReapNext(w, t, item)
    ensures StepOk(w, DoReapNext(w, t, item), t)
  {
    assert item in Pending(PcOf(w, t));
    var pc' := DoReapNext(w, t, item).threads[t];
    assert Pending(pc') <= Pending(PcOf(w, t));
    if item.1.Some? { DescendOk(w, t, pc'); } else { FreeMoveOk(w, t, pc'); }
  }

  // ----------------------------------------------------------------------- Stop

  lemma StopNextOk(w: World, t: Tid, item: (SlotId, Option<EntryId>))
    requires Here(w, t) && CanStopNext(w, t, item)
    ensures StepOk(w, DoStopNext(w, t, item), t)
  {
    assert item in Pending(PcOf(w, t));
    DescendOk(w, t, DoStopNext(w, t, item).threads[t]);
  }

  /** A step of the stopping section, which alone decides what is still to be closed. */
  lemma StoppingOk(w: World, w': World, t: Tid, ss: set<SlotId>)
    requires ThreadOk(w, t, PcOf(w, t)) && Inside(w, w', t, ss, {}) && w'.fences == w.fences
    requires InStop(PcOf(w, t)) && HoldsNothing(PcOf(w', t)) && !Calls(PcOf(w', t))
    requires Tracks(w.mu, w'.mu, true, HoldsMu(PcOf(w', t)), t) && ThreadOk(w', t, PcOf(w', t))
    requires forall s <- ss :: SlotStep(w, w', t, s) && OutStep(w, w', s) && FenceStep(w, w', s)
    requires forall s <- w.slots :: StopStepOk(w, w', s)
    ensures StepOk(w, w', t)
  {
    forall s <- w.slots ensures SlotStep(w, w', t, s) && OutStep(w, w', s) && FenceStep(w, w', s) {
      if s !in ss { QuietSlot(w, w', t, s); }
    }
    forall e <- w.entries ensures EntryStep(w, w', t, e) { QuietEntry(w, w', t, e); }
  }

  lemma VisitOk(w: World, t: Tid, s: SlotId)
    requires Here(w, t) && CanStopVisit(w, t, s)
    ensures StepOk(w, DoStopVisit(w, t, s), t)
  {
    StoppingOk(w, DoStopVisit(w, t, s), t, {});
  }

  lemma CloseOneSlot(w: World, t: Tid)
    requires Here(w, t) && CanStopClose(w, t)
    ensures var w', s := DoStopClose(w, t), PcOf(w, t).s;
            && SlotStep(w, w', t, s) && OutStep(w, w', s) && FenceStep(w, w', s)
            && forall r <- w.slots :: StopStepOk(w, w', r)
  {
  }

  lemma CloseOneOk(w: World, t: Tid)
    requires Here(w, t) && CanStopClose(w, t)
    ensures StepOk(w, DoStopClose(w, t), t)
  {
    CloseOneSlot(w, t);
    SectionThreadOk(DoStopClose(w, t), t, PcOf(DoStopClose(w, t), t));
    StoppingOk(w, DoStopClose(w, t), t, {PcOf(w, t).s});
  }

  lemma AllClosedOk(w: World, t: Tid)
    requires Here(w, t) && CanStopClosed(w, t)
    ensures StepOk(w, DoStopClosed(w, t), t)
  {
    StoppingOk(w, DoStopClosed(w, t), t, {});
  }

  lemma StartStopSlots(w: World, t: Tid)
    requires ThreadOk(w, t, PcOf(w, t)) && TableOk(w) && CanStop(w, t) && !w.stopped
    ensures var w' := DoStop(w, t);
            forall s <- w.slots :: SlotStep(w, w', t, s) && OutStep(w, w', s) && FenceStep(w, w', s) && StopStepOk(w, w', s)
  {
    var w' := DoStop(w, t);
    forall s <- w.slots
      ensures SlotStep(w, w', t, s) && OutStep(w, w', s) && FenceStep(w, w', s) && StopStepOk(w, w', s)
    {
      QuietSlot(w, w', t, s);
    }
  }

  lemma StartStopOk(w: World, t: Tid)
    requires Here(w, t) && TableOk(w) && CanStop(w, t)
    ensures StepOk(w, DoStop(w, t), t)
  {
    if w.stopped {
      FreeMoveOk(w, t, StopLoop);
    } else {
      var w' := DoStop(w, t);
      StartStopSlots(w, t);
      SectionThreadOk(w', t, PcOf(w', t));
      forall e <- w.entries ensures EntryStep(w, w', t, e) { QuietEntry(w, w', t, e); }
    }
  }

  /** stopEntries only finds entries whose admission is closed. */
  lemma ScanOk(w: World, t: Tid)
    requires Here(w, t) && CanStopScan(w, t) && w.stopped
    requires forall s <- w.slots :: SlotOk(w, s)
    ensures StepOk(w, DoStopScan(w, t), t)
  {
    var w' := DoStopScan(w, t);
    assert ToClose(w) == {};
    forall item <- Pending(PcOf(w', t))
      ensures item.0 in w'.slots
      ensures item.1.Some? ==>
            && item.1.value in w'.entries && w'.entries[item.1.value].slot == item.0
            && (w'.slots[item.0].core.current == item.1 ==> w'.slots[item.0].core.closed)
    {
      assert SlotOk(w, item.0);
    }
    FreeMoveOk(w, t, PcOf(w', t));
  }

  lemma RootOk(w: World, t: Tid, complete: bool)
    requires Here(w, t) && CanStopRoot(w, t, complete) && w.stopped
    ensures StepOk(w, DoStopRoot(w, t, complete), t)
  {
    var w' := DoStopRoot(w, t, complete);
    forall s <- w.slots
      ensures SlotStep(w, w', t, s) && OutStep(w, w', s) && FenceStep(w, w', s) && StopStepOk(w, w', s)
    {
      QuietSlot(w, w', t, s);
    }
    forall e <- w.entries ensures EntryStep(w, w', t, e) { QuietEntry(w, w', t, e); }
  }

  predicate Closes(step: StopStep) { step.StartStop? || step.Visit? || step.CloseOne? || step.AllClosed? }

  predicate Stops(step: StopStep) { step.Scan? || step.StopNext? || step.Again? || step.Root? }

  lemma StopStepsOk(w: World, t: Tid, step: StopStep)
    requires Here(w, t) && TableOk(w) && SlotsFacts(w) && Fences.Valid(w.fences) && CanStopStep(w, t, step)
    requires forall s <- w.slots :: SlotOk(w, s)
    ensures StepOk(w, DoStopStep(w, t, step), t)
  {
    if Closes(step) { ClosingOk(w, t, step); } else if Stops(step) { ShutdownOk(w, t, step); } else { StopOrReapOk(w, t, step); }
  }

  lemma StopOrReapOk(w: World, t: Tid, step: StopStep)
    requires Here(w, t) && TableOk(w) && SlotsFacts(w) && Fences.Valid(w.fences) && CanStopStep(w, t, step)
    requires !Stops(step) && !Closes(step) && forall s <- w.slots :: SlotOk(w, s)
    ensures StepOk(w, DoStopStep(w, t, step), t)
  {
    match step
    case StopOne(target) => StopAccountOk(w, t, target);
    case StopFence => StopFenceOk(w, t);
    case StartReap => ReapOk(w, t);
    case ReapPick(s) => ReapPickOk(w, t, s);
    case ReapClose(seen) => ReapCloseOk(w, t, seen);
    case ReapEnd => ReapEndOk(w, t);
    case ReapNext(item) => ReapNextOk(w, t, item);
    case ReapDone => FreeMoveOk(w, t, Idle);
  }

  lemma ShutdownOk(w: World, t: Tid, step: StopStep)
    requires Here(w, t) && TableOk(w) && CanStopStep(w, t, step)
    requires Stops(step) && forall s <- w.slots :: SlotOk(w, s)
    ensures StepOk(w, DoStopStep(w, t, step), t)
  {
    match step
    case Scan => ScanOk(w, t);
    case StopNext(item) => StopNextOk(w, t, item);
    case Again => FreeMoveOk(w, t, StopLoop);
    case Root(complete) => RootOk(w, t, complete);
  }

  lemma ClosingOk(w: World, t: Tid, step: StopStep)
    requires Here(w, t) && TableOk(w) && CanStopStep(w, t, step)
    requires Closes(step) && forall s <- w.slots :: SlotOk(w, s)
    ensures StepOk(w, DoStopStep(w, t, step), t)
  {
    match step
    case StartStop => StartStopOk(w, t);
    case Visit(s) => VisitOk(w, t, s);
    case CloseOne => CloseOneOk(w, t);
    case AllClosed => AllClosedOk(w, t);
  }
}

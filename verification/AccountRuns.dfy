/** Two runs that show where the account owner registry falls short of its promises. */
module AccountRuns {
  import opened Options
  import opened Targets
  import opened Slots
  import opened AccountWorld
  import opened AccountSteps
  import opened AccountTheorems
  import opened Traces
  import Fences

  lemma Then(w0: World, steps: seq<Step>, w: World, step: Step) returns (steps': seq<Step>, w': World)
    requires Leads(Takes, w0, steps, w) && Can(w, step)
    ensures w' == Do(w, step) && Leads(Takes, w0, steps', w')
  {
    steps', w' := steps + [step], Do(w, step);
    Extend(Takes, w0, steps, w, step, w');
  }

  // ------------------------------------------------ a revoke that gives up on its owner

  const OLD := Target(1, 2, Disconnecting)
  const NEW := Target(1, 3, Active)

  const OPENED := Core(None, false, false, 0, 0, true)
  const SHUT := Core(Some(0), true, true, 0, 0, true)
  const FENCE := Fences.Table(map[1 := Fences.Fence(2, 1, true)], 1, 1)
  const UNFENCED := Fences.Table(map[1 := Fences.Fence(2, 1, false)], 1, 1)

  function Private(owner: Option<Owner>): map<EntryId, Entry> {
    map[0 := Entry(0, OLD, true, owner.Some?, Success, owner, 2)]
  }

  /** Goroutine 1 revokes account 1 through the private entry that goroutine 2 runs. */
  function Revoking(mu: Option<Tid>, core: Core, entries: map<EntryId, Entry>, fences: Fences.Table, threads: map<Tid, Pc>,
                    masked: set<EntryId>): World {
    World(1, mu, false, false, map[1 := 0], map[0 := Slot(1, core, None, Some(1), true, 0)], entries, fences, threads, masked)
  }

  const LIVE := Owner(true, false, false, Success, None)
  const HALTED := Owner(true, true, false, Success, None)

  const APPROACHING := World(1, Some(1), false, false, map[], map[], map[], Fences.Table(map[], 0, 1),
                             map[1 := NoRoom(ToRevoke(OLD))], {})
  const ARRIVED := World(1, None, false, false, map[1 := 0], map[0 := Slot(1, OPENED, None, None, false, 1)], map[],
                         Fences.Table(map[], 0, 1), map[1 := RevokeWait(OLD, 0)], {})
  const READING := Revoking(Some(1), OPENED, map[], Fences.Table(map[], 0, 1), map[1 := RevokeRead(OLD, 0, None)], {})
  const DRAINING := Revoking(None, SHUT, Private(None), FENCE,
                             map[1 := Revoke(Draining, OLD, 0, 0, false), 2 := Build(0, 0)], {})
  const BUILT := Revoking(None, SHUT, Private(Some(NEW_OWNER)), FENCE,
                        map[1 := Revoke(Draining, OLD, 0, 0, false), 2 := RunReady(0, 0)], {})
  const STARTED := Revoking(None, SHUT, Private(Some(LIVE)), FENCE,
                        map[1 := Revoke(Draining, OLD, 0, 0, false), 2 := Running(0, 0)], {})
  const READY := Revoking(None, SHUT, Private(Some(LIVE)), FENCE,
                        map[1 := Revoke(Ready, OLD, 0, 0, false), 2 := Running(0, 0)], {})
  const CALLING := Revoking(None, SHUT, Private(Some(LIVE.(callback := Some(1)))), FENCE,
                        map[1 := Revoke(Privileged, OLD, 0, 0, false), 2 := Running(0, 0)], {})
  const FAILED := Revoking(None, SHUT, Private(Some(LIVE)), FENCE,
                        map[1 := Revoke(TearBuilt(DeadlineExceeded), OLD, 0, 0, false), 2 := Running(0, 0)], {})
  const TEARING := Revoking(None, SHUT, Private(Some(LIVE)), FENCE,
                        map[1 := Revoke(TearDrain(DeadlineExceeded, true), OLD, 0, 0, false), 2 := Running(0, 0)], {})
  const DRAINED := Revoking(None, SHUT, Private(Some(LIVE)), FENCE,
                        map[1 := Revoke(TearStop(DeadlineExceeded, true), OLD, 0, 0, false), 2 := Running(0, 0)], {})
  const JOINING := Revoking(None, SHUT, Private(Some(HALTED)), FENCE,
                        map[1 := Revoke(TearJoin(DeadlineExceeded, true), OLD, 0, 0, false), 2 := Running(0, 0)], {})
  const MASKED := Revoking(None, SHUT, Private(Some(HALTED)), FENCE,
                        map[1 := Revoke(TearUninstall, OLD, 0, 0, false), 2 := Running(0, 0)], {0})
  const UNJOINED := Revoking(None, OPENED, Private(Some(HALTED)), FENCE,
                        map[1 := Revoke(TearUnprotect, OLD, 0, 0, false), 2 := Running(0, 0)], {0})
  const UNPROTECTED := Revoking(None, OPENED, Private(Some(HALTED)), UNFENCED,
                        map[1 := Revoke(TearRemove, OLD, 0, 0, false), 2 := Running(0, 0)], {0})
  const FORGOTTEN := Revoking(None, OPENED, Private(Some(HALTED)), UNFENCED,
                        map[1 := Revoke(TearFence, OLD, 0, 0, false), 2 := Running(0, 0)], {0})
  const TORN := Revoking(None, OPENED, Private(Some(HALTED)), UNFENCED,
                        map[1 := Revoke(TearDone, OLD, 0, 0, false), 2 := Running(0, 0)], {0})
  const LEAVING := Revoking(None, OPENED, Private(Some(HALTED)), UNFENCED,
                        map[1 := RevokeLeave(OLD, 0, true), 2 := Running(0, 0)], {0})

  const LEFT := Slot(1, OPENED, None, None, false, 0)

  /** The account is out of the table; goroutine 2 still runs its old owner. */
  function Departed(mu: Option<Tid>, slot: Slot, threads: map<Tid, Pc>): World {
    World(1, mu, false, false, map[], map[0 := slot], Private(Some(HALTED)), UNFENCED, threads, {0})
  }

  const OPENED_UP := Departed(None, LEFT.(teardownGate := Some(1)), map[1 := RevokeUngate(0), 2 := Running(0, 0)])
  const GONE := Departed(None, LEFT, map[1 := Idle, 2 := Running(0, 0)])
  const BEGUN := Departed(None, LEFT, map[1 := Idle, 2 := Running(0, 0), 3 := Retry(ToExecute(NEW))])
  const LOOKED := Departed(Some(3), LEFT, map[1 := Idle, 2 := Running(0, 0), 3 := NoSlot(ToExecute(NEW))])
  const ARRIVING := Departed(Some(3), LEFT, map[1 := Idle, 2 := Running(0, 0), 3 := NoRoom(ToExecute(NEW))])
  const SLOTTED := World(1, Some(3), false, false, map[1 := 1], map[0 := LEFT, 1 := Slot(1, EMPTY, None, None, false, 0)],
                         Private(Some(HALTED)), UNFENCED,
                         map[1 := Idle, 2 := Running(0, 0), 3 := Admit(NEW, 1, None, false)], {0})

  /** The next version moves in while goroutine 2 still runs the old owner. */
  function Newcomer(owner: Option<Owner>, four: Pc): World {
    World(1, None, false, false, map[1 := 1],
          map[0 := LEFT, 1 := Slot(1, Core(Some(1), false, false, 1, 0, true), None, None, false, 0)],
          map[0 := Entry(0, OLD, true, true, Success, Some(HALTED), 2),
              1 := Entry(1, NEW, false, owner.Some?, Success, owner, 4)], UNFENCED,
          map[1 := Idle, 2 := Running(0, 0), 3 := Exec(Opening, NEW, 1, 1), 4 := four], {0})
  }

  const INSTALLED := Newcomer(None, Build(1, 1))
  const NEW_BUILT := Newcomer(Some(NEW_OWNER), RunReady(1, 1))
  const TWO_OWNERS := Newcomer(Some(LIVE), Running(1, 1))

  lemma RevokeSeeks() returns (steps: seq<Step>)
    ensures Leads(Takes, Initial(1), steps, APPROACHING)
  {
    var w := Initial(1);
    steps, w := Then(Initial(1), [], w, Admission(1, Begin(ToRevoke(OLD))));
    steps, w := Then(Initial(1), steps, w, Admission(1, Lookup));
    steps, w := Then(Initial(1), steps, w, Admission(1, PickNone));
    assert w == APPROACHING;
  }

  lemma RevokeArrives() returns (steps: seq<Step>)
    ensures Leads(Takes, Initial(1), steps, ARRIVED)
  {
    steps := RevokeSeeks();
    RevokeMakesSlot();
    steps := More(Takes, Initial(1), steps, APPROACHING, Admission(1, MakeSlot(0)), ARRIVED);
  }

  lemma RevokeMakesSlot()
    ensures Takes(APPROACHING, Admission(1, MakeSlot(0)), ARRIVED)
  {
  }

  lemma RevokeReads() returns (steps: seq<Step>)
    ensures Leads(Takes, ARRIVED, steps, READING)
  {
    var w := ARRIVED;
    steps, w := Then(ARRIVED, [], w, Revocation(1, RevokeGate));
    steps, w := Then(ARRIVED, steps, w, Revocation(1, Enter));
    steps, w := Then(ARRIVED, steps, w, Revocation(1, Read));
    assert w == READING;
  }

  lemma RevokeFences() returns (steps: seq<Step>)
    ensures Leads(Takes, READING, steps, DRAINING)
  {
    var w := READING;
    steps, w := Then(READING, [], w, Revocation(1, Prepare(0, 2)));
    assert w == DRAINING;
  }

  lemma UnfencedStays()
    ensures Fences.Trimmed(Fences.Unprotected(FENCE, 1, 2)) == UNFENCED == Fences.Trimmed(Fences.Unprotected(UNFENCED, 1, 2))
  {
  }

  lemma EntryBuilt()
    ensures Takes(DRAINING, Life(2, Built(Success)), BUILT)
  {
  }

  lemma OwnerStarts()
    ensures Takes(BUILT, Life(2, Run), STARTED)
  {
  }

  lemma RevokeDrains()
    ensures Takes(STARTED, Revocation(1, RevokeDrained), READY)
  {
  }

  lemma RevokeCalls()
    ensures Takes(READY, Revocation(1, CallPrivileged), CALLING)
  {
  }

  /** The callback fails because its deadline passed. */
  lemma CallbackFails()
    ensures Takes(CALLING, Revocation(1, ReturnPrivileged(DeadlineExceeded)), FAILED)
  {
  }

  lemma RevokeKnowsBuild()
    ensures Takes(FAILED, RevokeTeardown(1, TBuilt(DeadlineExceeded, false)), TEARING)
  {
  }

  lemma RevokeWaitsDrained()
    ensures Takes(TEARING, RevokeTeardown(1, TDrain(DeadlineExceeded, true, false)), DRAINED)
  {
  }

  lemma RevokeStopsOwner()
    ensures Takes(DRAINED, RevokeTeardown(1, TStop(DeadlineExceeded, true)), JOINING)
  {
  }

  /** So the expired wait for Run counts as a join. */
  lemma RevokeForgives()
    ensures Takes(JOINING, RevokeTeardown(1, TJoin(DeadlineExceeded, true, true)), MASKED)
  {
    RevokeMayForgive();
    RevokeForgiving();
  }

  lemma RevokeMayForgive()
    ensures CanTearJoin(JOINING, 1, DeadlineExceeded, true, true)
  {
  }

  lemma RevokeForgiving()
    requires CanTearJoin(JOINING, 1, DeadlineExceeded, true, true)
    ensures DoTearJoin(JOINING, 1, DeadlineExceeded, true, true) == MASKED
  {
  }

  lemma RevokeUninstalls()
    ensures Takes(MASKED, RevokeTeardown(1, TUninstall), UNJOINED)
  {
  }

  lemma RevokeUnprotects()
    ensures Takes(UNJOINED, RevokeTeardown(1, TUnprotect), UNPROTECTED)
  {
    UnfencedStays();
  }

  lemma RevokeSweeps()
    ensures Takes(UNPROTECTED, RevokeTeardown(1, TRemove), FORGOTTEN)
  {
  }

  lemma RevokeUnfences()
    ensures Takes(FORGOTTEN, RevokeTeardown(1, TFence), TORN)
  {
  }

  lemma RevokeIsDone()
    ensures Takes(TORN, RevokeTeardown(1, TDone), LEAVING)
  {
  }

  lemma RevokeLeaves()
    ensures Takes(LEAVING, Revocation(1, Leave), OPENED_UP)
  {
  }

  lemma RevokeGivesGate()
    ensures Takes(OPENED_UP, Revocation(1, Ungate), GONE)
  {
  }

  /** A newer version of the account is admitted. */
  lemma NewcomerBegins()
    ensures Takes(GONE, Admission(3, Begin(ToExecute(NEW))), BEGUN)
  {
  }

  lemma NewcomerLooks()
    ensures Takes(BEGUN, Admission(3, Lookup), LOOKED)
  {
  }

  lemma NewcomerFindsRoom()
    ensures Takes(LOOKED, Admission(3, PickNone), ARRIVING)
  {
  }

  lemma NewcomerMakesSlot()
    ensures Takes(ARRIVING, Admission(3, MakeSlot(1)), SLOTTED)
  {
  }

  lemma NewcomerMayEnter()
    ensures CanAdmit(SLOTTED, 3, false, 1, 4)
  {
  }

  lemma NewcomerEnters()
    ensures Takes(SLOTTED, Admission(3, AdmitStep(false, 1, 4)), INSTALLED)
  {
    NewcomerMayEnter();
    var slots := SLOTTED.slots;
    assert slots[1 := INSTALLED.slots[1]] == INSTALLED.slots;
  }

  lemma NewcomerBuilt()
    ensures Takes(INSTALLED, Life(4, Built(Success)), NEW_BUILT)
  {
  }

  lemma NewcomerRuns()
    ensures Takes(NEW_BUILT, Life(4, Run), TWO_OWNERS)
  {
  }

  lemma More(next: (World, Step, World) -> bool, w0: World, steps: seq<Step>, w: World, step: Step, w': World)
    returns (more: seq<Step>)
    requires Leads(next, w0, steps, w) && next(w, step, w')
    ensures Leads(next, w0, more, w')
  {
    more := steps + [step];
    Extend(next, w0, steps, w, step, w');
  }

  lemma RevokeFails() returns (steps: seq<Step>)
    ensures Leads(Takes, DRAINING, steps, FAILED)
  {
    steps := [];
    EntryBuilt();
    steps := More(Takes, DRAINING, steps, DRAINING, Life(2, Built(Success)), BUILT);
    OwnerStarts();
    steps := More(Takes, DRAINING, steps, BUILT, Life(2, Run), STARTED);
    RevokeDrains();
    steps := More(Takes, DRAINING, steps, STARTED, Revocation(1, RevokeDrained), READY);
    RevokeCalls();
    steps := More(Takes, DRAINING, steps, READY, Revocation(1, CallPrivileged), CALLING);
    CallbackFails();
    steps := More(Takes, DRAINING, steps, CALLING, Revocation(1, ReturnPrivileged(DeadlineExceeded)), FAILED);
  }

  lemma RevokeTears() returns (steps: seq<Step>)
    ensures Leads(Takes, FAILED, steps, UNPROTECTED)
  {
    steps := [];
    RevokeKnowsBuild();
    steps := More(Takes, FAILED, steps, FAILED, RevokeTeardown(1, TBuilt(DeadlineExceeded, false)), TEARING);
    RevokeWaitsDrained();
    steps := More(Takes, FAILED, steps, TEARING, RevokeTeardown(1, TDrain(DeadlineExceeded, true, false)), DRAINED);
    RevokeStopsOwner();
    steps := More(Takes, FAILED, steps, DRAINED, RevokeTeardown(1, TStop(DeadlineExceeded, true)), JOINING);
    RevokeForgives();
    steps := More(Takes, FAILED, steps, JOINING, RevokeTeardown(1, TJoin(DeadlineExceeded, true, true)), MASKED);
    RevokeUninstalls();
    steps := More(Takes, FAILED, steps, MASKED, RevokeTeardown(1, TUninstall), UNJOINED);
    RevokeUnprotects();
    steps := More(Takes, FAILED, steps, UNJOINED, RevokeTeardown(1, TUnprotect), UNPROTECTED);
  }

  lemma RevokeGoes() returns (steps: seq<Step>)
    ensures Leads(Takes, UNPROTECTED, steps, GONE)
  {
    steps := [];
    RevokeSweeps();
    steps := More(Takes, UNPROTECTED, steps, UNPROTECTED, RevokeTeardown(1, TRemove), FORGOTTEN);
    RevokeUnfences();
    steps := More(Takes, UNPROTECTED, steps, FORGOTTEN, RevokeTeardown(1, TFence), TORN);
    RevokeIsDone();
    steps := More(Takes, UNPROTECTED, steps, TORN, RevokeTeardown(1, TDone), LEAVING);
    RevokeLeaves();
    steps := More(Takes, UNPROTECTED, steps, LEAVING, Revocation(1, Leave), OPENED_UP);
    RevokeGivesGate();
    steps := More(Takes, UNPROTECTED, steps, OPENED_UP, Revocation(1, Ungate), GONE);
  }

  lemma NewcomerComes() returns (steps: seq<Step>)
    ensures Leads(Takes, GONE, steps, TWO_OWNERS)
  {
    steps := [];
    NewcomerBegins();
    steps := More(Takes, GONE, steps, GONE, Admission(3, Begin(ToExecute(NEW))), BEGUN);
    NewcomerLooks();
    steps := More(Takes, GONE, steps, BEGUN, Admission(3, Lookup), LOOKED);
    NewcomerFindsRoom();
    steps := More(Takes, GONE, steps, LOOKED, Admission(3, PickNone), ARRIVING);
    NewcomerMakesSlot();
    steps := More(Takes, GONE, steps, ARRIVING, Admission(3, MakeSlot(1)), SLOTTED);
    NewcomerEnters();
    steps := More(Takes, GONE, steps, SLOTTED, Admission(3, AdmitStep(false, 1, 4)), INSTALLED);
    NewcomerBuilt();
    steps := More(Takes, GONE, steps, INSTALLED, Life(4, Built(Success)), NEW_BUILT);
    NewcomerRuns();
    steps := More(Takes, GONE, steps, NEW_BUILT, Life(4, Run), TWO_OWNERS);
  }

  lemma On(steps: seq<Step>, w: World, more: seq<Step>, w': World) returns (all: seq<Step>)
    requires Leads(Takes, Initial(1), steps, w) && Leads(Takes, w, more, w')
    ensures Leads(Takes, Initial(1), all, w')
  {
    all := steps + more;
    Concat(Takes, Initial(1), steps, w, more, w');
  }

  /**
   One owner per account does not hold of every run: after a revoke whose
   callback and whose join both ran out of time, the old owner still runs when
   the next version of the account starts its own.
   */
  lemma TwoOwnersOfOneAccount() returns (steps: seq<Step>, w: World, e: EntryId, f: EntryId)
    ensures Leads(Takes, Initial(1), steps, w)
    ensures e != f && OwnerRuns(w, e) && OwnerRuns(w, f) && w.entries[e].target.key == w.entries[f].target.key
  {
    steps := RevokeArrives();
    var more := RevokeReads();
    steps := On(steps, ARRIVED, more, READING);
    more := RevokeFences();
    steps := On(steps, READING, more, DRAINING);
    more := RevokeFails();
    steps := On(steps, DRAINING, more, FAILED);
    more := RevokeTears();
    steps := On(steps, FAILED, more, UNPROTECTED);
    more := RevokeGoes();
    steps := On(steps, UNPROTECTED, more, GONE);
    more := NewcomerComes();
    steps := On(steps, GONE, more, TWO_OWNERS);
    w, e, f := TWO_OWNERS, 0, 1;
  }

  // ------------------------------------------------ an idle eviction that finds no entry

  function Lone(mu: Option<Tid>, core: Core, owner: Option<Owner>, one: Pc, two: Pc): World {
    World(1, mu, false, false, map[1 := 0], map[0 := Slot(1, core, None, None, false, 0)],
          map[0 := Entry(0, NEW, false, owner.Some?, Success, owner, 2)], Fences.Table(map[], 0, 1),
          map[1 := one, 2 := two], {})
  }

  const HELD := Core(Some(0), false, false, 1, 0, true)
  const IDLE := Core(Some(0), false, false, 0, 0, true)
  const ENDED := LIVE.(completed := true, result := Other)

  const SEEKING := World(1, Some(1), false, false, map[], map[], map[], Fences.Table(map[], 0, 1),
                         map[1 := NoRoom(ToExecute(NEW))], {})
  const ROOMY := World(1, Some(1), false, false, map[1 := 0], map[0 := Slot(1, EMPTY, None, None, false, 0)], map[],
                       Fences.Table(map[], 0, 1), map[1 := Admit(NEW, 0, None, false)], {})
  const ADMITTED := Lone(None, HELD, None, Exec(Opening, NEW, 0, 0), Build(0, 0))
  const SERVING := Lone(None, HELD, Some(LIVE), Exec(Opening, NEW, 0, 0), Running(0, 0))
  const RELEASING := Lone(None, HELD, Some(LIVE), Exec(Closing, NEW, 0, 0), Running(0, 0))
  const DROPPED := Lone(None, IDLE, Some(LIVE), Exec(Closed, NEW, 0, 0), Running(0, 0))
  const RESTING := Lone(None, IDLE, Some(LIVE), Idle, Running(0, 0))
  const PICKED := Lone(Some(1), IDLE, Some(LIVE), ReapVictim(0, 0, {}), Running(0, 0))
  const RAN := Lone(Some(1), OPENED, Some(ENDED), ReapVictim(0, 0, {}), RunSave(0, 0, Other))
  const CLOSED_EMPTY := Lone(Some(1), CloseAdmission(OPENED), Some(ENDED), Reap({(0, None)}), RunSave(0, 0, Other))
  const BROKEN := Lone(None, CloseAdmission(OPENED), Some(ENDED), Crashed, RunSave(0, 0, Other))

  lemma AccountSought() returns (steps: seq<Step>)
    ensures Leads(Takes, Initial(1), steps, SEEKING)
  {
    var w := Initial(1);
    steps, w := Then(Initial(1), [], w, Admission(1, Begin(ToExecute(NEW))));
    steps, w := Then(Initial(1), steps, w, Admission(1, Lookup));
    steps, w := Then(Initial(1), steps, w, Admission(1, PickNone));
    assert w == SEEKING;
  }

  lemma AccountSlotted()
    ensures Takes(SEEKING, Admission(1, MakeSlot(0)), ROOMY)
  {
  }

  lemma AccountAdmitted()
    ensures Takes(ROOMY, Admission(1, AdmitStep(false, 0, 2)), ADMITTED)
  {
  }

  lemma AccountServes() returns (steps: seq<Step>)
    ensures Leads(Takes, ADMITTED, steps, SERVING)
  {
    var w := ADMITTED;
    steps, w := Then(ADMITTED, [], w, Life(2, Built(Success)));
    steps, w := Then(ADMITTED, steps, w, Life(2, Run));
    assert w == SERVING;
  }

  lemma CallerGivesUp()
    ensures Takes(SERVING, Execution(1, GiveUp), RELEASING)
  {
  }

  lemma CallerDrops()
    ensures Takes(RELEASING, Execution(1, Drop), DROPPED)
  {
  }

  lemma CallerReturns()
    ensures Takes(DROPPED, Execution(1, EndExecute(false)), RESTING)
  {
  }

  lemma ReaperPicks() returns (steps: seq<Step>)
    ensures Leads(Takes, RESTING, steps, PICKED)
  {
    var w := RESTING;
    steps, w := Then(RESTING, [], w, Stop(1, StartReap));
    steps, w := Then(RESTING, steps, w, Stop(1, ReapPick(0)));
    assert w == PICKED;
  }

  /** The owner's run ends between the idle check and the second read. */
  lemma RunEnds() returns (steps: seq<Step>)
    ensures Leads(Takes, PICKED, steps, RAN)
  {
    var w := PICKED;
    steps, w := Then(PICKED, [], w, Life(2, RunReturn(Other)));
    steps, w := Then(PICKED, steps, w, Life(2, Exit));
    assert w == RAN;
  }

  lemma ReaperCloses()
    ensures Takes(RAN, Stop(1, ReapClose(false)), CLOSED_EMPTY)
  {
    var item: (SlotId, Option<EntryId>) := (0, None);
    assert {} + {item} == {item};
  }

  lemma ReaperBreaks() returns (steps: seq<Step>)
    ensures Leads(Takes, CLOSED_EMPTY, steps, BROKEN)
  {
    var w := CLOSED_EMPTY;
    steps, w := Then(CLOSED_EMPTY, [], w, Stop(1, ReapEnd));
    steps, w := Then(CLOSED_EMPTY, steps, w, Stop(1, ReapNext((0, None))));
    assert w == BROKEN;
  }

  /** evictIdle may reach teardown with no entry, whose check "still current" then holds of nothing. */
  lemma EvictionMayFindNoEntry() returns (steps: seq<Step>, w: World, t: Tid)
    ensures Leads(Takes, Initial(1), steps, w) && PcOf(w, t).Crashed?
  {
    steps := AccountSought();
    AccountSlotted();
    steps := More(Takes, Initial(1), steps, SEEKING, Admission(1, MakeSlot(0)), ROOMY);
    AccountAdmitted();
    steps := More(Takes, Initial(1), steps, ROOMY, Admission(1, AdmitStep(false, 0, 2)), ADMITTED);
    var more := AccountServes();
    steps := On(steps, ADMITTED, more, SERVING);
    CallerGivesUp();
    steps := More(Takes, Initial(1), steps, SERVING, Execution(1, GiveUp), RELEASING);
    CallerDrops();
    steps := More(Takes, Initial(1), steps, RELEASING, Execution(1, Drop), DROPPED);
    CallerReturns();
    steps := More(Takes, Initial(1), steps, DROPPED, Execution(1, EndExecute(false)), RESTING);
    more := ReaperPicks();
    steps := On(steps, RESTING, more, PICKED);
    more := RunEnds();
    steps := On(steps, PICKED, more, RAN);
    ReaperCloses();
    steps := More(Takes, Initial(1), steps, RAN, Stop(1, ReapClose(false)), CLOSED_EMPTY);
    more := ReaperBreaks();
    steps := On(steps, CLOSED_EMPTY, more, BROKEN);
    w, t := BROKEN, 1;
  }
}

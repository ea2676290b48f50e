/** What every run of phone authentication guarantees. */
module ChallengeTheorems {
  import opened Options
  import opened ChallengeState
  import opened ChallengeSteps
  import opened ChallengeInvariant
  import opened Traces

  ghost predicate Reachable(w: World) {
    exists capacity: nat, ttl: int, steps :: Leads(Takes, Initial(capacity, ttl), steps, w)
  }

  lemma ReachableInv(w: World)
    requires Reachable(w)
    ensures Inv(w)
  {
    var capacity: nat, ttl: int, steps :| Leads(Takes, Initial(capacity, ttl), steps, w);
    forall x, step, y | Inv(x) && Takes(x, step, y) ensures Inv(y) { StepKeeps(x, step, y); }
    Invariance(Takes, step => true, Inv, Initial(capacity, ttl), steps, w);
  }

  /** One live challenge per actor, found by all three maps, apart from the ended ones, within the capacity. */
  lemma SlotsAgree(w: World, i: Id, j: Id)
    requires Reachable(w) && i in w.maps.challenges && j in w.maps.challenges
    requires w.maps.challenges[i].actor == w.maps.challenges[j].actor
    ensures i == j && i !in w.maps.stones
    ensures var target := w.maps.challenges[i];
            && target in w.maps.targetSlots && w.maps.targetSlots[target] == i
            && target.actor in w.maps.actorSlots && w.maps.actorSlots[target.actor] == i
  {
    ReachableInv(w);
  }

  lemma WithinCapacity(w: World)
    requires Reachable(w)
    ensures |w.maps.challenges| + |w.maps.stones| <= w.capacity
    ensures Consistent(w.maps)
  {
    ReachableInv(w);
  }

  /** Five sign-ins and five passwords per request ID, although Shutdown resets the counters. */
  lemma BudgetsHold(w: World, id: Id)
    requires Reachable(w)
    ensures Calls(w.signIns, id) <= 5 && Calls(w.passwords, id) <= 5
  {
    ReachableInv(w);
    if id in w.records { assert RecordOk(w, id); }
  }

  /** An expiry is only ever taken down from the one the challenge was created with. */
  lemma ExpiryBounded(w: World, steps: seq<Step>, w': World, id: Id)
    requires Reachable(w) && Leads(Takes, w, steps, w') && id in w.records
    ensures id in w'.records && w'.records[id].firstExpiry == w.records[id].firstExpiry
    ensures w'.records[id].expiry <= w.records[id].firstExpiry
  {
    ReachableInv(w);
    HistoryKept(w, steps, w', id);
    assert RecordOk(w', id);
  }

  /** Records are never dropped, and their history only grows. */
  predicate Remembers(r: Record, r': Record) {
    r'.firstExpiry == r.firstExpiry && (r.hadProfile ==> r'.hadProfile) && (r.hadPassword ==> r'.hadPassword)
  }

  lemma HistoryStep(w: World, step: Step, w': World, id: Id)
    requires Takes(w, step, w') && id in w.records
    ensures id in w'.records && Remembers(w.records[id], w'.records[id])
  {
    if Submits(step) { OperationHistory(w, step, w', id); }
  }

  lemma OperationHistory(w: World, step: Step, w': World, id: Id)
    requires Takes(w, step, w') && id in w.records && Submits(step)
    ensures id in w'.records && Remembers(w.records[id], w'.records[id])
  {
  }

  lemma HistoryKept(w: World, steps: seq<Step>, w': World, id: Id)
    requires Inv(w) && Leads(Takes, w, steps, w') && id in w.records
    ensures Inv(w') && id in w'.records && Remembers(w.records[id], w'.records[id])
  {
    var was := w.records[id];
    forall x, step, y | Inv(x) && id in x.records && Remembers(was, x.records[id]) && Takes(x, step, y)
      ensures Inv(y) && id in y.records && Remembers(was, y.records[id])
    {
      StepKeeps(x, step, y);
      HistoryStep(x, step, y, id);
    }
    Invariance(Takes, step => true, x => Inv(x) && id in x.records && Remembers(was, x.records[id]), w, steps, w');
  }

  /** After a profile is pending, neither a code nor a password of that request is submitted again. */
  lemma NoCallAfterProfile(w: World, steps: seq<Step>, w': World, id: Id, t: Tid)
    requires Reachable(w) && id in w.records && w.records[id].pending && Leads(Takes, w, steps, w')
    ensures !(PcOf(w', t).Calling? && PcOf(w', t).id == id)
  {
    ReachableInv(w);
    assert RecordOk(w, id);
    HistoryKept(w, steps, w', id);
    NoCallOnceProfiled(w', id, t);
  }

  lemma NoCallOnceProfiled(w: World, id: Id, t: Tid)
    requires Inv(w) && id in w.records && w.records[id].hadProfile
    ensures !(PcOf(w, t).Calling? && PcOf(w, t).id == id)
  {
  }

  /** After Telegram asked for the password, no code of that request is submitted again. */
  lemma NoSignInAfterPassword(w: World, steps: seq<Step>, w': World, id: Id, t: Tid)
    requires Reachable(w) && id in w.records && w.records[id].stage == PasswordStage && Leads(Takes, w, steps, w')
    ensures !(PcOf(w', t).Calling? && PcOf(w', t).kind == Code && PcOf(w', t).id == id)
  {
    ReachableInv(w);
    assert RecordOk(w, id);
    HistoryKept(w, steps, w', id);
    if t in w'.threads { assert ThreadOk(w', t, w'.threads[t]) && RecordOk(w', id); }
  }

  /** The provider is called only between the reservation of an attempt and its answer. */
  lemma OnlyCallsCount(w: World, step: Step, w': World, id: Id)
    requires Takes(w, step, w')
    ensures Calls(w'.signIns, id) + Calls(w'.passwords, id) > Calls(w.signIns, id) + Calls(w.passwords, id)
            <==> step.Call? && step.provider && PcOf(w, step.t).id == id
  {
    if !step.Call? { OthersCallNothing(w, step, w'); }
  }

  lemma OthersCallNothing(w: World, step: Step, w': World)
    requires Takes(w, step, w') && !step.Call?
    ensures w'.signIns == w.signIns && w'.passwords == w.passwords
  {
    if Submits(step) { OperationsCallNothing(w, step, w'); }
  }

  lemma OperationsCallNothing(w: World, step: Step, w': World)
    requires Takes(w, step, w') && Submits(step) && !step.Call?
    ensures w'.signIns == w.signIns && w'.passwords == w.passwords
  {
  }

  // -------------------------------------------------------------- terminal outcomes

  /** An operation that has come to its end finds its challenge still live. */
  lemma EndIsNeverLost(w: World, t: Tid)
    requires Reachable(w) && (PcOf(w, t).Completing? || PcOf(w, t).Aborting?)
    ensures CanEnd(w, t, if PcOf(w, t).Completing? then Some(0) else None)
  {
    ReachableInv(w);
    assert ThreadOk(w, t, w.threads[t]);
  }

  /** The tombstone stands until it expires or the registry closes, and its ID never lives again. */
  ghost predicate Stands(w: World, id: Id, stone: Stone) {
    && id in w.records
    && (w.maps.closed || w.now >= stone.expires
        || (id in w.maps.stones && w.maps.stones[id] == stone && id !in w.maps.challenges))
  }

  predicate TouchesMaps(step: Step) {
    step.Prepare? || step.Rollback? || step.End? || step.Remove? || step.CloseAll? || step.Finish? || step.Status?
  }

  lemma MapsUntouched(w: World, step: Step, w': World)
    requires Takes(w, step, w') && !TouchesMaps(step)
    ensures w'.maps == w.maps && w'.now >= w.now
  {
  }

  /** A challenge that leaves the maps is a live one. */
  lemma StandsAfterLeaving(w: World, step: Step, w': World, id: Id, stone: Stone)
    requires Takes(w, step, w') && Stands(w, id, stone) && (step.Rollback? || step.End? || step.Remove?) && id in w'.records
    ensures Stands(w', id, stone)
  {
  }

  lemma StandsAfterPrepare(w: World, step: Step, w': World, id: Id, stone: Stone)
    requires Takes(w, step, w') && Stands(w, id, stone) && (step.Prepare? || step.Status?) && id in w'.records
    ensures Stands(w', id, stone)
  {
  }

  lemma StandsAfterShutdown(w: World, step: Step, w': World, id: Id, stone: Stone)
    requires Inv(w) && Takes(w, step, w') && Stands(w, id, stone) && (step.CloseAll? || step.Finish?)
    ensures Stands(w', id, stone)
  {
  }

  lemma StandsStep(w: World, step: Step, w': World, id: Id, stone: Stone)
    requires Inv(w) && Takes(w, step, w') && Stands(w, id, stone)
    ensures Stands(w', id, stone)
  {
    HistoryStep(w, step, w', id);
    if !TouchesMaps(step) {
      MapsUntouched(w, step, w');
    } else if step.Prepare? || step.Status? {
      StandsAfterPrepare(w, step, w', id, stone);
    } else if step.CloseAll? || step.Finish? {
      StandsAfterShutdown(w, step, w', id, stone);
    } else {
      StandsAfterLeaving(w, step, w', id, stone);
    }
  }

  /** While the tombstone lasts and the registry is open, the recorded outcome is what every retry is told. */
  lemma OutcomeIsReplayed(w: World, t: Tid, account: Option<Account>, steps: seq<Step>, w': World)
    requires Reachable(w) && CanEnd(w, t, account) && Leads(Takes, DoEnd(w, t, account), steps, w')
    ensures var id := PcOf(w, t).id;
            var stone := Stone(w.records[id].target.actor, w.now + w.ttl, account, account.None?);
            !w'.maps.closed && w'.now < stone.expires ==> Replay(w', stone.actor, id) == Some(stone)
  {
    ReachableInv(w);
    EndKeeps(w, t, account);
    EndStands(w, t, account);
    var id := PcOf(w, t).id;
    StandsOn(DoEnd(w, t, account), steps, w', id,
             Stone(w.records[id].target.actor, w.now + w.ttl, account, account.None?));
  }

  lemma EndStands(w: World, t: Tid, account: Option<Account>)
    requires CanEnd(w, t, account)
    ensures var id := PcOf(w, t).id;
            Stands(DoEnd(w, t, account), id, Stone(w.records[id].target.actor, w.now + w.ttl, account, account.None?))
  {
  }

  lemma StandsOn(w: World, steps: seq<Step>, w': World, id: Id, stone: Stone)
    requires Inv(w) && Stands(w, id, stone) && Leads(Takes, w, steps, w')
    ensures Stands(w', id, stone)
  {
    forall x, step, y | Inv(x) && Stands(x, id, stone) && Takes(x, step, y) ensures Inv(y) && Stands(y, id, stone) {
      StepKeeps(x, step, y);
      StandsStep(x, step, y, id, stone);
    }
    Invariance(Takes, step => true, x => Inv(x) && Stands(x, id, stone), w, steps, w');
  }
}

/** What each step of phone authentication does, and exactly when it lets an operator go on. */
module ChallengeEffects {
  import opened Options
  import opened ChallengeState
  import opened ChallengeSteps
  import opened ChallengeInvariant
  import opened ChallengeTheorems

  function Moved(w: World, t: Tid, pc: Pc): World { w.(threads := w.threads[t := pc]) }

  function WithRecord(w: World, id: Id, r: Record): World { w.(records := w.records[id := r]) }

  // -------------------------------------------------------------------------- Start

  predicate IsLive(w: World, id: Id) { id in w.maps.challenges }

  /** The tombstones whose time has not come. */
  ghost function LastingStones(w: World): set<Id> { set id | id in w.maps.stones && w.now < w.maps.stones[id].expires }

  /**
   A challenge is created exactly if the registry is open, the actor has no live
   challenge and the live and lasting ended ones leave room; one for the same
   target is resumed, with the earlier of the two expiries, and one for another
   target keeps its place.
   */
  lemma PreparesExactly(w: World, t: Tid, target: Target, expiresAt: nat, seen: nat, id: Id, w': World)
    requires Reachable(w) && Takes(w, Prepare(t, target, expiresAt, seen, id), w')
    ensures if w.maps.closed then w' == Moved(w, t, Idle)
            else if target in w.maps.targetSlots then
              var found := w.maps.targetSlots[target];
              && w'.maps.challenges == w.maps.challenges && PcOf(w', t) == Idle
              && found in w.records && w'.records == w.records[found := w'.records[found]]
              && w'.records[found] == w.records[found].(expiry := if expiresAt < seen then expiresAt else w.records[found].expiry)
            else if target.actor in w.maps.actorSlots || |w.maps.challenges| + |LastingStones(w)| >= w.capacity then
              w'.maps.challenges == w.maps.challenges && w'.records == w.records && PcOf(w', t) == Idle
            else
              && w'.maps.challenges == w.maps.challenges[id := target] && PcOf(w', t) == Sending(id)
              && w'.records == w.records[id := Record(target, CodeStage, expiresAt, false, 0, 0, false, None, expiresAt, false, false)]
              && w'.maps.actorSlots == w.maps.actorSlots[target.actor := id]
              && w'.maps.targetSlots == w.maps.targetSlots[target := id]
  {
    SlotsNameLive(w, target);
    if !w.maps.closed { LastingAreCleaned(w); }
    if !w.maps.closed && target in w.maps.targetSlots { ResumesExactly(w, t, target, expiresAt, seen, id, w'); }
    if !w.maps.closed && target !in w.maps.targetSlots { CreatesExactly(w, t, target, expiresAt, seen, id, w'); }
  }

  /** Prepare forgets exactly the outcomes whose time has come. */
  lemma PrepareForgets(w: World, t: Tid, target: Target, expiresAt: nat, seen: nat, id: Id, w': World)
    requires Takes(w, Prepare(t, target, expiresAt, seen, id), w') && !w.maps.closed
    ensures w'.now == w.now && !w'.maps.closed && w'.signIns == w.signIns && w'.passwords == w.passwords
    ensures w'.maps.stones.Keys == LastingStones(w)
    ensures forall i <- w'.maps.stones :: w'.maps.stones[i] == w.maps.stones[i]
  {
    LastingAreCleaned(w);
  }

  lemma SlotsNameLive(w: World, target: Target)
    requires Reachable(w)
    ensures target in w.maps.targetSlots ==> w.maps.targetSlots[target] in w.maps.challenges && w.maps.targetSlots[target] in w.records
    ensures target.actor in w.maps.actorSlots ==> w.maps.actorSlots[target.actor] in w.maps.challenges
  {
    ReachableInv(w);
  }

  lemma LastingAreCleaned(w: World)
    ensures Cleaned(w.maps, w.now).stones.Keys == LastingStones(w)
    ensures |Cleaned(w.maps, w.now).stones| == |LastingStones(w)|
  {
    assert |Cleaned(w.maps, w.now).stones| == |Cleaned(w.maps, w.now).stones.Keys|;
  }

  lemma ResumesExactly(w: World, t: Tid, target: Target, expiresAt: nat, seen: nat, id: Id, w': World)
    requires Takes(w, Prepare(t, target, expiresAt, seen, id), w') && !w.maps.closed
    requires target in w.maps.targetSlots && w.maps.targetSlots[target] in w.maps.challenges
    ensures var found := w.maps.targetSlots[target];
            && found in w.records && w'.maps.challenges == w.maps.challenges && PcOf(w', t) == Idle
            && w'.records == w.records[found := w'.records[found]]
            && w'.records[found] == w.records[found].(expiry := if expiresAt < seen then expiresAt else w.records[found].expiry)
  {
  }

  lemma CreatesExactly(w: World, t: Tid, target: Target, expiresAt: nat, seen: nat, id: Id, w': World)
    requires Takes(w, Prepare(t, target, expiresAt, seen, id), w') && !w.maps.closed
    requires target !in w.maps.targetSlots
    requires target.actor in w.maps.actorSlots ==> w.maps.actorSlots[target.actor] in w.maps.challenges
    requires |Cleaned(w.maps, w.now).stones| == |LastingStones(w)|
    ensures if target.actor in w.maps.actorSlots || |w.maps.challenges| + |LastingStones(w)| >= w.capacity then
              w'.maps.challenges == w.maps.challenges && w'.records == w.records && PcOf(w', t) == Idle
            else
              && w'.maps.challenges == w.maps.challenges[id := target] && PcOf(w', t) == Sending(id)
              && w'.records == w.records[id := Record(target, CodeStage, expiresAt, false, 0, 0, false, None, expiresAt, false, false)]
              && w'.maps.actorSlots == w.maps.actorSlots[target.actor := id]
              && w'.maps.targetSlots == w.maps.targetSlots[target := id]
  {
  }

  /** The hash a provider sent is taken into a live, unexpired challenge that has none, and only there. */
  lemma CommitsExactly(w: World, t: Tid, step: Step, w': World)
    requires Takes(w, step, w') && (step == CommitFind(t) || step == CommitLock(t))
    ensures var id := PcOf(w, t).id;
            if step.CommitFind? then w' == Moved(w, t, if w.maps.closed then Idle else Sent(id))
            else if !IsLive(w, id) || w.records[id].ready || w.now >= w.records[id].expiry then w' == Moved(w, t, Idle)
            else w' == Moved(WithRecord(w, id, w.records[id].(lock := Some(t))), t, Committing(id, w.records[id].expiry))
  {
  }

  /** It becomes ready for a code exactly if there is a hash and the challenge outlasts the provider's own expiry. */
  lemma HashIsTakenExactly(w: World, t: Tid, sentExpiry: Option<nat>, hash: bool, w': World)
    requires Takes(w, Commit(t, sentExpiry, hash, false), w')
    ensures var id := PcOf(w, t).id;
            var r := w.records[id];
            var expiry := if hash && sentExpiry.Some? && sentExpiry.value < r.expiry then sentExpiry.value else r.expiry;
            w' == Moved(WithRecord(w, id, r.(lock := None, expiry := expiry, ready := hash && w.now < expiry)), t, Idle)
  {
  }

  /** A start that failed leaves no challenge behind. */
  lemma RollsBackExactly(w: World, t: Tid, w': World)
    requires Takes(w, Rollback(t), w')
    ensures w'.maps.challenges == w.maps.challenges - {PcOf(w, t).id} && PcOf(w', t) == Idle
    ensures w'.maps.stones == w.maps.stones && w'.records == w.records
  {
    if !IsLive(w, PcOf(w, t).id) { assert w.maps.challenges - {PcOf(w, t).id} == w.maps.challenges; }
  }

  // ---------------------------------------------------------------------- Operation

  /** A request is taken up exactly by the actor of a live challenge, in an open registry. */
  lemma FindsExactly(w: World, t: Tid, kind: Kind, actor: Actor, id: Id, w': World)
    requires Takes(w, Find(t, kind, actor, id), w')
    ensures w' == Moved(w, t, if !w.maps.closed && IsLive(w, id) && w.maps.challenges[id].actor == actor then Waiting(kind, id) else Idle)
  {
  }

  /** Requests of one challenge go one at a time. */
  lemma LocksExactly(w: World, t: Tid, step: Step, w': World)
    requires Takes(w, step, w') && (step == Lock(t) || step == Unlock(t))
    ensures var pc := PcOf(w, t);
            if step.Lock? then
              && w.records[pc.id].lock.None?
              && w' == Moved(WithRecord(w, pc.id, w.records[pc.id].(lock := Some(t))), t, Held(pc.kind, pc.id))
            else w' == Moved(WithRecord(w, pc.id, w.records[pc.id].(lock := None)), t, Idle)
  {
  }

  /** The request goes on exactly if its challenge is live, the registry open, the expiry ahead and a code or profile waiting. */
  lemma ChecksExactly(w: World, t: Tid, w': World)
    requires Takes(w, Check(t), w')
    ensures var pc := PcOf(w, t);
            var r := w.records[pc.id];
            w' == Moved(w, t, if IsLive(w, pc.id) && !w.maps.closed && w.now < r.expiry && (r.ready || r.pending)
                              then Acting(pc.kind, pc.id, w.now) else Ending(pc.id))
  {
  }

  /**
   Cancel aborts; a pending profile is finalized whatever was submitted; any
   other submission needs its own stage and fewer than five attempts of its kind.
   */
  lemma ActsExactly(w: World, t: Tid, w': World)
    requires Takes(w, Act(t), w')
    ensures var pc := PcOf(w, t);
            var r := w.records[pc.id];
            if pc.kind == Cancel then w' == Moved(w, t, Aborting(pc.id))
            else if r.pending then w' == Moved(w, t, Finalizing(pc.id))
            else if pc.kind == Code && r.stage == CodeStage && r.codeAttempts < 5 then
              w' == Moved(WithRecord(w, pc.id, r.(codeAttempts := r.codeAttempts + 1)), t, Calling(Code, pc.id, pc.since))
            else if pc.kind == Password && r.stage == PasswordStage && r.passwordAttempts < 5 then
              w' == Moved(WithRecord(w, pc.id, r.(passwordAttempts := r.passwordAttempts + 1)), t, Calling(Password, pc.id, pc.since))
            else w' == Moved(w, t, Ending(pc.id))
  {
  }

  /** A call is made and counted; without a provider the authentication is aborted. */
  lemma CallsExactly(w: World, t: Tid, provider: bool, w': World)
    requires Takes(w, Call(t, provider), w')
    ensures var pc := PcOf(w, t);
            && w'.records == w.records && w'.maps == w.maps && w'.now == w.now
            && PcOf(w', t) == (if provider then Answering(pc.kind, pc.id, pc.since) else Aborting(pc.id))
            && Calls(w'.signIns, pc.id) == Calls(w.signIns, pc.id) + (if provider && pc.kind == Code then 1 else 0)
            && Calls(w'.passwords, pc.id) == Calls(w.passwords, pc.id) + (if provider && pc.kind != Code then 1 else 0)
  {
  }

  /** Every provider call belongs to an operation admitted before the expiry its challenge was created with. */
  lemma CallsBeforeExpiry(w: World, t: Tid, w': World)
    requires Reachable(w) && Takes(w, Call(t, true), w')
    ensures PcOf(w, t).id in w.records && PcOf(w, t).since < w.records[PcOf(w, t).id].firstExpiry
    ensures PcOf(w, t).id in w.maps.challenges && !w.records[PcOf(w, t).id].pending
    ensures w.records[PcOf(w, t).id].stage == if PcOf(w, t).kind == Code then CodeStage else PasswordStage
  {
    ReachableInv(w);
    assert ThreadOk(w, t, w.threads[t]);
  }

  /** A profile is kept and finalized, a request for the password opens that stage, a fatal failure aborts, any other keeps all. */
  lemma AnswersExactly(w: World, t: Tid, answer: Answer, w': World)
    requires Takes(w, AnswerStep(t, answer), w')
    ensures var id := PcOf(w, t).id;
            var r := w.records[id];
            w' == match answer
                  case Profile => Moved(WithRecord(w, id, r.(pending := true, ready := false, hadProfile := true)), t, Finalizing(id))
                  case PasswordNeeded => Moved(WithRecord(w, id, r.(stage := PasswordStage, hadPassword := true)), t, Ending(id))
                  case Refused => Moved(w, t, Ending(id))
                  case Fatal => Moved(w, t, Aborting(id))
  {
  }

  /** An account is made durable only while its challenge has not expired. */
  lemma FinalizesExactly(w: World, t: Tid, w': World)
    requires Takes(w, Finalize(t), w')
    ensures var id := PcOf(w, t).id;
            w' == Moved(w, t, if w.now < w.records[id].expiry then Completing(id) else Ending(id))
  {
  }

  /** The end of a challenge leaves its outcome for as long as a challenge lives, and none of its secrets. */
  lemma EndsExactly(w: World, t: Tid, account: Option<Account>, w': World)
    requires Reachable(w) && Takes(w, End(t, account), w')
    ensures var id := PcOf(w, t).id;
            && w'.maps.challenges == w.maps.challenges - {id} && PcOf(w', t) == Ending(id)
            && w'.maps.stones == w.maps.stones[id := Stone(w.records[id].target.actor, w.now + w.ttl, account, account.None?)]
            && w'.records == w.records[id := w.records[id].(ready := false, pending := false)]
            && (account.Some? ==> PcOf(w, t).Completing?) && (account.None? ==> PcOf(w, t).Aborting?)
  {
  }

  /** Its actor and its target are free for another. */
  lemma EndFreesTheActor(w: World, t: Tid, account: Option<Account>, w': World)
    requires Reachable(w) && Takes(w, End(t, account), w')
    ensures var target := w.maps.challenges[PcOf(w, t).id]; target.actor !in w'.maps.actorSlots && target !in w'.maps.targetSlots
  {
    WithinCapacity(w);
    RemovedIsFree(w.maps, PcOf(w, t).id);
  }

  lemma RemovedIsFree(m: Maps, id: Id)
    requires Consistent(m) && id in m.challenges
    ensures m.challenges[id].actor !in Removed(m, id).actorSlots && m.challenges[id] !in Removed(m, id).targetSlots
  {
  }

  /** A durable step that failed leaves the challenge as it was, for another try. */
  lemma KeepsExactly(w: World, t: Tid, w': World)
    requires Takes(w, Keep(t), w')
    ensures w' == Moved(w, t, Ending(PcOf(w, t).id))
  {
  }

  // ------------------------------------------------------- Status, Remove and Shutdown

  lemma StatusForgetsExactly(w: World, t: Tid, w': World)
    requires Takes(w, Status(t), w')
    ensures if w.maps.closed then w' == Moved(w, t, Idle)
            else
              && w'.maps.challenges == w.maps.challenges && w'.records == w.records && PcOf(w', t) == Idle
              && w'.maps.stones.Keys == LastingStones(w) && forall id <- w'.maps.stones :: w'.maps.stones[id] == w.maps.stones[id]
  {
  }

  /** A removed challenge frees its actor for another and leaves no secrets. */
  lemma RemovesExactly(w: World, t: Tid, id: Id, w': World)
    requires Reachable(w) && Takes(w, Remove(t, id), w')
    ensures var r := w.records[id];
            && w'.maps.challenges == w.maps.challenges - {id} && w'.maps.stones == w.maps.stones
            && w'.records == w.records[id := r.(ready := false, pending := false)]
            && r.target.actor !in w'.maps.actorSlots && r.target !in w'.maps.targetSlots
  {
    ReachableInv(w);
  }

  /** Shutdown closes the registry for good, forgets every secret of the challenges it visits, and all outcomes. */
  lemma ShutsDownExactly(w: World, t: Tid, step: Step, w': World)
    requires Takes(w, step, w') && (step == CloseAll(t) || step == Finish(t) || (step.Clear? && step.t == t))
    ensures if step.CloseAll? then w' == Moved(w, t, Shutting).(maps := w.maps.(closed := true))
            else if step.Finish? then w' == Moved(w, t, Idle).(maps := w.maps.(stones := map[]))
            else
              && IsLive(w, step.id)
              && w' == Moved(WithRecord(w, step.id, w.records[step.id].(stage := Cleared, expiry := 0, ready := false, codeAttempts := 0,
                                                                       passwordAttempts := 0, pending := false)), t, Shutting)
  {
  }
}

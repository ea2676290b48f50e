/** What holds of the challenges after any steps of any goroutines. */
module ChallengeInvariant {
  import opened Options
  import opened ChallengeState
  import opened ChallengeSteps

  ghost predicate MapsOk(w: World) {
    && Consistent(w.maps) && |w.maps.challenges| + |w.maps.stones| <= w.capacity
    && (forall id <- w.maps.challenges :: id in w.records && w.records[id].target == w.maps.challenges[id])
    && (forall id <- w.maps.stones :: id in w.records)
  }

  function PcAt(w: World, holder: Option<Tid>): Pc {
    if holder.Some? then PcOf(w, holder.value) else Idle
  }

  /** A reserved attempt whose provider call has not been made yet. */
  predicate Reserved(pc: Pc, kind: Kind, id: Id) { pc.Calling? && pc.kind == kind && pc.id == id }

  /** Every call was reserved; a shut down record admits no more. */
  ghost predicate BudgetOk(w: World, id: Id)
    requires id in w.records
  {
    var r, pc := w.records[id], PcAt(w, w.records[id].lock);
    var codes := Calls(w.signIns, id) + if Reserved(pc, Code, id) then 1 else 0;
    var passwords := Calls(w.passwords, id) + if Reserved(pc, Password, id) then 1 else 0;
    && r.codeAttempts <= MAX_CODE_ATTEMPTS && r.passwordAttempts <= MAX_PASSWORD_ATTEMPTS
    && codes <= MAX_CODE_ATTEMPTS && passwords <= MAX_PASSWORD_ATTEMPTS
    && (r.stage != Cleared ==> codes <= r.codeAttempts && passwords <= r.passwordAttempts)
  }

  ghost predicate RecordOk(w: World, id: Id)
    requires id in w.records
  {
    var r := w.records[id];
    && r.expiry <= r.firstExpiry && BudgetOk(w, id)
    && (r.stage == Cleared ==> w.maps.closed)
    && (r.pending ==> r.hadProfile) && (r.stage == PasswordStage ==> r.hadPassword)
    && (r.hadProfile && id in w.maps.challenges && r.stage != Cleared ==> r.pending)
    && (r.hadPassword && r.stage != Cleared ==> r.stage == PasswordStage)
    && (r.lock.Some? ==> HoldsLock(PcOf(w, r.lock.value)) && PcOf(w, r.lock.value).id == id)
  }

  ghost predicate ThreadOk(w: World, t: Tid, pc: Pc) {
    && (!pc.Idle? && !pc.Shutting? ==> pc.id in w.records)
    && (HoldsLock(pc) ==> w.records[pc.id].lock == Some(t))
    && (InAction(pc) ==> pc.id in w.maps.challenges && w.records[pc.id].stage != Cleared)
    && (pc.Committing? ==> pc.seen <= w.records[pc.id].firstExpiry)
    && ((pc.Calling? || pc.Answering?) && pc.kind == Code ==>
          !w.records[pc.id].pending && w.records[pc.id].stage == CodeStage)
    && ((pc.Calling? || pc.Answering?) && pc.kind == Password ==>
          !w.records[pc.id].pending && w.records[pc.id].stage == PasswordStage)
    && (pc.Calling? || pc.Answering? ==> pc.kind != Cancel)
    && (pc.Finalizing? || pc.Completing? ==> w.records[pc.id].pending)
    && (pc.Acting? || pc.Calling? || pc.Answering? ==> pc.since < w.records[pc.id].firstExpiry)
    && (pc.Shutting? ==> w.maps.closed)
  }

  ghost predicate Inv(w: World) {
    && MapsOk(w) && (forall id <- w.records :: RecordOk(w, id))
    && (forall t <- w.threads :: ThreadOk(w, t, w.threads[t]))
    && (forall id <- w.signIns :: id in w.records) && (forall id <- w.passwords :: id in w.records)
  }

  // --------------------------------------------------------- a step on one record

  /** Thread `t` moves and record `id` may change; another holder of its mutex notices nothing but the expiry. */
  ghost predicate OnRecord(w: World, w': World, t: Tid, id: Id) {
    && w'.capacity == w.capacity && (w.maps.closed ==> w'.maps.closed)
    && t in w'.threads && w'.threads == w.threads[t := w'.threads[t]]
    && id in w.records && id in w'.records && w'.records == w.records[id := w'.records[id]]
    && w'.records[id].target == w.records[id].target && w'.records[id].firstExpiry == w.records[id].firstExpiry
    && (forall i <- w.maps.challenges :: i != id ==> i in w'.maps.challenges)
    && (forall i <- w'.maps.challenges :: i in w.maps.challenges)
    && (forall i :: i != id ==> Calls(w'.signIns, i) == Calls(w.signIns, i) && Calls(w'.passwords, i) == Calls(w.passwords, i))
    && (forall i <- w'.signIns :: i in w.signIns || i == id) && (forall i <- w'.passwords :: i in w.passwords || i == id)
  }

  /** `o` holds the mutex of `id`, so only `t == o` may touch more than the expiry. */
  predicate Unnoticed(w: World, w': World, t: Tid, id: Id)
    requires id in w.records && id in w'.records
  {
    var r, r' := w.records[id], w'.records[id];
    r.lock.Some? && r.lock != Some(t) ==>
      r' == r.(expiry := r'.expiry) && (id in w.maps.challenges ==> id in w'.maps.challenges)
  }

  lemma OthersKept(w: World, w': World, t: Tid, id: Id, o: Tid)
    requires OnRecord(w, w', t, id) && Unnoticed(w, w', t, id) && o in w.threads && o != t
    requires ThreadOk(w, o, w.threads[o])
    ensures ThreadOk(w', o, w'.threads[o])
  {
  }

  lemma RecordsKept(w: World, w': World, t: Tid, id: Id, i: Id)
    requires OnRecord(w, w', t, id) && i in w.records && i != id && RecordOk(w, i)
    requires HoldsLock(PcOf(w', t)) ==> PcOf(w', t).id == id
    requires HoldsLock(PcOf(w, t)) ==> PcOf(w, t).id == id
    ensures RecordOk(w', i)
  {
  }

  lemma OnRecordKeeps(w: World, w': World, t: Tid, id: Id)
    requires Inv(w) && OnRecord(w, w', t, id) && Unnoticed(w, w', t, id)
    requires HoldsLock(PcOf(w', t)) ==> PcOf(w', t).id == id
    requires HoldsLock(PcOf(w, t)) ==> PcOf(w, t).id == id
    requires MapsOk(w') && RecordOk(w', id) && ThreadOk(w', t, PcOf(w', t))
    ensures Inv(w')
  {
    forall i <- w'.records ensures RecordOk(w', i) { if i != id { RecordsKept(w, w', t, id, i); } }
    forall o <- w'.threads ensures ThreadOk(w', o, w'.threads[o]) {
      if o != t { OthersKept(w, w', t, id, o); }
    }
  }

  /** What the invariant says where `t` and record `id` stand. */
  ghost predicate Here(w: World, t: Tid, id: Id) {
    && MapsOk(w) && id in w.records && RecordOk(w, id) && ThreadOk(w, t, PcOf(w, t))
    && (HoldsLock(PcOf(w, t)) ==> PcOf(w, t).id == id)
  }

  ghost predicate Local(w: World, w': World, t: Tid, id: Id) {
    && OnRecord(w, w', t, id) && Unnoticed(w, w', t, id) && MapsOk(w') && RecordOk(w', id)
    && ThreadOk(w', t, PcOf(w', t))
    && (HoldsLock(PcOf(w', t)) ==> PcOf(w', t).id == id)
  }

  lemma LocalKeeps(w: World, w': World, t: Tid, id: Id)
    requires Inv(w) && Here(w, t, id) && Local(w, w', t, id)
    ensures Inv(w')
  {
    OnRecordKeeps(w, w', t, id);
  }

  lemma HereFromInv(w: World, t: Tid, id: Id)
    requires Inv(w) && id in w.records && (HoldsLock(PcOf(w, t)) ==> PcOf(w, t).id == id)
    ensures Here(w, t, id)
  {
    if t in w.threads { assert ThreadOk(w, t, w.threads[t]); }
  }

  /** Where a goroutine stands, there is a record. */
  lemma StandsAtRecord(w: World, t: Tid)
    requires Inv(w) && !PcOf(w, t).Idle? && !PcOf(w, t).Shutting?
    ensures PcOf(w, t).id in w.records && Here(w, t, PcOf(w, t).id)
  {
  }

  // ---------------------------------------------------------- steps on the maps alone

  /** Only the maps, the clock and the counter of a goroutine that holds no mutex change. */
  ghost predicate OnMaps(w: World, w': World, t: Tid) {
    && w'.records == w.records && w'.signIns == w.signIns && w'.passwords == w.passwords && w'.capacity == w.capacity
    && w'.maps.challenges == w.maps.challenges && (w.maps.closed ==> w'.maps.closed)
    && t in w'.threads && w'.threads == w.threads[t := w'.threads[t]]
    && !HoldsLock(PcOf(w, t)) && !HoldsLock(w'.threads[t])
  }

  lemma OnMapsRecord(w: World, w': World, t: Tid, i: Id)
    requires OnMaps(w, w', t) && i in w.records && RecordOk(w, i)
    ensures RecordOk(w', i)
  {
  }

  lemma OnMapsThread(w: World, w': World, t: Tid, o: Tid)
    requires OnMaps(w, w', t) && o in w.threads && o != t && ThreadOk(w, o, w.threads[o])
    ensures ThreadOk(w', o, w'.threads[o])
  {
  }

  lemma OnMapsKeeps(w: World, w': World, t: Tid)
    requires Inv(w) && OnMaps(w, w', t) && MapsOk(w') && ThreadOk(w', t, w'.threads[t])
    ensures Inv(w')
  {
    forall i <- w'.records ensures RecordOk(w', i) { OnMapsRecord(w, w', t, i); }
    forall o <- w'.threads ensures ThreadOk(w', o, w'.threads[o]) { if o != t { OnMapsThread(w, w', t, o); } }
  }

  lemma TickKeeps(w: World, w': World)
    requires Inv(w) && w' == w.(now := w'.now)
    ensures Inv(w')
  {
    forall i <- w'.records ensures RecordOk(w', i) { assert RecordOk(w, i); }
    forall o <- w'.threads ensures ThreadOk(w', o, w'.threads[o]) { assert ThreadOk(w, o, w.threads[o]); }
  }

  lemma CleanedMaps(w: World, w': World)
    requires MapsOk(w) && w'.maps == Cleaned(w.maps, w.now) && w'.records == w.records && w'.capacity == w.capacity
    ensures MapsOk(w')
  {
    CleanedConsistent(w.maps, w.now);
    CleanedSize(w.maps, w.now);
  }

  lemma StatusKeeps(w: World, t: Tid)
    requires Inv(w) && CanStatus(w, t)
    ensures Inv(DoStatus(w, t))
  {
    if !w.maps.closed { CleanedMaps(w, DoStatus(w, t)); }
    OnMapsKeeps(w, DoStatus(w, t), t);
  }

  lemma FindLocal(w: World, t: Tid, kind: Kind, actor: Actor, id: Id)
    requires CanFind(w, t, kind, actor, id) && (id in w.maps.challenges ==> id in w.records)
    ensures var w' := DoFind(w, t, kind, actor, id); OnMaps(w, w', t) && ThreadOk(w', t, w'.threads[t])
  {
  }

  lemma CopiedMaps(w: World, w': World)
    requires MapsOk(w) && w'.maps == w.maps && w'.records == w.records && w'.capacity == w.capacity
    ensures MapsOk(w')
  {
  }

  lemma FindKeeps(w: World, t: Tid, kind: Kind, actor: Actor, id: Id)
    requires Inv(w) && CanFind(w, t, kind, actor, id)
    ensures Inv(DoFind(w, t, kind, actor, id))
  {
    FindLocal(w, t, kind, actor, id);
    CopiedMaps(w, DoFind(w, t, kind, actor, id));
    OnMapsKeeps(w, DoFind(w, t, kind, actor, id), t);
  }

  lemma CloseKeeps(w: World, t: Tid)
    requires Inv(w) && CanClose(w, t)
    ensures Inv(DoClose(w, t))
  {
    OnMapsKeeps(w, DoClose(w, t), t);
  }

  lemma FinishKeeps(w: World, t: Tid)
    requires Inv(w) && CanFinish(w, t)
    ensures Inv(DoFinish(w, t))
  {
    OnMapsKeeps(w, DoFinish(w, t), t);
  }

  // ------------------------------------------------------------------------ Prepare

  /** A new record appears, live and free. */
  ghost predicate Adds(w: World, w': World, t: Tid, id: Id, target: Target, expiry: nat) {
    && id !in w.records && !w.maps.closed && !w'.maps.closed
    && w'.records == w.records[id := NewRecord(target, expiry)] && w'.threads == w.threads[t := Sending(id)]
    && w'.signIns == w.signIns && w'.passwords == w.passwords && w'.capacity == w.capacity
    && w'.maps.challenges == w.maps.challenges[id := target] && PcOf(w, t).Idle?
  }

  lemma NewRecordOk(w: World, w': World, t: Tid, id: Id, target: Target, expiry: nat)
    requires Adds(w, w', t, id, target, expiry) && id !in w.signIns && id !in w.passwords
    ensures RecordOk(w', id)
  {
  }

  lemma NewThreadOk(w: World, w': World, t: Tid, id: Id, target: Target, expiry: nat)
    requires Adds(w, w', t, id, target, expiry)
    ensures ThreadOk(w', t, w'.threads[t])
  {
  }

  lemma OldRecord(w: World, w': World, t: Tid, id: Id, target: Target, expiry: nat, i: Id)
    requires Adds(w, w', t, id, target, expiry) && i in w.records && RecordOk(w, i)
    ensures RecordOk(w', i)
  {
  }

  lemma OldThread(w: World, w': World, t: Tid, id: Id, target: Target, expiry: nat, o: Tid)
    requires Adds(w, w', t, id, target, expiry) && o in w.threads && o != t && ThreadOk(w, o, w.threads[o])
    ensures ThreadOk(w', o, w'.threads[o])
  {
  }

  lemma AddsKeeps(w: World, w': World, t: Tid, id: Id, target: Target, expiry: nat)
    requires Inv(w) && Adds(w, w', t, id, target, expiry) && MapsOk(w')
    ensures Inv(w')
  {
    NewRecordOk(w, w', t, id, target, expiry);
    NewThreadOk(w, w', t, id, target, expiry);
    forall i <- w'.records ensures RecordOk(w', i) { if i != id { OldRecord(w, w', t, id, target, expiry, i); } }
    forall o <- w'.threads ensures ThreadOk(w', o, w'.threads[o]) {
      if o != t { OldThread(w, w', t, id, target, expiry, o); }
    }
  }

  lemma FreeKeeps(w: World, t: Tid, target: Target, expiresAt: nat, seen: nat, id: Id)
    requires Inv(w) && CanPrepare(w, t, target, expiresAt, seen, id) && !w.maps.closed
    requires Admit(Cleaned(w.maps, w.now), w.capacity, target) == Free
    ensures Inv(DoPrepare(w, t, target, expiresAt, seen, id))
  {
    var w' := DoPrepare(w, t, target, expiresAt, seen, id);
    FreeMaps(w, t, target, expiresAt, seen, id);
    FreeAdds(w, t, target, expiresAt, seen, id);
    AddsKeeps(w, w', t, id, target, expiresAt);
  }

  lemma FreeMaps(w: World, t: Tid, target: Target, expiresAt: nat, seen: nat, id: Id)
    requires MapsOk(w) && CanPrepare(w, t, target, expiresAt, seen, id) && !w.maps.closed
    requires Admit(Cleaned(w.maps, w.now), w.capacity, target) == Free
    ensures MapsOk(DoPrepare(w, t, target, expiresAt, seen, id))
  {
    var cleaned := w.(maps := Cleaned(w.maps, w.now));
    CleanedMaps(w, cleaned);
    FreeSlots(cleaned, DoPrepare(w, t, target, expiresAt, seen, id), id, target, expiresAt);
  }

  lemma FreeAdds(w: World, t: Tid, target: Target, expiresAt: nat, seen: nat, id: Id)
    requires CanPrepare(w, t, target, expiresAt, seen, id) && !w.maps.closed
    requires Admit(Cleaned(w.maps, w.now), w.capacity, target) == Free
    ensures Adds(w, DoPrepare(w, t, target, expiresAt, seen, id), t, id, target, expiresAt)
  {
  }

  lemma FreeSlots(w: World, w': World, id: Id, target: Target, expiry: nat)
    requires MapsOk(w) && Admit(w.maps, w.capacity, target) == Free && id !in w.records
    requires w'.maps == Inserted(w.maps, id, target) && w'.records == w.records[id := NewRecord(target, expiry)]
    requires w'.capacity == w.capacity
    ensures MapsOk(w')
  {
    InsertedConsistent(w.maps, id, target, w.capacity);
  }

  lemma PrepareKeeps(w: World, t: Tid, target: Target, expiresAt: nat, seen: nat, id: Id)
    requires Inv(w) && CanPrepare(w, t, target, expiresAt, seen, id)
    ensures Inv(DoPrepare(w, t, target, expiresAt, seen, id))
  {
    if w.maps.closed {
      OnMapsKeeps(w, DoPrepare(w, t, target, expiresAt, seen, id), t);
    } else if Admit(Cleaned(w.maps, w.now), w.capacity, target) == Free {
      FreeKeeps(w, t, target, expiresAt, seen, id);
    } else {
      ResumeKeeps(w, t, target, expiresAt, seen, id);
    }
  }

  lemma ResumeKeeps(w: World, t: Tid, target: Target, expiresAt: nat, seen: nat, id: Id)
    requires Inv(w) && CanPrepare(w, t, target, expiresAt, seen, id) && !w.maps.closed
    requires Admit(Cleaned(w.maps, w.now), w.capacity, target) != Free
    ensures Inv(DoPrepare(w, t, target, expiresAt, seen, id))
  {
    var cleaned := Put(w, t, Idle).(maps := Cleaned(w.maps, w.now));
    SweptKeeps(w, cleaned, t);
    var found := Admit(cleaned.maps, w.capacity, target);
    if found.Found? && expiresAt < seen { FoundKeeps(cleaned, t, found.id, expiresAt, seen); }
  }

  lemma SweptKeeps(w: World, w': World, t: Tid)
    requires Inv(w) && PcOf(w, t).Idle? && w' == Put(w, t, Idle).(maps := Cleaned(w.maps, w.now))
    ensures Inv(w')
  {
    CleanedMaps(w, w');
    OnMapsKeeps(w, w', t);
  }

  lemma FoundKeeps(w: World, t: Tid, found: Id, expiresAt: nat, seen: nat)
    requires Inv(w) && t in w.threads && w.threads[t].Idle? && found in w.records
    requires MayHaveRead(w.records[found], seen) && expiresAt < seen
    ensures Inv(SetRecord(w, found, w.records[found].(expiry := expiresAt)))
  {
    HereFromInv(w, t, found);
    FoundLocal(w, t, found, expiresAt, seen);
    LocalKeeps(w, SetRecord(w, found, w.records[found].(expiry := expiresAt)), t, found);
  }

  lemma FoundLocal(w: World, t: Tid, found: Id, expiresAt: nat, seen: nat)
    requires Here(w, t, found) && t in w.threads && w.threads[t].Idle?
    requires MayHaveRead(w.records[found], seen) && expiresAt < seen
    ensures Local(w, SetRecord(w, found, w.records[found].(expiry := expiresAt)), t, found)
  {
  }

  // ------------------------------------------------------------- steps at one record

  lemma SameMaps(w: World, w': World, id: Id)
    requires MapsOk(w) && w'.maps == w.maps && w'.capacity == w.capacity && id in w.records && id in w'.records
    requires w'.records == w.records[id := w'.records[id]] && w'.records[id].target == w.records[id].target
    ensures MapsOk(w')
  {
  }

  /** The counter alone moves, between places that hold the same. */
  lemma CounterLocal(w: World, t: Tid, pc': Pc)
    requires !PcOf(w, t).Idle? && !PcOf(w, t).Shutting? && !PcOf(w, t).Calling? && !pc'.Calling?
    requires Here(w, t, PcOf(w, t).id)
    requires HoldsLock(pc') == HoldsLock(PcOf(w, t)) && (HoldsLock(pc') ==> pc'.id == PcOf(w, t).id)
    requires ThreadOk(w, t, pc')
    ensures Local(w, Put(w, t, pc'), t, PcOf(w, t).id)
  {
    SameMaps(w, Put(w, t, pc'), PcOf(w, t).id);
    CounterRecord(w, t, pc');
  }

  lemma CounterRecord(w: World, t: Tid, pc': Pc)
    requires !PcOf(w, t).Idle? && !PcOf(w, t).Shutting? && !PcOf(w, t).Calling? && !pc'.Calling?
    requires PcOf(w, t).id in w.records && RecordOk(w, PcOf(w, t).id)
    requires HoldsLock(pc') == HoldsLock(PcOf(w, t)) && (HoldsLock(pc') ==> pc'.id == PcOf(w, t).id)
    ensures RecordOk(Put(w, t, pc'), PcOf(w, t).id)
  {
  }

  lemma CommitFindLocal(w: World, t: Tid)
    requires CanCommitFind(w, t) && Here(w, t, PcOf(w, t).id)
    ensures Local(w, DoCommitFind(w, t), t, PcOf(w, t).id)
  {
    CounterLocal(w, t, if w.maps.closed then Idle else Sent(PcOf(w, t).id));
  }

  lemma GiveUpLocal(w: World, t: Tid)
    requires CanGiveUp(w, t) && Here(w, t, PcOf(w, t).id)
    ensures Local(w, DoGiveUp(w, t), t, PcOf(w, t).id)
  {
    CounterLocal(w, t, Idle);
  }

  lemma CommitLockedLocal(w: World, t: Tid)
    requires CanCommitLock(w, t) && Here(w, t, PcOf(w, t).id) && PcOf(DoCommitLock(w, t), t).Committing?
    ensures Local(w, DoCommitLock(w, t), t, PcOf(w, t).id)
  {
    SameMaps(w, DoCommitLock(w, t), PcOf(w, t).id);
  }

  lemma CommitLockLocal(w: World, t: Tid)
    requires CanCommitLock(w, t) && Here(w, t, PcOf(w, t).id)
    ensures Local(w, DoCommitLock(w, t), t, PcOf(w, t).id)
  {
    var pc' := DoCommitLock(w, t).threads[t];
    if pc'.Idle? { CounterLocal(w, t, Idle); } else { CommitLockedLocal(w, t); }
  }

  lemma CommitLocal(w: World, t: Tid, sentExpiry: Option<nat>, hash: bool, stale: bool)
    requires CanCommit(w, t, sentExpiry, hash, stale) && Here(w, t, PcOf(w, t).id)
    ensures Local(w, DoCommit(w, t, sentExpiry, hash, stale), t, PcOf(w, t).id)
  {
  }

  lemma LockLocal(w: World, t: Tid)
    requires CanLock(w, t) && Here(w, t, PcOf(w, t).id)
    ensures Local(w, DoLock(w, t), t, PcOf(w, t).id)
  {
    SameMaps(w, DoLock(w, t), PcOf(w, t).id);
  }

  lemma CheckLocal(w: World, t: Tid)
    requires CanCheck(w, t) && Here(w, t, PcOf(w, t).id)
    ensures Local(w, DoCheck(w, t), t, PcOf(w, t).id)
  {
  }

  lemma ReserveLocal(w: World, t: Tid)
    requires CanAct(w, t) && Here(w, t, PcOf(w, t).id) && PcOf(DoAct(w, t), t).Calling?
    ensures Local(w, DoAct(w, t), t, PcOf(w, t).id)
  {
    SameMaps(w, DoAct(w, t), PcOf(w, t).id);
    ReserveBudget(w, t);
    ReserveThread(w, t);
  }

  lemma ReserveBudget(w: World, t: Tid)
    requires CanAct(w, t) && Here(w, t, PcOf(w, t).id) && PcOf(DoAct(w, t), t).Calling?
    ensures BudgetOk(DoAct(w, t), PcOf(w, t).id)
  {
  }

  lemma ReserveThread(w: World, t: Tid)
    requires CanAct(w, t) && Here(w, t, PcOf(w, t).id) && PcOf(DoAct(w, t), t).Calling?
    ensures ThreadOk(DoAct(w, t), t, PcOf(DoAct(w, t), t)) && OnRecord(w, DoAct(w, t), t, PcOf(w, t).id)
  {
  }

  lemma ActLocal(w: World, t: Tid)
    requires CanAct(w, t) && Here(w, t, PcOf(w, t).id)
    ensures Local(w, DoAct(w, t), t, PcOf(w, t).id)
  {
    var pc' := PcOf(DoAct(w, t), t);
    if pc'.Calling? { ReserveLocal(w, t); } else { CounterLocal(w, t, pc'); }
  }

  lemma CalledBudget(w: World, t: Tid)
    requires CanCall(w, t, true) && Here(w, t, PcOf(w, t).id)
    ensures BudgetOk(DoCall(w, t, true), PcOf(w, t).id)
  {
  }

  lemma CalledLocal(w: World, t: Tid)
    requires CanCall(w, t, true) && Here(w, t, PcOf(w, t).id)
    ensures Local(w, DoCall(w, t, true), t, PcOf(w, t).id)
  {
    SameMaps(w, DoCall(w, t, true), PcOf(w, t).id);
    CalledBudget(w, t);
    CalledOnRecord(w, t);
  }

  lemma CalledOnRecord(w: World, t: Tid)
    requires CanCall(w, t, true) && Here(w, t, PcOf(w, t).id)
    ensures OnRecord(w, DoCall(w, t, true), t, PcOf(w, t).id)
  {
    if PcOf(w, t).kind == Code {
      assert DoCall(w, t, true).passwords == w.passwords;
    } else {
      assert DoCall(w, t, true).signIns == w.signIns;
    }
  }

  lemma CallLocal(w: World, t: Tid, provider: bool)
    requires CanCall(w, t, provider) && Here(w, t, PcOf(w, t).id)
    ensures Local(w, DoCall(w, t, provider), t, PcOf(w, t).id)
  {
    if provider { CalledLocal(w, t); } else { SameMaps(w, DoCall(w, t, provider), PcOf(w, t).id); }
  }

  lemma LearnedLocal(w: World, t: Tid, answer: Answer)
    requires CanAnswer(w, t, answer) && Here(w, t, PcOf(w, t).id) && (answer.Profile? || answer.PasswordNeeded?)
    ensures Local(w, DoAnswer(w, t, answer), t, PcOf(w, t).id)
  {
    SameMaps(w, DoAnswer(w, t, answer), PcOf(w, t).id);
    LearnedRecord(w, t, answer);
  }

  lemma LearnedRecord(w: World, t: Tid, answer: Answer)
    requires CanAnswer(w, t, answer) && Here(w, t, PcOf(w, t).id) && (answer.Profile? || answer.PasswordNeeded?)
    ensures RecordOk(DoAnswer(w, t, answer), PcOf(w, t).id)
    ensures ThreadOk(DoAnswer(w, t, answer), t, PcOf(DoAnswer(w, t, answer), t))
  {
  }

  lemma AnswerLocal(w: World, t: Tid, answer: Answer)
    requires CanAnswer(w, t, answer) && Here(w, t, PcOf(w, t).id)
    ensures Local(w, DoAnswer(w, t, answer), t, PcOf(w, t).id)
  {
    if answer.Profile? || answer.PasswordNeeded? { LearnedLocal(w, t, answer); } else {
      CounterLocal(w, t, DoAnswer(w, t, answer).threads[t]);
    }
  }

  lemma EndMaps(w: World, t: Tid, account: Option<Account>)
    requires CanEnd(w, t, account) && Here(w, t, PcOf(w, t).id)
    ensures MapsOk(DoEnd(w, t, account))
  {
    var id := PcOf(w, t).id;
    BuriedConsistent(w.maps, id, Stone(w.records[id].target.actor, w.now + w.ttl, account, account.None?));
  }

  lemma EndLocal(w: World, t: Tid, account: Option<Account>)
    requires CanEnd(w, t, account) && Here(w, t, PcOf(w, t).id)
    ensures Local(w, DoEnd(w, t, account), t, PcOf(w, t).id)
  {
    EndMaps(w, t, account);
    EndRecord(w, t, account);
  }

  lemma EndRecord(w: World, t: Tid, account: Option<Account>)
    requires CanEnd(w, t, account) && Here(w, t, PcOf(w, t).id)
    ensures RecordOk(DoEnd(w, t, account), PcOf(w, t).id)
    ensures OnRecord(w, DoEnd(w, t, account), t, PcOf(w, t).id)
  {
  }

  lemma KeepLocal(w: World, t: Tid)
    requires CanKeep(w, t) && Here(w, t, PcOf(w, t).id)
    ensures Local(w, DoKeep(w, t), t, PcOf(w, t).id)
  {
  }

  lemma UnlockLocal(w: World, t: Tid)
    requires CanUnlock(w, t) && Here(w, t, PcOf(w, t).id)
    ensures Local(w, DoUnlock(w, t), t, PcOf(w, t).id)
  {
  }

  lemma RolledBackMaps(w: World, t: Tid)
    requires CanRollback(w, t) && Here(w, t, PcOf(w, t).id) && PcOf(w, t).id in w.maps.challenges
    ensures MapsOk(DoRollback(w, t))
  {
    RemovedMaps(w, DoRollback(w, t), PcOf(w, t).id);
  }

  lemma RemovedMaps(w: World, w': World, id: Id)
    requires MapsOk(w) && id in w.maps.challenges && id in w'.records && w'.maps == Removed(w.maps, id)
    requires w'.capacity == w.capacity && w'.records == w.records[id := w'.records[id]]
    ensures MapsOk(w')
  {
    RemovedConsistent(w.maps, id);
  }

  lemma RolledBackLocal(w: World, t: Tid)
    requires CanRollback(w, t) && Here(w, t, PcOf(w, t).id) && PcOf(w, t).id in w.maps.challenges
    ensures Local(w, DoRollback(w, t), t, PcOf(w, t).id)
  {
    RolledBackMaps(w, t);
    RolledBackRecord(w, t);
    RemovedOnRecord(w, DoRollback(w, t), t, PcOf(w, t).id);
  }

  lemma RemovedOnRecord(w: World, w': World, t: Tid, id: Id)
    requires id in w.maps.challenges && id in w.records && id in w'.records && w'.maps == Removed(w.maps, id)
    requires w'.capacity == w.capacity && w'.records == w.records[id := w'.records[id]]
    requires w'.records[id].target == w.records[id].target && w'.records[id].firstExpiry == w.records[id].firstExpiry
    requires t in w'.threads && w'.threads == w.threads[t := w'.threads[t]]
    requires w'.signIns == w.signIns && w'.passwords == w.passwords
    ensures OnRecord(w, w', t, id)
  {
  }

  lemma RolledBackRecord(w: World, t: Tid)
    requires CanRollback(w, t) && Here(w, t, PcOf(w, t).id) && PcOf(w, t).id in w.maps.challenges
    ensures RecordOk(DoRollback(w, t), PcOf(w, t).id)
  {
  }

  lemma RollbackLocal(w: World, t: Tid)
    requires CanRollback(w, t) && Here(w, t, PcOf(w, t).id)
    ensures Local(w, DoRollback(w, t), t, PcOf(w, t).id)
  {
    if PcOf(w, t).id in w.maps.challenges { RolledBackLocal(w, t); } else { CounterLocal(w, t, Idle); }
  }

  lemma RemoveLocal(w: World, t: Tid, id: Id)
    requires CanRemove(w, t, id) && Here(w, t, id)
    ensures Local(w, DoRemove(w, t, id), t, id)
  {
    RemovedMaps(w, DoRemove(w, t, id), id);
    RemovedOnRecord(w, DoRemove(w, t, id), t, id);
  }

  lemma ClearLocal(w: World, t: Tid, id: Id)
    requires CanClear(w, t, id) && Here(w, t, id)
    ensures Local(w, DoClear(w, t, id), t, id)
  {
    SameMaps(w, DoClear(w, t, id), id);
  }

  // ----------------------------------------------------------------------- every step

  lemma CommitFindKeeps(w: World, t: Tid)
    requires Inv(w) && CanCommitFind(w, t)
    ensures Inv(DoCommitFind(w, t))
  {
    StandsAtRecord(w, t);
    CommitFindLocal(w, t);
    LocalKeeps(w, DoCommitFind(w, t), t, PcOf(w, t).id);
  }

  lemma GiveUpKeeps(w: World, t: Tid)
    requires Inv(w) && CanGiveUp(w, t)
    ensures Inv(DoGiveUp(w, t))
  {
    StandsAtRecord(w, t);
    GiveUpLocal(w, t);
    LocalKeeps(w, DoGiveUp(w, t), t, PcOf(w, t).id);
  }

  lemma CommitLockKeeps(w: World, t: Tid)
    requires Inv(w) && CanCommitLock(w, t)
    ensures Inv(DoCommitLock(w, t))
  {
    StandsAtRecord(w, t);
    CommitLockLocal(w, t);
    LocalKeeps(w, DoCommitLock(w, t), t, PcOf(w, t).id);
  }

  lemma CommitKeeps(w: World, t: Tid, sentExpiry: Option<nat>, hash: bool, stale: bool)
    requires Inv(w) && CanCommit(w, t, sentExpiry, hash, stale)
    ensures Inv(DoCommit(w, t, sentExpiry, hash, stale))
  {
    StandsAtRecord(w, t);
    CommitLocal(w, t, sentExpiry, hash, stale);
    LocalKeeps(w, DoCommit(w, t, sentExpiry, hash, stale), t, PcOf(w, t).id);
  }

  lemma RollbackKeeps(w: World, t: Tid)
    requires Inv(w) && CanRollback(w, t)
    ensures Inv(DoRollback(w, t))
  {
    StandsAtRecord(w, t);
    RollbackLocal(w, t);
    LocalKeeps(w, DoRollback(w, t), t, PcOf(w, t).id);
  }

  lemma LockKeeps(w: World, t: Tid)
    requires Inv(w) && CanLock(w, t)
    ensures Inv(DoLock(w, t))
  {
    StandsAtRecord(w, t);
    LockLocal(w, t);
    LocalKeeps(w, DoLock(w, t), t, PcOf(w, t).id);
  }

  lemma CheckKeeps(w: World, t: Tid)
    requires Inv(w) && CanCheck(w, t)
    ensures Inv(DoCheck(w, t))
  {
    StandsAtRecord(w, t);
    CheckLocal(w, t);
    LocalKeeps(w, DoCheck(w, t), t, PcOf(w, t).id);
  }

  lemma ActKeeps(w: World, t: Tid)
    requires Inv(w) && CanAct(w, t)
    ensures Inv(DoAct(w, t))
  {
    StandsAtRecord(w, t);
    ActLocal(w, t);
    LocalKeeps(w, DoAct(w, t), t, PcOf(w, t).id);
  }

  lemma CallKeeps(w: World, t: Tid, provider: bool)
    requires Inv(w) && CanCall(w, t, provider)
    ensures Inv(DoCall(w, t, provider))
  {
    StandsAtRecord(w, t);
    CallLocal(w, t, provider);
    LocalKeeps(w, DoCall(w, t, provider), t, PcOf(w, t).id);
  }

  lemma AnswerKeeps(w: World, t: Tid, answer: Answer)
    requires Inv(w) && CanAnswer(w, t, answer)
    ensures Inv(DoAnswer(w, t, answer))
  {
    StandsAtRecord(w, t);
    AnswerLocal(w, t, answer);
    LocalKeeps(w, DoAnswer(w, t, answer), t, PcOf(w, t).id);
  }

  lemma FinalizeKeeps(w: World, t: Tid)
    requires Inv(w) && CanFinalize(w, t)
    ensures Inv(DoFinalize(w, t))
  {
    StandsAtRecord(w, t);
    CounterLocal(w, t, DoFinalize(w, t).threads[t]);
    LocalKeeps(w, DoFinalize(w, t), t, PcOf(w, t).id);
  }

  lemma EndKeeps(w: World, t: Tid, account: Option<Account>)
    requires Inv(w) && CanEnd(w, t, account)
    ensures Inv(DoEnd(w, t, account))
  {
    StandsAtRecord(w, t);
    EndLocal(w, t, account);
    LocalKeeps(w, DoEnd(w, t, account), t, PcOf(w, t).id);
  }

  lemma KeepKeeps(w: World, t: Tid)
    requires Inv(w) && CanKeep(w, t)
    ensures Inv(DoKeep(w, t))
  {
    StandsAtRecord(w, t);
    KeepLocal(w, t);
    LocalKeeps(w, DoKeep(w, t), t, PcOf(w, t).id);
  }

  lemma UnlockKeeps(w: World, t: Tid)
    requires Inv(w) && CanUnlock(w, t)
    ensures Inv(DoUnlock(w, t))
  {
    StandsAtRecord(w, t);
    UnlockLocal(w, t);
    LocalKeeps(w, DoUnlock(w, t), t, PcOf(w, t).id);
  }

  lemma RemoveKeeps(w: World, t: Tid, id: Id)
    requires Inv(w) && CanRemove(w, t, id)
    ensures Inv(DoRemove(w, t, id))
  {
    HereFromInv(w, t, id);
    RemoveLocal(w, t, id);
    LocalKeeps(w, DoRemove(w, t, id), t, id);
  }

  lemma ClearKeeps(w: World, t: Tid, id: Id)
    requires Inv(w) && CanClear(w, t, id)
    ensures Inv(DoClear(w, t, id))
  {
    HereFromInv(w, t, id);
    ClearLocal(w, t, id);
    LocalKeeps(w, DoClear(w, t, id), t, id);
  }

  predicate Submits(step: Step) {
    step.Lock? || step.Check? || step.Act? || step.Call? || step.AnswerStep? || step.Finalize? || step.End? || step.Keep? || step.Unlock?
  }

  lemma OperationKeeps(w: World, step: Step)
    requires Inv(w) && Can(w, step) && Submits(step)
    ensures Inv(Do(w, step))
  {
    match step
    case Lock(t) => LockKeeps(w, t);
    case Check(t) => CheckKeeps(w, t);
    case Act(t) => ActKeeps(w, t);
    case Call(t, provider) => CallKeeps(w, t, provider);
    case AnswerStep(t, answer) => AnswerKeeps(w, t, answer);
    case Finalize(t) => FinalizeKeeps(w, t);
    case End(t, account) => EndKeeps(w, t, account);
    case Keep(t) => KeepKeeps(w, t);
    case Unlock(t) => UnlockKeeps(w, t);
  }

  predicate Starts(step: Step) {
    step.Prepare? || step.CommitFind? || step.GiveUp? || step.CommitLock? || step.Commit? || step.Rollback?
  }

  lemma StartKeeps(w: World, step: Step)
    requires Inv(w) && Can(w, step) && Starts(step)
    ensures Inv(Do(w, step))
  {
    match step
    case Prepare(t, target, expiresAt, seen, id) => PrepareKeeps(w, t, target, expiresAt, seen, id);
    case CommitFind(t) => CommitFindKeeps(w, t);
    case GiveUp(t) => GiveUpKeeps(w, t);
    case CommitLock(t) => CommitLockKeeps(w, t);
    case Commit(t, sentExpiry, hash, stale) => CommitKeeps(w, t, sentExpiry, hash, stale);
    case Rollback(t) => RollbackKeeps(w, t);
  }

  lemma StepKeeps(w: World, step: Step, w': World)
    requires Inv(w) && Takes(w, step, w')
    ensures Inv(w')
  {
    if Submits(step) { OperationKeeps(w, step); } else if Starts(step) { StartKeeps(w, step); } else {
      match step
      case Remove(t, id) => RemoveKeeps(w, t, id);
      case Clear(t, id) => ClearKeeps(w, t, id);
      case Tick(_) => TickKeeps(w, w');
      case Status(t) => StatusKeeps(w, t);
      case Find(t, kind, actor, id) => FindKeeps(w, t, kind, actor, id);
      case CloseAll(t) => CloseKeeps(w, t);
      case Finish(t) => FinishKeeps(w, t);
    }
  }
}

/**
 The steps of Start, Code, Password, Cancel, expiry and Shutdown, one per
 critical section of the registry mutex, per record mutex operation or per
 provider call.  An operation holds its record's mutex across provider calls.
 */
module ChallengeSteps {
  import opened Options
  import opened ChallengeState

  datatype Kind = Code | Password | Cancel

  datatype Pc =
    | Idle
    // Start: after Prepare created the record, after commit saw the registry open, under the record mutex
    | Sending(id: Id) | Sent(id: Id) | Committing(id: Id, seen: nat)
    // Operation; `since` is history: when it was admitted to its action
    | Waiting(kind: Kind, id: Id) | Held(kind: Kind, id: Id) | Acting(kind: Kind, id: Id, since: int)
    | Calling(kind: Kind, id: Id, since: int) | Answering(kind: Kind, id: Id, since: int)
    | Finalizing(id: Id) | Completing(id: Id) | Aborting(id: Id) | Ending(id: Id)
    // Shutdown, after it closed the registry
    | Shutting

  datatype World = World(
    now: int, capacity: nat, ttl: int, maps: Maps, records: map<Id, Record>, threads: map<Tid, Pc>,
    // history: provider calls per request ID
    signIns: map<Id, nat>, passwords: map<Id, nat>)

  function Initial(capacity: nat, ttl: int): World {
    World(0, capacity, ttl, NO_MAPS, map[], map[], map[], map[])
  }

  function PcOf(w: World, t: Tid): Pc { if t in w.threads then w.threads[t] else Idle }

  function Put(w: World, t: Tid, pc: Pc): World { w.(threads := w.threads[t := pc]) }

  function SetRecord(w: World, id: Id, r: Record): World { w.(records := w.records[id := r]) }

  function Calls(m: map<Id, nat>, id: Id): nat { if id in m then m[id] else 0 }

  predicate Unlocked(w: World, id: Id) { id in w.records && w.records[id].lock.None? }

  /** An operation admitted to its action; the record mutex is held. */
  predicate InAction(pc: Pc) {
    pc.Acting? || pc.Calling? || pc.Answering? || pc.Finalizing? || pc.Completing? || pc.Aborting?
  }

  predicate HoldsLock(pc: Pc) { InAction(pc) || pc.Committing? || pc.Held? || pc.Ending? }

  // -------------------------------------------------------------------------- Start

  /** The expiry Prepare compares with may have been read before a concurrent commit lowered it. */
  predicate MayHaveRead(r: Record, seen: nat) { r.expiry <= seen <= r.firstExpiry }

  predicate CanPrepare(w: World, t: Tid, target: Target, expiresAt: nat, seen: nat, id: Id) {
    && PcOf(w, t).Idle? && id !in w.records && expiresAt > 0
    && var found := Admit(Cleaned(w.maps, w.now), w.capacity, target);
       found.Found? ==> found.id in w.records && MayHaveRead(w.records[found.id], seen)
  }

  function DoPrepare(w: World, t: Tid, target: Target, expiresAt: nat, seen: nat, id: Id): World
    requires CanPrepare(w, t, target, expiresAt, seen, id)
  {
    if w.maps.closed then Put(w, t, Idle)
    else
      var cleaned := Put(w, t, Idle).(maps := Cleaned(w.maps, w.now));
      match Admit(cleaned.maps, w.capacity, target)
      case Found(found) =>
        if expiresAt < seen then SetRecord(cleaned, found, w.records[found].(expiry := expiresAt)) else cleaned
      case Free =>
        SetRecord(Put(cleaned, t, Sending(id)), id, NewRecord(target, expiresAt))
          .(maps := Inserted(cleaned.maps, id, target))
      case _ => cleaned
  }

  /** commit's section of the registry mutex. */
  predicate CanCommitFind(w: World, t: Tid) { PcOf(w, t).Sending? }

  function DoCommitFind(w: World, t: Tid): World
    requires CanCommitFind(w, t)
  {
    Put(w, t, if w.maps.closed then Idle else Sent(PcOf(w, t).id))
  }

  predicate CanCommitLock(w: World, t: Tid) { PcOf(w, t).Sent? && Unlocked(w, PcOf(w, t).id) }

  function DoCommitLock(w: World, t: Tid): World
    requires CanCommitLock(w, t)
  {
    var id := PcOf(w, t).id;
    var r := w.records[id];
    if id !in w.maps.challenges || r.ready || w.now >= r.expiry then Put(w, t, Idle)
    else SetRecord(Put(w, t, Committing(id, r.expiry)), id, r.(lock := Some(t)))
  }

  /** The provider's expiry is compared with what is there, or was there before a Prepare lowered it. */
  predicate CanCommit(w: World, t: Tid, sentExpiry: Option<nat>, hash: bool, stale: bool) {
    PcOf(w, t).Committing? && PcOf(w, t).id in w.records
  }

  function DoCommit(w: World, t: Tid, sentExpiry: Option<nat>, hash: bool, stale: bool): World
    requires CanCommit(w, t, sentExpiry, hash, stale)
  {
    var pc := PcOf(w, t);
    var r := w.records[pc.id].(lock := None);
    var seen := if stale then pc.seen else r.expiry;
    var expiry := if hash && sentExpiry.Some? && sentExpiry.value < seen then sentExpiry.value else r.expiry;
    SetRecord(Put(w, t, Idle), pc.id, r.(expiry := expiry, ready := hash && w.now < expiry))
  }

  /** SendCode failed or its result is refused: the reservation is rolled back. */
  predicate CanRollback(w: World, t: Tid) {
    (PcOf(w, t).Sending? || PcOf(w, t).Sent?) && Unlocked(w, PcOf(w, t).id)
  }

  function DoRollback(w: World, t: Tid): World
    requires CanRollback(w, t)
  {
    var id := PcOf(w, t).id;
    if id in w.maps.challenges then Put(w, t, Idle).(maps := Removed(w.maps, id)) else Put(w, t, Idle)
  }

  /** Start ends without touching the reservation, for instance because the durable abort failed. */
  predicate CanGiveUp(w: World, t: Tid) { PcOf(w, t).Sending? || PcOf(w, t).Sent? }

  function DoGiveUp(w: World, t: Tid): World { Put(w, t, Idle) }

  /** Status forgets what has expired. */
  predicate CanStatus(w: World, t: Tid) { PcOf(w, t).Idle? }

  function DoStatus(w: World, t: Tid): World {
    if w.maps.closed then Put(w, t, Idle) else Put(w, t, Idle).(maps := Cleaned(w.maps, w.now))
  }

  // ---------------------------------------------------------------------- Operation

  /** The answer to a request that has already ended. */
  function Replay(w: World, actor: Actor, id: Id): Option<Stone> {
    if !w.maps.closed && !(id in w.maps.challenges && w.maps.challenges[id].actor == actor)
       && id in w.maps.stones && w.maps.stones[id].actor == actor && w.now < w.maps.stones[id].expires
    then Some(w.maps.stones[id]) else None
  }

  predicate CanFind(w: World, t: Tid, kind: Kind, actor: Actor, id: Id) { PcOf(w, t).Idle? }

  function DoFind(w: World, t: Tid, kind: Kind, actor: Actor, id: Id): World {
    if !w.maps.closed && id in w.maps.challenges && w.maps.challenges[id].actor == actor
    then Put(w, t, Waiting(kind, id)) else Put(w, t, Idle)
  }

  predicate CanLock(w: World, t: Tid) { PcOf(w, t).Waiting? && Unlocked(w, PcOf(w, t).id) }

  function DoLock(w: World, t: Tid): World
    requires CanLock(w, t)
  {
    var pc := PcOf(w, t);
    SetRecord(Put(w, t, Held(pc.kind, pc.id)), pc.id, w.records[pc.id].(lock := Some(t)))
  }

  predicate CanCheck(w: World, t: Tid) { PcOf(w, t).Held? && PcOf(w, t).id in w.records }

  function DoCheck(w: World, t: Tid): World
    requires CanCheck(w, t)
  {
    var pc := PcOf(w, t);
    var r := w.records[pc.id];
    var admitted := pc.id in w.maps.challenges && !w.maps.closed && w.now < r.expiry && (r.ready || r.pending);
    Put(w, t, if admitted then Acting(pc.kind, pc.id, w.now) else Ending(pc.id))
  }

  predicate CanAct(w: World, t: Tid) { PcOf(w, t).Acting? && PcOf(w, t).id in w.records }

  function DoAct(w: World, t: Tid): World
    requires CanAct(w, t)
  {
    var pc := PcOf(w, t);
    var r := w.records[pc.id];
    if pc.kind == Cancel then Put(w, t, Aborting(pc.id))
    else if r.pending then Put(w, t, Finalizing(pc.id))
    else if r.stage != (if pc.kind == Code then CodeStage else PasswordStage) then Put(w, t, Ending(pc.id))
    else
      var (reserved, ok) := if pc.kind == Code then ReserveCode(r) else ReservePassword(r);
      if ok then SetRecord(Put(w, t, Calling(pc.kind, pc.id, pc.since)), pc.id, reserved) else Put(w, t, Ending(pc.id))
  }

  /** The provider is called, or there is none. */
  predicate CanCall(w: World, t: Tid, provider: bool) { PcOf(w, t).Calling? }

  function DoCall(w: World, t: Tid, provider: bool): World
    requires CanCall(w, t, provider)
  {
    var pc := PcOf(w, t);
    if !provider then Put(w, t, Aborting(pc.id))
    else
      var w' := Put(w, t, Answering(pc.kind, pc.id, pc.since));
      if pc.kind == Code then w'.(signIns := w.signIns[pc.id := Calls(w.signIns, pc.id) + 1])
      else w'.(passwords := w.passwords[pc.id := Calls(w.passwords, pc.id) + 1])
  }

  /** Refused covers a cancelled context and every failure that keeps the challenge. */
  datatype Answer = Profile | PasswordNeeded | Refused | Fatal

  predicate CanAnswer(w: World, t: Tid, answer: Answer) {
    && PcOf(w, t).Answering? && PcOf(w, t).id in w.records && (answer == PasswordNeeded ==> PcOf(w, t).kind == Code)
  }

  function DoAnswer(w: World, t: Tid, answer: Answer): World
    requires CanAnswer(w, t, answer)
  {
    var id := PcOf(w, t).id;
    match answer
    case Profile => SetRecord(Put(w, t, Finalizing(id)), id, SetPending(w.records[id]))
    case PasswordNeeded => SetRecord(Put(w, t, Ending(id)), id, AskPassword(w.records[id]))
    case Refused => Put(w, t, Ending(id))
    case Fatal => Put(w, t, Aborting(id))
  }

  /** finalize asks once more whether the challenge has expired before it makes the account durable. */
  predicate CanFinalize(w: World, t: Tid) { PcOf(w, t).Finalizing? && PcOf(w, t).id in w.records }

  function DoFinalize(w: World, t: Tid): World
    requires CanFinalize(w, t)
  {
    var id := PcOf(w, t).id;
    Put(w, t, if w.now < w.records[id].expiry then Completing(id) else Ending(id))
  }

  predicate CanEnd(w: World, t: Tid, account: Option<Account>) {
    (if account.Some? then PcOf(w, t).Completing? else PcOf(w, t).Aborting?)
    && PcOf(w, t).id in w.records && PcOf(w, t).id in w.maps.challenges
  }

  /** Complete and Abort */
  function DoEnd(w: World, t: Tid, account: Option<Account>): World
    requires CanEnd(w, t, account)
  {
    var id := PcOf(w, t).id;
    var stone := Stone(w.records[id].target.actor, w.now + w.ttl, account, account.None?);
    SetRecord(Put(w, t, Ending(id)), id, Forgotten(w.records[id])).(maps := Buried(w.maps, id, stone))
  }

  /** The durable finalization or abort failed; the challenge stays. */
  predicate CanKeep(w: World, t: Tid) { PcOf(w, t).Completing? || PcOf(w, t).Aborting? }

  function DoKeep(w: World, t: Tid): World requires CanKeep(w, t) { Put(w, t, Ending(PcOf(w, t).id)) }

  predicate CanUnlock(w: World, t: Tid) { PcOf(w, t).Ending? && PcOf(w, t).id in w.records }

  function DoUnlock(w: World, t: Tid): World
    requires CanUnlock(w, t)
  {
    var id := PcOf(w, t).id;
    SetRecord(Put(w, t, Idle), id, w.records[id].(lock := None))
  }

  /** Remove, after an expired or shut down challenge was aborted durably. */
  predicate CanRemove(w: World, t: Tid, id: Id) {
    (PcOf(w, t).Idle? || PcOf(w, t).Shutting?) && id in w.maps.challenges && Unlocked(w, id)
  }

  function DoRemove(w: World, t: Tid, id: Id): World
    requires CanRemove(w, t, id)
  {
    SetRecord(Put(w, t, PcOf(w, t)), id, Forgotten(w.records[id])).(maps := Removed(w.maps, id))
  }

  // ------------------------------------------------------------------------ Shutdown

  predicate CanClose(w: World, t: Tid) { PcOf(w, t).Idle? }

  function DoClose(w: World, t: Tid): World { Put(w, t, Shutting).(maps := w.maps.(closed := true)) }

  predicate CanClear(w: World, t: Tid, id: Id) {
    PcOf(w, t).Shutting? && id in w.maps.challenges && Unlocked(w, id)
  }

  function DoClear(w: World, t: Tid, id: Id): World
    requires CanClear(w, t, id)
  {
    SetRecord(Put(w, t, Shutting), id, ShutDown(w.records[id]))
  }

  predicate CanFinish(w: World, t: Tid) { PcOf(w, t).Shutting? }

  function DoFinish(w: World, t: Tid): World { Put(w, t, Idle).(maps := w.maps.(stones := map[])) }

  // ------------------------------------------------------------------------ one step

  datatype Step =
    | Tick(elapsed: nat)
    | Prepare(t: Tid, target: Target, expiresAt: nat, seen: nat, id: Id)
    | CommitFind(t: Tid) | CommitLock(t: Tid) | Commit(t: Tid, sentExpiry: Option<nat>, hash: bool, stale: bool)
    | Rollback(t: Tid) | GiveUp(t: Tid) | Status(t: Tid)
    | Find(t: Tid, kind: Kind, actor: Actor, id: Id) | Lock(t: Tid) | Check(t: Tid) | Act(t: Tid)
    | Call(t: Tid, provider: bool) | AnswerStep(t: Tid, answer: Answer)
    | Finalize(t: Tid) | End(t: Tid, account: Option<Account>) | Keep(t: Tid) | Unlock(t: Tid) | Remove(t: Tid, id: Id)
    | CloseAll(t: Tid) | Clear(t: Tid, id: Id) | Finish(t: Tid)

  predicate Can(w: World, step: Step) {
    match step
    case Tick(_) => true
    case Prepare(t, target, expiresAt, seen, id) => CanPrepare(w, t, target, expiresAt, seen, id)
    case CommitFind(t) => CanCommitFind(w, t)
    case CommitLock(t) => CanCommitLock(w, t)
    case Commit(t, sentExpiry, hash, stale) => CanCommit(w, t, sentExpiry, hash, stale)
    case Rollback(t) => CanRollback(w, t)
    case GiveUp(t) => CanGiveUp(w, t)
    case Status(t) => CanStatus(w, t)
    case Find(t, kind, actor, id) => CanFind(w, t, kind, actor, id)
    case Lock(t) => CanLock(w, t)
    case Check(t) => CanCheck(w, t)
    case Act(t) => CanAct(w, t)
    case Call(t, provider) => CanCall(w, t, provider)
    case AnswerStep(t, answer) => CanAnswer(w, t, answer)
    case Finalize(t) => CanFinalize(w, t)
    case End(t, account) => CanEnd(w, t, account)
    case Keep(t) => CanKeep(w, t)
    case Unlock(t) => CanUnlock(w, t)
    case Remove(t, id) => CanRemove(w, t, id)
    case CloseAll(t) => CanClose(w, t)
    case Clear(t, id) => CanClear(w, t, id)
    case Finish(t) => CanFinish(w, t)
  }

  function Do(w: World, step: Step): World
    requires Can(w, step)
  {
    match step
    case Tick(elapsed) => w.(now := w.now + elapsed)
    case Prepare(t, target, expiresAt, seen, id) => DoPrepare(w, t, target, expiresAt, seen, id)
    case CommitFind(t) => DoCommitFind(w, t)
    case CommitLock(t) => DoCommitLock(w, t)
    case Commit(t, sentExpiry, hash, stale) => DoCommit(w, t, sentExpiry, hash, stale)
    case Rollback(t) => DoRollback(w, t)
    case GiveUp(t) => DoGiveUp(w, t)
    case Status(t) => DoStatus(w, t)
    case Find(t, kind, actor, id) => DoFind(w, t, kind, actor, id)
    case Lock(t) => DoLock(w, t)
    case Check(t) => DoCheck(w, t)
    case Act(t) => DoAct(w, t)
    case Call(t, provider) => DoCall(w, t, provider)
    case AnswerStep(t, answer) => DoAnswer(w, t, answer)
    case Finalize(t) => DoFinalize(w, t)
    case End(t, account) => DoEnd(w, t, account)
    case Keep(t) => DoKeep(w, t)
    case Unlock(t) => DoUnlock(w, t)
    case Remove(t, id) => DoRemove(w, t, id)
    case CloseAll(t) => DoClose(w, t)
    case Clear(t, id) => DoClear(w, t, id)
    case Finish(t) => DoFinish(w, t)
  }

  ghost predicate Takes(w: World, step: Step, w': World) { Can(w, step) && w' == Do(w, step) }
}

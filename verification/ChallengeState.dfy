/**
 Phone-authentication challenges (application/operatoraccountauth): the
 registry's three maps and tombstones, and the records behind them.
 */
module ChallengeState {
  import opened Options
  import opened Sets

  type Id = nat
  type Tid = nat
  type Actor = nat
  type Account = nat

  /** An account of an actor that is being authenticated. */
  datatype Target = Target(actor: Actor, account: Account, version: nat)

  /** Cleared is the empty stage that Shutdown leaves behind. */
  datatype Stage = CodeStage | PasswordStage | Cleared

  /** terminalResult: a completed account, or an abort. */
  datatype Stone = Stone(actor: Actor, expires: int, account: Option<Account>, aborted: bool)

  /**
   challengeRecord; an expiry of 0 is the zero time.  The last three fields are history: the expiry at creation,
   whether a profile was ever pending and whether a password was ever asked for.
   */
  datatype Record = Record(
    target: Target, stage: Stage, expiry: nat, ready: bool, codeAttempts: nat, passwordAttempts: nat, pending: bool,
    lock: Option<Tid>, firstExpiry: nat, hadProfile: bool, hadPassword: bool)

  const MAX_CODE_ATTEMPTS := 5
  const MAX_PASSWORD_ATTEMPTS := 5

  function NewRecord(target: Target, expiry: nat): Record {
    Record(target, CodeStage, expiry, false, 0, 0, false, None, expiry, false, false)
  }

  // ------------------------------------------------------------- under the registry mutex

  datatype Maps = Maps(
    challenges: map<Id, Target>, actorSlots: map<Actor, Id>, targetSlots: map<Target, Id>, stones: map<Id, Stone>,
    closed: bool)

  const NO_MAPS := Maps(map[], map[], map[], map[], false)

  /** At most one live challenge per actor, found through each of the three maps; live and ended are disjoint. */
  ghost predicate Consistent(m: Maps) {
    && (forall id <- m.challenges ::
          && m.challenges[id].actor in m.actorSlots && m.actorSlots[m.challenges[id].actor] == id
          && m.challenges[id] in m.targetSlots && m.targetSlots[m.challenges[id]] == id
          && id !in m.stones)
    && (forall a <- m.actorSlots :: m.actorSlots[a] in m.challenges && m.challenges[m.actorSlots[a]].actor == a)
    && (forall t <- m.targetSlots :: m.targetSlots[t] in m.challenges && m.challenges[m.targetSlots[t]] == t)
  }

  /** cleanupLocked */
  function Cleaned(m: Maps, now: int): Maps {
    m.(stones := map id | id in m.stones && now < m.stones[id].expires :: m.stones[id])
  }

  function Inserted(m: Maps, id: Id, target: Target): Maps {
    m.(challenges := m.challenges[id := target], actorSlots := m.actorSlots[target.actor := id],
       targetSlots := m.targetSlots[target := id])
  }

  /** removeLocked */
  function Removed(m: Maps, id: Id): Maps
    requires id in m.challenges
  {
    var target := m.challenges[id];
    m.(challenges := m.challenges - {id},
       actorSlots := if target.actor in m.actorSlots && m.actorSlots[target.actor] == id
                     then m.actorSlots - {target.actor} else m.actorSlots,
       targetSlots := if target in m.targetSlots && m.targetSlots[target] == id
                      then m.targetSlots - {target} else m.targetSlots)
  }

  /** removeWithTombstone */
  function Buried(m: Maps, id: Id, stone: Stone): Maps
    requires id in m.challenges
  {
    Removed(m, id).(stones := m.stones[id := stone])
  }

  /** How Prepare finds the slots; `Taken` and `Found` name the record whose expiry decides. */
  datatype Admission = Closed | Found(id: Id) | Taken(id: Id) | Full | Free

  function Admit(m: Maps, capacity: nat, target: Target): Admission {
    if m.closed then Closed
    else if target in m.targetSlots && m.targetSlots[target] in m.challenges then Found(m.targetSlots[target])
    else if target.actor in m.actorSlots && m.actorSlots[target.actor] in m.challenges then Taken(m.actorSlots[target.actor])
    else if |m.challenges| + |m.stones| >= capacity then Full
    else Free
  }

  // -------------------------------------------------------------- under the record mutex

  function ReserveCode(r: Record): (Record, bool) {
    if r.codeAttempts >= MAX_CODE_ATTEMPTS then (r, false) else (r.(codeAttempts := r.codeAttempts + 1), true)
  }

  function ReservePassword(r: Record): (Record, bool) {
    if r.passwordAttempts >= MAX_PASSWORD_ATTEMPTS then (r, false)
    else (r.(passwordAttempts := r.passwordAttempts + 1), true)
  }

  function SetPending(r: Record): Record { r.(pending := true, ready := false, hadProfile := true) }

  function AskPassword(r: Record): Record { r.(stage := PasswordStage, hadPassword := true) }

  function Forgotten(r: Record): Record { r.(ready := false, pending := false) }

  /** clearShutdownState */
  function ShutDown(r: Record): Record {
    r.(stage := Cleared, expiry := 0, ready := false, codeAttempts := 0, passwordAttempts := 0, pending := false)
  }

  // --------------------------------------------------------------------- lemmas

  lemma CleanedSize(m: Maps, now: int)
    ensures |Cleaned(m, now).stones| <= |m.stones|
  {
    var kept := Cleaned(m, now).stones;
    assert kept.Keys <= m.stones.Keys;
    SubsetSize(kept.Keys, m.stones.Keys);
  }

  lemma CleanedConsistent(m: Maps, now: int)
    requires Consistent(m)
    ensures Consistent(Cleaned(m, now))
  {
  }

  lemma InsertedConsistent(m: Maps, id: Id, target: Target, capacity: nat)
    requires Consistent(m) && Admit(m, capacity, target) == Free && id !in m.challenges && id !in m.stones
    ensures Consistent(Inserted(m, id, target))
    ensures |Inserted(m, id, target).challenges| == |m.challenges| + 1
  {
    InsertedSize(m.challenges, id, target);
  }

  lemma InsertedSize(challenges: map<Id, Target>, id: Id, target: Target)
    requires id !in challenges
    ensures |challenges[id := target]| == |challenges| + 1
  {
    var more := challenges[id := target];
    assert more.Keys == challenges.Keys + {id};
    assert |more| == |more.Keys| && |challenges| == |challenges.Keys|;
  }

  lemma RemovedConsistent(m: Maps, id: Id)
    requires Consistent(m) && id in m.challenges
    ensures Consistent(Removed(m, id)) && |Removed(m, id).challenges| == |m.challenges| - 1
  {
  }

  /** Ending a challenge trades one live ID for one ended ID: the shared capacity is not exceeded. */
  lemma BuriedConsistent(m: Maps, id: Id, stone: Stone)
    requires Consistent(m) && id in m.challenges
    ensures Consistent(Buried(m, id, stone))
    ensures |Buried(m, id, stone).challenges| + |Buried(m, id, stone).stones| == |m.challenges| + |m.stones|
  {
    RemovedConsistent(m, id);
    var m' := Buried(m, id, stone);
    assert m'.stones.Keys == m.stones.Keys + {id};
    assert |m'.stones| == |m'.stones.Keys| && |m.stones| == |m.stones.Keys|;
  }
}

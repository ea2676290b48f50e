/** The registry's maps and one challenge record, in place. */
module ChallengeRegistry {
  import opened Options
  import opened ChallengeState

  class Registry {
    var challenges: map<Id, Target>
    var actorSlots: map<Actor, Id>
    var targetSlots: map<Target, Id>
    var tombstones: map<Id, Stone>
    var closed: bool
    const capacity: nat

    ghost function Value(): Maps
      reads this
    {
      Maps(challenges, actorSlots, targetSlots, tombstones, closed)
    }

    constructor (capacity: nat)
      ensures Value() == NO_MAPS && Consistent(Value()) && this.capacity == capacity
    {
      this.capacity := capacity;
      challenges, actorSlots, targetSlots, tombstones, closed := map[], map[], map[], map[], false;
    }

    method CloseAdmission()
      modifies this
      ensures Value() == old(Value()).(closed := true)
    {
      closed := true;
    }

    method ClearTombstones()
      modifies this
      ensures Value() == old(Value()).(stones := map[])
    {
      tombstones := map[];
    }

    /** cleanupLocked: one pass over the tombstones in any order. */
    method Cleanup(now: int)
      modifies this
      ensures Value() == Cleaned(old(Value()), now)
    {
      var todo := tombstones.Keys;
      while todo != {}
        invariant todo <= old(tombstones).Keys
        invariant Value() == old(Value()).(stones := tombstones)
        invariant tombstones == map id | id in old(tombstones) && (id in todo || now < old(tombstones)[id].expires)
                                  :: old(tombstones)[id]
        decreases |todo|
      {
        var id :| id in todo;
        todo := todo - {id};
        if now >= tombstones[id].expires {
          tombstones := tombstones - {id};
        }
      }
    }

    /** The slots of Prepare; a free slot is filled at once. */
    method Prepare(now: int, target: Target, drawn: Id) returns (admission: Admission)
      requires Consistent(Value()) && drawn !in challenges && drawn !in tombstones
      modifies this
      ensures admission == if old(closed) then Closed else Admit(Cleaned(old(Value()), now), capacity, target)
      ensures Value() == if old(closed) then old(Value())
                         else if admission == Free then Inserted(Cleaned(old(Value()), now), drawn, target)
                         else Cleaned(old(Value()), now)
      ensures Consistent(Value())
      ensures |old(challenges)| + |old(tombstones)| <= capacity ==> |challenges| + |tombstones| <= capacity
    {
      if closed {
        return Closed;
      }
      CleanedConsistent(Value(), now);
      CleanedSize(Value(), now);
      Cleanup(now);
      if target in targetSlots && targetSlots[target] in challenges {
        return Found(targetSlots[target]);
      }
      if target.actor in actorSlots && actorSlots[target.actor] in challenges {
        return Taken(actorSlots[target.actor]);
      }
      if |challenges| + |tombstones| >= capacity {
        return Full;
      }
      InsertedConsistent(Value(), drawn, target, capacity);
      challenges := challenges[drawn := target];
      actorSlots := actorSlots[target.actor := drawn];
      targetSlots := targetSlots[target := drawn];
      admission := Free;
    }

    /** removeLocked */
    method Remove(id: Id) returns (removed: bool)
      requires Consistent(Value())
      modifies this
      ensures removed <==> id in old(challenges)
      ensures Value() == if removed then Removed(old(Value()), id) else old(Value())
      ensures Consistent(Value()) && |challenges| == |old(challenges)| - (if removed then 1 else 0)
    {
      if id !in challenges {
        return false;
      }
      RemovedConsistent(Value(), id);
      var target := challenges[id];
      challenges := challenges - {id};
      if target.actor in actorSlots && actorSlots[target.actor] == id {
        actorSlots := actorSlots - {target.actor};
      }
      if target in targetSlots && targetSlots[target] == id {
        targetSlots := targetSlots - {target};
      }
      removed := true;
    }

    method RemoveWithTombstone(id: Id, stone: Stone)
      requires Consistent(Value())
      modifies this
      ensures Value() == if id in old(challenges) then Buried(old(Value()), id, stone) else old(Value())
      ensures Consistent(Value()) && |challenges| + |tombstones| == |old(challenges)| + |old(tombstones)|
    {
      if id in challenges { BuriedConsistent(Value(), id, stone); }
      var removed := Remove(id);
      if !removed {
        return;
      }
      tombstones := tombstones[id := stone];
    }
  }

  class ChallengeRecord {
    var stage: Stage
    var ready: bool
    var codeAttempts: nat
    var passwordAttempts: nat
    var pending: bool

    /** The fields guarded by the record mutex, as they appear in a Record. */
    ghost predicate Shows(r: Record)
      reads this
    {
      && r.stage == stage && r.ready == ready && r.pending == pending
      && r.codeAttempts == codeAttempts && r.passwordAttempts == passwordAttempts
    }

    constructor (ghost target: Target, ghost expiry: nat)
      ensures Shows(NewRecord(target, expiry))
    {
      stage, ready, codeAttempts, passwordAttempts, pending := CodeStage, false, 0, 0, false;
    }

    method ReserveCodeAttempt(ghost r: Record) returns (reserved: bool)
      requires Shows(r)
      modifies this
      ensures Shows(ReserveCode(r).0) && reserved == ReserveCode(r).1
    {
      if codeAttempts >= MAX_CODE_ATTEMPTS {
        return false;
      }
      codeAttempts := codeAttempts + 1;
      reserved := true;
    }

    method ReservePasswordAttempt(ghost r: Record) returns (reserved: bool)
      requires Shows(r)
      modifies this
      ensures Shows(ReservePassword(r).0) && reserved == ReservePassword(r).1
    {
      if passwordAttempts >= MAX_PASSWORD_ATTEMPTS {
        return false;
      }
      passwordAttempts := passwordAttempts + 1;
      reserved := true;
    }

    method SetPendingProfile(ghost r: Record)
      requires Shows(r)
      modifies this
      ensures Shows(SetPending(r))
    {
      pending := true;
      ready := false;
    }

    method SetPasswordStage(ghost r: Record)
      requires Shows(r)
      modifies this
      ensures Shows(AskPassword(r))
    {
      stage := PasswordStage;
    }

    method ClearShutdownState(ghost r: Record)
      requires Shows(r)
      modifies this
      ensures Shows(ShutDown(r))
    {
      stage := Cleared;
      ready := false;
      codeAttempts := 0;
      passwordAttempts := 0;
      pending := false;
    }
  }
}

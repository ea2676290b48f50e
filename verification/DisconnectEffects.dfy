/** What each step of a disconnect or a recovery does, and that both get an account disconnected. */
module DisconnectEffects {
  import opened Targets
  import opened Accounts
  import opened Disconnects
  import opened Traces

  function Moved(db: Db, t: Tid, pc: Pc): Db { db.(threads := db.threads[t := pc]) }

  predicate OwesLogout(a: Account) { a.status == Disconnecting && a.remoteLogoutRequired }

  /** The intent that a signed-in account becomes. */
  function Intent(a: Account): Account {
    a.(status := Disconnecting, version := a.version + 1, authExpiresAt := 0, failureCode := NoFailure, remoteLogoutRequired := true)
  }

  function Gone(a: Account): Account {
    a.(status := Disconnected, version := a.version + 1, authExpiresAt := 0, failureCode := NoFailure, remoteLogoutRequired := false)
  }

  /** Disconnect begins for a signed-in account and resumes a standing intent; recovery takes up standing intents only. */
  lemma LoadsExactly(db: Db, t: Tid, id: nat, recovering: bool, db': Db)
    requires Takes(db, Load(t, id, recovering), db')
    ensures var a := db.rows[id];
            db' == Moved(db, t, if OwesLogout(a) then Revoking(a, recovering)
                                else if !recovering && a.status in {Active, ReauthRequired} && a.version != 0xFFFF_FFFF_FFFF_FFFF
                                then Intending(Intent(a), a.version) else Idle)
  {
  }

  /** The row is still at the expected version, in a state from which `next` may come. */
  predicate Swaps(db: Db, next: Account, expected: nat) {
    && expected < 0x7FFF_FFFF_FFFF_FFFF && next.version == expected + 1
    && next.id in db.rows && db.rows[next.id].version == expected
    && var status := db.rows[next.id].status;
       match next.status
       case Disconnecting => status == Authenticating || status == Active || status == ReauthRequired
       case Disconnected => status == Disconnecting
       case Authenticating => status == Disconnected || status == ReauthRequired
       case Active => status == Authenticating
       case ReauthRequired => status == Active
  }

  /** A write takes effect exactly if nothing moved the account since it was read. */
  lemma WritesExactly(db: Db, t: Tid, step: Step, db': Db)
    requires Takes(db, step, db') && (step == PersistIntent(t) || step == Complete(t))
    ensures var pc := PcOf(db, t);
            if Swaps(db, pc.next, pc.expected) then
              db' == Moved(db, t, if step.Complete? then Idle else Revoking(pc.next, false)).(rows := db.rows[pc.next.id := pc.next])
            else db' == Moved(db, t, Idle)
  {
  }

  /** Only a converged revoke goes on; recovery reads the account again before it completes it. */
  lemma RevokesExactly(db: Db, t: Tid, converged: bool, db': Db)
    requires Takes(db, Revoke(t, converged), db') && OwesLogout(PcOf(db, t).intent) && PcOf(db, t).intent.version < 0xFFFF_FFFF_FFFF_FFFF
    ensures var pc := PcOf(db, t);
            if !converged then db' == Moved(db, t, Idle)
            else
              && db'.converged == db.converged + {(pc.intent.id, pc.intent.version)} && db'.rows == db.rows
              && PcOf(db', t) == if pc.recovering then Reloading(pc.intent) else Completing(Gone(pc.intent), pc.intent.version)
  {
  }

  lemma ReloadsExactly(db: Db, t: Tid, db': Db)
    requires Takes(db, Reload(t), db') && PcOf(db, t).intent.version < 0xFFFF_FFFF_FFFF_FFFF
    ensures var intent := PcOf(db, t).intent;
            var a := db.rows[intent.id];
            db' == Moved(db, t, if OwesLogout(a) && a.version == intent.version then Completing(Gone(a), a.version) else Idle)
  {
  }

  /** Authentication moves an account only from the state and version it expects, and never one that owes a logout. */
  lemma StatementsExactly(db: Db, id: nat, s: Statement, db': Db)
    requires Inv(db) && Takes(db, Execute(id, s), db') && !s.Insert?
    ensures var a, b := db.rows[id], db'.rows[id];
            && db'.rows == db.rows[id := b] && db'.threads == db.threads && b.version == a.version + 1 && !OwesLogout(a)
            && match s
               case Resume(expiresAt) =>
                 a.status in {Disconnected, ReauthRequired} && b.status == Authenticating && b.authExpiresAt == expiresAt
               case Finalize(expected, user) =>
                 a.status == Authenticating && a.version == expected && b.status == Active && b.telegramUserId == user
               case BeginAbort(expected) =>
                 a.status == Authenticating && a.version == expected && b.status == Disconnecting && !b.remoteLogoutRequired
               case CompleteAbort(expected) =>
                 a.status == Disconnecting && a.version == expected && b.status == Disconnected
               case Insert(_, _) => true
  {
  }

  // ------------------------------------------------------------------- whole commands

  lemma IntentIsPersisted(db: Db, t: Tid, id: nat) returns (db': Db)
    requires PcOf(db, t).Idle? && id in db.rows && db.rows[id].id == id
    requires db.rows[id].status in {Active, ReauthRequired} && db.rows[id].version < 0x7FFF_FFFF_FFFF_FFFE
    ensures Leads(Takes, db, [Load(t, id, false), PersistIntent(t)], db')
    ensures db' == Moved(db, t, Revoking(Intent(db.rows[id]), false)).(rows := db.rows[id := Intent(db.rows[id])])
  {
    var d1 := Do(db, Load(t, id, false));
    LoadsExactly(db, t, id, false, d1);
    db' := Do(d1, PersistIntent(t));
    WritesExactly(d1, t, PersistIntent(t), db');
    Two(Takes, db, Load(t, id, false), d1, PersistIntent(t), db');
  }

  lemma RevokedIsCompleted(db: Db, t: Tid, id: nat) returns (db': Db)
    requires id in db.rows && PcOf(db, t) == Revoking(db.rows[id], false) && db.rows[id].id == id
    requires OwesLogout(db.rows[id]) && db.rows[id].version < 0x7FFF_FFFF_FFFF_FFFF
    ensures Leads(Takes, db, [Revoke(t, true), Complete(t)], db')
    ensures db'.rows == db.rows[id := Gone(db.rows[id])] && PcOf(db', t).Idle?
    ensures db'.converged == db.converged + {(id, db.rows[id].version)}
  {
    var d1 := Do(db, Revoke(t, true));
    RevokesExactly(db, t, true, d1);
    db' := Do(d1, Complete(t));
    WritesExactly(d1, t, Complete(t), db');
    Two(Takes, db, Revoke(t, true), d1, Complete(t), db');
  }

  /** Undisturbed, a disconnect whose revoke converges takes a signed-in account two versions on, to disconnected. */
  lemma DisconnectCompletes(db: Db, t: Tid, id: nat) returns (db': Db)
    requires PcOf(db, t).Idle? && id in db.rows && db.rows[id].id == id
    requires db.rows[id].status in {Active, ReauthRequired} && db.rows[id].version < 0x7FFF_FFFF_FFFF_FFFE
    ensures Leads(Takes, db, [Load(t, id, false), PersistIntent(t)] + [Revoke(t, true), Complete(t)], db')
    ensures db'.rows == db.rows[id := Gone(Intent(db.rows[id]))] && PcOf(db', t).Idle?
    ensures db'.converged == db.converged + {(id, db.rows[id].version + 1)}
  {
    var intended := IntentIsPersisted(db, t, id);
    db' := RevokedIsCompleted(intended, t, id);
    Concat(Takes, db, [Load(t, id, false), PersistIntent(t)], intended, [Revoke(t, true), Complete(t)], db');
  }

  /** Undisturbed, recovery disconnects a standing intent whose revoke converges. */
  lemma RecoveryCompletes(db: Db, t: Tid, id: nat) returns (db': Db)
    requires PcOf(db, t).Idle? && id in db.rows && db.rows[id].id == id
    requires OwesLogout(db.rows[id]) && db.rows[id].version < 0x7FFF_FFFF_FFFF_FFFF
    ensures Leads(Takes, db, [Load(t, id, true), Revoke(t, true), Reload(t), Complete(t)], db')
    ensures db'.rows == db.rows[id := Gone(db.rows[id])] && PcOf(db', t).Idle?
  {
    var d1 := Do(db, Load(t, id, true));
    LoadsExactly(db, t, id, true, d1);
    var d2 := Do(d1, Revoke(t, true));
    RevokesExactly(d1, t, true, d2);
    var d3 := Do(d2, Reload(t));
    ReloadsExactly(d2, t, d3);
    db' := Do(d3, Complete(t));
    WritesExactly(d3, t, Complete(t), db');
    Three(Takes, db, Load(t, id, true), d1, Revoke(t, true), d2, Reload(t), d3);
    Extend(Takes, db, [Load(t, id, true), Revoke(t, true), Reload(t)], d3, Complete(t), db');
    assert [Load(t, id, true), Revoke(t, true), Reload(t)] + [Complete(t)]
           == [Load(t, id, true), Revoke(t, true), Reload(t), Complete(t)];
  }
}

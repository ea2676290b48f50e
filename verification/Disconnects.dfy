/**
 Disconnect and recovery over the account table (operatoraccounts/disconnect.go,
 recovery.go; storage/pg/operatoraccounts/store.go, auth_store.go): every write
 names the version it expects, and several workers and commands race.
 */
module Disconnects {
  import opened Targets
  import opened Accounts
  import opened Traces

  type Tid = nat

  /** One disconnect command or recovery attempt; `recovering` reloads before it completes. */
  datatype Pc =
    | Idle
    | Intending(next: Account, expected: nat)
    | Revoking(intent: Account, recovering: bool)
    | Reloading(intent: Account)
    | Completing(next: Account, expected: nat)

  /** `converged` is history: the account versions whose remote revoke has converged. */
  datatype Db = Db(rows: map<nat, Account>, converged: set<(nat, nat)>, threads: map<Tid, Pc>)

  const EMPTY_DB := Db(map[], {}, map[])

  function PcOf(db: Db, t: Tid): Pc { if t in db.threads then db.threads[t] else Idle }

  function Put(db: Db, t: Tid, pc: Pc): Db { db.(threads := db.threads[t := pc]) }

  /** A durable intent to log an account out remotely. */
  predicate IsIntent(a: Account) { a.status == Disconnecting && a.remoteLogoutRequired }

  const MAX_BIGINT := 0x7FFF_FFFF_FFFF_FFFF

  function Predecessors(next: Status): set<Status> {
    match next
    case Authenticating => {Disconnected, ReauthRequired}
    case Active => {Authenticating}
    case ReauthRequired => {Active}
    case Disconnected => {Disconnecting}
    case Disconnecting => {Authenticating, Active, ReauthRequired}
  }

  /** PersistLifecycle's compare-and-swap, apart from the session it asks for when activating. */
  predicate Persists(db: Db, next: Account, expected: nat) {
    && expected < MAX_BIGINT && next.version == expected + 1 && next.id in db.rows
    && db.rows[next.id].version == expected && db.rows[next.id].status in Predecessors(next.status)
  }

  /** ck_operator_accounts_remote_logout_required */
  predicate MayOwe(a: Account) { a.remoteLogoutRequired ==> a.status == Disconnecting }

  // ------------------------------------------------------------------------- commands

  predicate CanLoad(db: Db, t: Tid, id: nat, recovering: bool) { PcOf(db, t).Idle? && id in db.rows }

  /** Disconnect begins or resumes; recovery takes up an intent that it has just read. */
  function DoLoad(db: Db, t: Tid, id: nat, recovering: bool): Db
    requires CanLoad(db, t, id, recovering)
  {
    var a := db.rows[id];
    if IsIntent(a) then Put(db, t, Revoking(a, recovering))
    else if !recovering && a.status in {Active, ReauthRequired} && Performed(a, BeginDisconnect).Ok?
    then Put(db, t, Intending(Performed(a, BeginDisconnect).account, a.version))
    else Put(db, t, Idle)
  }

  predicate CanPersistIntent(db: Db, t: Tid) { PcOf(db, t).Intending? }

  function DoPersistIntent(db: Db, t: Tid): Db
    requires CanPersistIntent(db, t)
  {
    var pc := PcOf(db, t);
    if Persists(db, pc.next, pc.expected)
    then Put(db, t, Revoking(pc.next, false)).(rows := db.rows[pc.next.id := pc.next])
    else Put(db, t, Idle)
  }

  predicate CanRevoke(db: Db, t: Tid, converged: bool) { PcOf(db, t).Revoking? }

  function DoRevoke(db: Db, t: Tid, converged: bool): Db
    requires CanRevoke(db, t, converged)
  {
    var pc := PcOf(db, t);
    if !converged then Put(db, t, Idle)
    else
      var db' := db.(converged := db.converged + {(pc.intent.id, pc.intent.version)});
      if pc.recovering then Put(db', t, Reloading(pc.intent))
      else if Performed(pc.intent, MarkDisconnected).Ok?
      then Put(db', t, Completing(Performed(pc.intent, MarkDisconnected).account, pc.intent.version))
      else Put(db', t, Idle)
  }

  predicate CanReload(db: Db, t: Tid) { PcOf(db, t).Reloading? && PcOf(db, t).intent.id in db.rows }

  function DoReload(db: Db, t: Tid): Db
    requires CanReload(db, t)
  {
    var intent := PcOf(db, t).intent;
    var a := db.rows[intent.id];
    if IsIntent(a) && a.version == intent.version && Performed(a, MarkDisconnected).Ok?
    then Put(db, t, Completing(Performed(a, MarkDisconnected).account, a.version))
    else Put(db, t, Idle)
  }

  predicate CanComplete(db: Db, t: Tid) { PcOf(db, t).Completing? }

  function DoComplete(db: Db, t: Tid): Db
    requires CanComplete(db, t)
  {
    var pc := PcOf(db, t);
    if Persists(db, pc.next, pc.expected) then Put(db, t, Idle).(rows := db.rows[pc.next.id := pc.next])
    else Put(db, t, Idle)
  }

  // ------------------------------------------------ authentication's own statements

  /** A statement of auth_store.go: its WHERE clause, and what it sets. */
  datatype Statement =
    | Insert(id: nat, expiresAt: nat)
    | Resume(expiresAt: nat) | Finalize(expected: nat, telegramUserId: int) | BeginAbort(expected: nat)
    | CompleteAbort(expected: nat)

  predicate Matches(a: Account, s: Statement) {
    match s
    case Insert(_, _) => false
    case Resume(_) => a.status in {Disconnected, ReauthRequired} && a.version < MAX_BIGINT
    case Finalize(expected, _) => a.status == Authenticating && a.version == expected < MAX_BIGINT
    case BeginAbort(expected) => a.status == Authenticating && a.version == expected < MAX_BIGINT
    case CompleteAbort(expected) => a.status == Disconnecting && a.version == expected < MAX_BIGINT
  }

  function Sets(a: Account, s: Statement): Account {
    var b := a.(version := a.version + 1, failureCode := NoFailure);
    match s
    case Insert(_, _) => a
    case Resume(expiresAt) => b.(status := Authenticating, authExpiresAt := expiresAt)
    case Finalize(_, telegramUserId) => b.(status := Active, authExpiresAt := 0, telegramUserId := telegramUserId)
    case BeginAbort(_) => b.(status := Disconnecting, authExpiresAt := 0)
    case CompleteAbort(_) => b.(status := Disconnected, authExpiresAt := 0)
  }

  /** The CHECK constraints refuse what would break them. */
  predicate Executes(a: Account, s: Statement) {
    Matches(a, s) && Accounts.Valid(Sets(a, s)) && MayOwe(Sets(a, s))
  }

  predicate CanExecute(db: Db, id: nat, s: Statement) {
    if s.Insert? then s.id == id && id != 0 && id !in db.rows && s.expiresAt != 0
    else id in db.rows && Executes(db.rows[id], s)
  }

  function DoExecute(db: Db, id: nat, s: Statement): Db
    requires CanExecute(db, id, s)
  {
    db.(rows := db.rows[id := if s.Insert? then Account(id, Authenticating, 2, NoFailure, 0, s.expiresAt, false)
                              else Sets(db.rows[id], s)])
  }

  // ------------------------------------------------------------------------- one step

  datatype Step =
    | Load(t: Tid, id: nat, recovering: bool) | PersistIntent(t: Tid) | Revoke(t: Tid, converged: bool)
    | Reload(t: Tid) | Complete(t: Tid) | GiveUp(t: Tid) | Execute(id: nat, statement: Statement)

  predicate Can(db: Db, step: Step) {
    match step
    case Load(t, id, recovering) => CanLoad(db, t, id, recovering)
    case PersistIntent(t) => CanPersistIntent(db, t)
    case Revoke(t, converged) => CanRevoke(db, t, converged)
    case Reload(t) => CanReload(db, t)
    case Complete(t) => CanComplete(db, t)
    case GiveUp(t) => true
    case Execute(id, s) => CanExecute(db, id, s)
  }

  function Do(db: Db, step: Step): Db
    requires Can(db, step)
  {
    match step
    case Load(t, id, recovering) => DoLoad(db, t, id, recovering)
    case PersistIntent(t) => DoPersistIntent(db, t)
    case Revoke(t, converged) => DoRevoke(db, t, converged)
    case Reload(t) => DoReload(db, t)
    case Complete(t) => DoComplete(db, t)
    case GiveUp(t) => Put(db, t, Idle)
    case Execute(id, s) => DoExecute(db, id, s)
  }

  ghost predicate Takes(db: Db, step: Step, db': Db) { Can(db, step) && db' == Do(db, step) }

  ghost predicate ThreadOk(db: Db, pc: Pc) {
    match pc
    case Intending(next, expected) => Accounts.Valid(next) && IsIntent(next) && next.version == expected + 1
    case Revoking(intent, _) => Accounts.Valid(intent) && IsIntent(intent)
    case Reloading(intent) => Accounts.Valid(intent) && IsIntent(intent) && (intent.id, intent.version) in db.converged
    case Completing(next, expected) =>
      Accounts.Valid(next) && next.status == Disconnected && next.version == expected + 1 && (next.id, expected) in db.converged
    case Idle => true
  }

  ghost predicate Inv(db: Db) {
    && (forall id <- db.rows :: db.rows[id].id == id && Accounts.Valid(db.rows[id]))
    && forall t <- db.threads :: ThreadOk(db, db.threads[t])
  }

  lemma StepKeeps(db: Db, step: Step, db': Db)
    requires Inv(db) && Takes(db, step, db')
    ensures Inv(db')
  {
    if step.Load? { LoadKeeps(db, step.t, step.id, step.recovering); }
    else if step.Revoke? { RevokeKeeps(db, step.t, step.converged); }
    else if step.Reload? { ReloadKeeps(db, step.t); }
    else { WriteKeeps(db, step); }
  }

  lemma LoadKeeps(db: Db, t: Tid, id: nat, recovering: bool)
    requires Inv(db) && CanLoad(db, t, id, recovering)
    ensures Inv(DoLoad(db, t, id, recovering))
  {
  }

  lemma RevokeKeeps(db: Db, t: Tid, converged: bool)
    requires Inv(db) && CanRevoke(db, t, converged)
    ensures Inv(DoRevoke(db, t, converged))
  {
  }

  lemma ReloadKeeps(db: Db, t: Tid)
    requires Inv(db) && CanReload(db, t)
    ensures Inv(DoReload(db, t))
  {
  }

  lemma WriteKeeps(db: Db, step: Step)
    requires Inv(db) && Can(db, step) && (step.PersistIntent? || step.Complete? || step.GiveUp? || step.Execute?)
    ensures Inv(Do(db, step))
  {
  }

  /** A step leaves an intent alone, or completes it after a converged revoke at its exact version. */
  lemma IntentStep(db: Db, step: Step, db': Db, id: nat)
    requires Inv(db) && Takes(db, step, db') && id in db.rows && IsIntent(db.rows[id])
    ensures id in db'.rows && db.converged <= db'.converged
    ensures db'.rows[id] == db.rows[id] ||
            (step.Complete? && db'.rows[id].status == Disconnected && db'.rows[id].version == db.rows[id].version + 1
             && (id, db.rows[id].version) in db.converged)
  {
  }

  ghost predicate Kept(db: Db, id: nat, intent: Account) {
    id in db.rows && (db.rows[id] == intent || (id, intent.version) in db.converged)
  }

  /** Over any run, an intent stands until a revoke of exactly that version has converged. */
  lemma IntentStandsUntilRevoked(before: seq<Step>, db: Db, steps: seq<Step>, db': Db, id: nat)
    requires Leads(Takes, EMPTY_DB, before, db) && Leads(Takes, db, steps, db')
    requires id in db.rows && IsIntent(db.rows[id])
    ensures id in db'.rows
    ensures db'.rows[id] == db.rows[id] || (id, db.rows[id].version) in db'.converged
  {
    forall x, step, y | Inv(x) && Takes(x, step, y) ensures Inv(y) { StepKeeps(x, step, y); }
    Invariance(Takes, step => true, Inv, EMPTY_DB, before, db);
    var intent := db.rows[id];
    forall x, step, y | Inv(x) && Kept(x, id, intent) && Takes(x, step, y) ensures Inv(y) && Kept(y, id, intent) {
      StepKeeps(x, step, y);
      KeptStep(x, step, y, id, intent);
    }
    Invariance(Takes, step => true, x => Inv(x) && Kept(x, id, intent), db, steps, db');
  }

  lemma KeptStep(db: Db, step: Step, db': Db, id: nat, intent: Account)
    requires Inv(db) && Takes(db, step, db') && Kept(db, id, intent) && IsIntent(intent)
    ensures Kept(db', id, intent)
  {
  }

  /**
   The statement that ends an aborted authentication asks only for
   `disconnecting` and the version, and so would also match a remote logout
   intent; of all its matches, exactly the intents are refused by the table.
   */
  lemma OnlyTheConstraintKeepsIntents(a: Account, expected: nat)
    requires Accounts.Valid(a) && Matches(a, CompleteAbort(expected))
    ensures Executes(a, CompleteAbort(expected)) <==> !IsIntent(a)
  {
  }
}

/** What holds of the delivery tables after any steps, one row, send and run at a time. */
module DeliveryInvariant {
  import opened Options
  import opened RunVerdict
  import opened DeliveryState
  import opened DeliverySteps

  /** The tokens whose sends a delivery has admitted. */
  function SendsOf(db: Db, key: Key): seq<Token> {
    if key in db.sends then db.sends[key] else []
  }

  predicate Distinct(s: seq<Token>) {
    forall i, j | 0 <= i < j < |s| :: s[i] != s[j]
  }

  ghost predicate RefsOk(db: Db, key: Key) {
    && key.mailing in db.mailings && key.run in db.runs && db.runs[key.run].mailing == key.mailing
    && key.recipient in db.mailings[key.mailing].recipients
  }

  /** Each admitted send used its own token, and the lease of a pending row has not been used. */
  ghost predicate TokensOk(db: Db, key: Key)
    requires key in db.rows
  {
    var row, sends := db.rows[key], SendsOf(db, key);
    && Distinct(sends) && (forall t <- sends :: t in db.tokens && db.tokens[t] == key)
    && (row.leaseToken.Some? ==> row.leaseToken.value in db.tokens && db.tokens[row.leaseToken.value] == key)
    && (row.status == Pending && row.leaseToken.Some? ==> row.leaseToken.value !in sends)
    && (row.status == Sending ==> |sends| > 0 && row.leaseToken == Some(sends[|sends| - 1]))
  }

  predicate AttemptsOk(row: Row, sends: nat) {
    && row.attempts == sends && row.attempts <= row.maxAttempts && (row.attempts >= 1 ==> row.startedAt.Some?)
    && (row.status == DeliveryStatus.Sent ==> row.attempts >= 1) && (row.status == Skipped ==> row.attempts == 0)
    && row.status != Foreign
  }

  /** What the run's status says of its deliveries. */
  predicate LifecycleOk(status: DeliveryStatus, run: RunStatus) {
    && (status == Pending ==> Active(run))
    && (status == Sending ==> Active(run) || run == RunCancelled)
    && (run == RunCompleted ==> status in {DeliveryStatus.Sent, Skipped})
  }

  ghost predicate RowOk(db: Db, key: Key)
    requires key in db.rows
  {
    && RefsOk(db, key) && Checks(db.rows[key]) && TokensOk(db, key)
    && AttemptsOk(db.rows[key], |SendsOf(db, key)|)
    && LifecycleOk(db.rows[key].status, db.runs[key.run].status)
  }

  predicate FlightOk(db: Db, send: Send) {
    && send.key in db.rows && 1 <= send.attempt <= |SendsOf(db, send.key)|
    && SendsOf(db, send.key)[send.attempt - 1] == send.token && send.random == db.rows[send.key].random
  }

  predicate RunOk(db: Db, run: RunId)
    requires run in db.runs
  {
    var r := db.runs[run];
    && r.mailing in db.mailings && r.number >= 1 && r.generation >= 1
    && (Active(r.status) ==> ActivePair(db.mailings[r.mailing].status, r.status))
  }

  /** At most one run of a mailing is active, and run numbers do not repeat. */
  ghost predicate RunsApart(db: Db) {
    forall a, b | a in db.runs && b in db.runs && a != b && db.runs[a].mailing == db.runs[b].mailing ::
      db.runs[a].number != db.runs[b].number && !(Active(db.runs[a].status) && Active(db.runs[b].status))
  }

  ghost predicate MailingOk(db: Db, m: MailingId)
    requires m in db.mailings
  {
    db.mailings[m].status in {Queued, Running, Paused} ==> exists run :: IsActiveRun(db, m, run)
  }

  ghost predicate Inv(db: Db) {
    && (forall key <- db.rows :: RowOk(db, key))
    && (forall key <- db.sends :: key in db.rows)
    && (forall send <- db.flights :: FlightOk(db, send))
    && (forall run <- db.runs :: RunOk(db, run))
    && RunsApart(db)
    && (forall m <- db.mailings :: MailingOk(db, m))
  }

  // ------------------------------------------------------------- steps on one row

  /** Only the row of `key` and its history change. */
  ghost predicate OnRow(db: Db, db': Db, key: Key) {
    && key in db.rows && key in db'.rows && db'.mailings == db.mailings && db'.runs == db.runs
    && db'.rows == db.rows[key := db'.rows[key]] && db'.rows[key].random == db.rows[key].random
    && (forall t <- db.tokens :: t in db'.tokens && db'.tokens[t] == db.tokens[t])
    && SendsOf(db, key) <= SendsOf(db', key)
    && (forall k <- db'.sends :: k in db.sends || k == key)
    && (forall k :: k != key ==> SendsOf(db', k) == SendsOf(db, k))
  }

  lemma OnRowRows(db: Db, db': Db, key: Key)
    requires OnRow(db, db', key) && RowOk(db', key) && forall k <- db.rows :: RowOk(db, k)
    ensures forall k <- db'.rows :: RowOk(db', k)
  {
  }

  lemma OnRowFlights(db: Db, db': Db, key: Key)
    requires OnRow(db, db', key)
    requires forall send <- db.flights :: FlightOk(db, send)
    requires forall send <- db'.flights :: send in db.flights || FlightOk(db', send)
    ensures forall send <- db'.flights :: FlightOk(db', send)
  {
  }

  lemma SameRuns(db: Db, db': Db)
    requires db'.mailings == db.mailings && db'.runs == db.runs && RunsApart(db)
    requires forall run <- db.runs :: RunOk(db, run)
    requires forall m <- db.mailings :: MailingOk(db, m)
    ensures (forall run <- db'.runs :: RunOk(db', run)) && RunsApart(db') && (forall m <- db'.mailings :: MailingOk(db', m))
  {
    forall m <- db'.mailings ensures MailingOk(db', m) { assert MailingOk(db, m); ActiveSame(db, db', m); }
    forall run <- db'.runs ensures RunOk(db', run) { assert RunOk(db, run); }
  }

  lemma OnRowKeeps(db: Db, db': Db, key: Key)
    requires Inv(db) && OnRow(db, db', key) && RowOk(db', key)
    requires forall send <- db'.flights :: send in db.flights || FlightOk(db', send)
    ensures Inv(db')
  {
    OnRowRows(db, db', key);
    OnRowFlights(db, db', key);
    SameRuns(db, db');
  }

  lemma ActiveSame(db: Db, db': Db, m: MailingId)
    requires db'.runs == db.runs
    ensures (exists run :: IsActiveRun(db, m, run)) ==> exists run :: IsActiveRun(db', m, run)
  {
    if run :| IsActiveRun(db, m, run) { assert IsActiveRun(db', m, run); }
  }

  /** A row that changes neither its attempts nor whether it is leased for sending. */
  lemma SetRowKeeps(db: Db, db': Db, key: Key)
    requires Inv(db) && key in db.rows && key in db'.rows
    requires db' == SetRow(db, key, db'.rows[key]).(flights := db'.flights) && db'.flights <= db.flights
    requires db'.rows[key].random == db.rows[key].random && RowOk(db', key)
    ensures Inv(db')
  {
    OnRowKeeps(db, db', key);
  }

  lemma FlightsKeep(db: Db, flights: set<Send>, now: int)
    requires Inv(db) && flights <= db.flights
    ensures Inv(db.(flights := flights, now := now))
  {
    var db' := db.(flights := flights, now := now);
    forall k <- db'.rows ensures RowOk(db', k) { assert RowOk(db, k); }
    forall send <- db'.flights ensures FlightOk(db', send) { assert FlightOk(db, send); }
    SameRuns(db, db');
  }

  lemma ClaimKeeps(db: Db, key: Key, token: Token, lease: int)
    requires Inv(db) && Claimable(db, key) && token !in db.tokens
    ensures Inv(Claim(db, key, token, lease))
  {
    ClaimedRow(db, key, token, lease);
    ClaimedOnRow(db, key, token, lease);
    OnRowKeeps(db, Claim(db, key, token, lease), key);
  }

  lemma ClaimedRow(db: Db, key: Key, token: Token, lease: int)
    requires Inv(db) && Claimable(db, key) && token !in db.tokens
    ensures key in Claim(db, key, token, lease).rows && RowOk(Claim(db, key, token, lease), key)
  {
  }

  lemma ClaimedOnRow(db: Db, key: Key, token: Token, lease: int)
    requires Inv(db) && Claimable(db, key) && token !in db.tokens
    ensures OnRow(db, Claim(db, key, token, lease), key)
  {
  }

  lemma RenewKeeps(db: Db, key: Key, token: Token, duration: int)
    requires Inv(db)
    ensures Inv(Renew(db, key, token, duration))
  {
    if Renewable(db, key, token) {
      assert RowOk(db, key);
      SetRowKeeps(db, Renew(db, key, token, duration), key);
    }
  }

  lemma ReleaseRow(db: Db, key: Key, token: Token)
    requires key in db.rows && RowOk(db, key) && db.rows[key].status == Pending
    ensures key in Release(db, key, token).rows && RowOk(Release(db, key, token), key)
  {
  }

  lemma ReleaseKeeps(db: Db, key: Key, token: Token)
    requires Inv(db)
    ensures Inv(Release(db, key, token))
  {
    if key in db.rows && db.rows[key].status == Pending && db.rows[key].leaseToken == Some(token) {
      ReleaseRow(db, key, token);
      SetRowKeeps(db, Release(db, key, token), key);
    }
  }

  lemma AdmitRow(db: Db, key: Key, token: Token)
    requires Admissible(db, key, token) && RowOk(db, key)
    ensures RowOk(Admit(db, key, token), key) && FlightOk(Admit(db, key, token), AdmittedSend(db, key, token))
    ensures OnRow(db, Admit(db, key, token), key)
  {
  }

  lemma AdmitKeeps(db: Db, key: Key, token: Token)
    requires Inv(db) && Admissible(db, key, token)
    ensures Inv(Admit(db, key, token))
  {
    AdmitRow(db, key, token);
    OnRowKeeps(db, Admit(db, key, token), key);
  }

  lemma LandedKeeps(db: Db, send: Send)
    requires Inv(db)
    ensures Inv(Landed(db, send))
  {
    FlightsKeep(db, db.flights - {send}, db.now);
    assert Landed(db, send) == db.(flights := db.flights - {send}, now := db.now);
  }

  lemma SucceedRow(db: Db, send: Send)
    requires send.key in db.rows && RowOk(db, send.key) && FlightOk(db, send)
    ensures RowOk(Succeed(db, send), send.key)
  {
  }

  lemma SucceedKeeps(db: Db, send: Send)
    requires Inv(db) && send in db.flights
    ensures Inv(Succeed(db, send))
  {
    assert FlightOk(db, send) && RowOk(db, send.key);
    if AcceptsSuccess(db.rows[send.key], send) {
      SucceedRow(db, send);
      SetRowKeeps(db, Succeed(db, send), send.key);
    } else {
      LandedKeeps(db, send);
    }
  }

  lemma RejectRow(db: Db, send: Send, kind: FailureKind, retryAfter: int)
    requires send.key in db.rows && RowOk(db, send.key) && OwnsRow(db.rows[send.key], send) && RunOk(db, send.key.run)
    ensures RowOk(Reject(db, send, kind, retryAfter), send.key)
  {
  }

  lemma RejectKeeps(db: Db, send: Send, kind: FailureKind, retryAfter: int)
    requires Inv(db) && send in db.flights
    ensures Inv(Reject(db, send, kind, retryAfter))
  {
    assert FlightOk(db, send) && RowOk(db, send.key);
    if OwnsRow(db.rows[send.key], send) {
      assert RunOk(db, send.key.run);
      RejectRow(db, send, kind, retryAfter);
      SetRowKeeps(db, Reject(db, send, kind, retryAfter), send.key);
    } else {
      LandedKeeps(db, send);
    }
  }

  lemma QuarantineKeeps(db: Db, send: Send)
    requires Inv(db) && send in db.flights
    ensures Inv(Quarantine(db, send))
  {
    assert FlightOk(db, send) && RowOk(db, send.key);
    if OwnsRow(db.rows[send.key], send) {
      SetRowKeeps(db, Quarantine(db, send), send.key);
    } else {
      LandedKeeps(db, send);
    }
  }

  lemma ReapRow(db: Db, key: Key, grace: int, retryDelay: int)
    requires Expired(db, key, grace) && RowOk(db, key) && RunOk(db, key.run)
    ensures RowOk(Reap(db, key, retryDelay), key) && OnRow(db, Reap(db, key, retryDelay), key)
    ensures Reap(db, key, retryDelay).flights == db.flights
  {
  }

  lemma ReapKeeps(db: Db, key: Key, grace: int, retryDelay: int)
    requires Inv(db) && Expired(db, key, grace)
    ensures Inv(Reap(db, key, retryDelay))
  {
    assert RowOk(db, key) && RunOk(db, key.run);
    ReapRow(db, key, grace, retryDelay);
    OnRowKeeps(db, Reap(db, key, retryDelay), key);
  }

  // --------------------------------------------------------------- lifecycle steps

  lemma CreateRow(db: Db, m: MailingId, mailing: Mailing, k: Key)
    requires Inv(db) && m !in db.mailings && k in db.rows
    ensures RowOk(db.(mailings := db.mailings[m := mailing]), k)
  {
  }

  lemma CreateKeeps(db: Db, m: MailingId, mailing: Mailing)
    requires Inv(db) && m !in db.mailings && mailing.status == Draft
    ensures Inv(db.(mailings := db.mailings[m := mailing]))
  {
    var db' := db.(mailings := db.mailings[m := mailing]);
    forall k <- db'.rows ensures RowOk(db', k) { CreateRow(db, m, mailing, k); }
    forall send <- db'.flights ensures FlightOk(db', send) { assert FlightOk(db, send); }
    forall run <- db'.runs ensures RunOk(db', run) { assert RunOk(db, run); }
    forall x <- db'.mailings ensures MailingOk(db', x) {
      if x != m { assert MailingOk(db, x); ActiveSame(db, db', x); }
    }
  }

  lemma ActiveElsewhere(db: Db, db': Db, x: MailingId, m: MailingId)
    requires forall run <- db.runs :: db.runs[run].mailing != m ==> run in db'.runs && db'.runs[run] == db.runs[run]
    requires x != m
    ensures (exists run :: IsActiveRun(db, x, run)) ==> exists run :: IsActiveRun(db', x, run)
  {
    if run :| IsActiveRun(db, x, run) { assert IsActiveRun(db', x, run); }
  }

  /** A run of new rows appears; nothing else of the deliveries changes. */
  ghost predicate Queues(db: Db, db': Db, m: MailingId, run: RunId, number: int) {
    && run !in db.runs && m in db.mailings && db.mailings[m].status in {Draft, Stopped} && IsNextNumber(db, m, number)
    && db'.runs == db.runs[run := Run(m, number, RunQueued, 1)]
    && db'.mailings == db.mailings[m := db.mailings[m].(status := Queued)]
    && db'.tokens == db.tokens && db'.sends == db.sends && db'.flights == db.flights && db'.now == db.now
    && (forall k <- db.rows :: k in db'.rows && (k.run != run ==> db'.rows[k] == db.rows[k]))
    && (forall k <- db'.rows :: k in db.rows || NewOk(db, db', m, run, k))
  }

  ghost predicate NewOk(db: Db, db': Db, m: MailingId, run: RunId, k: Key) {
    && k in db'.rows && m in db.mailings
    && k.mailing == m && k.run == run && k.recipient in db.mailings[m].recipients && Eligible(db, m, k.recipient)
    && db'.rows[k] == NewRow(db.now, db'.rows[k].random)
  }

  lemma QueueIs(db: Db, m: MailingId, run: RunId, number: int, randoms: map<RecipientId, int>)
    requires run !in db.runs && QueueOutcome(db, m) == Done && IsNextNumber(db, m, number)
    ensures Queues(db, Queue(db, m, run, number, randoms), m, run, number)
  {
  }

  /** A draft or stopped mailing has no active run, so a new one may begin. */
  lemma QueueRuns(db: Db, db': Db, m: MailingId, run: RunId, number: int)
    requires Queues(db, db', m, run, number) && RunsApart(db) && forall r <- db.runs :: RunOk(db, r)
    ensures (forall r <- db'.runs :: RunOk(db', r)) && RunsApart(db')
  {
  }

  lemma QueueMailings(db: Db, db': Db, m: MailingId, run: RunId, number: int)
    requires Queues(db, db', m, run, number) && forall x <- db.mailings :: MailingOk(db, x)
    ensures forall x <- db'.mailings :: MailingOk(db', x)
  {
    forall x <- db'.mailings ensures MailingOk(db', x) {
      if x == m { assert IsActiveRun(db', m, run); } else { assert MailingOk(db, x); ActiveElsewhere(db, db', x, m); }
    }
  }

  lemma QueueRow(db: Db, db': Db, m: MailingId, run: RunId, number: int, k: Key)
    requires Queues(db, db', m, run, number) && k in db'.rows
    requires if k in db.rows then RowOk(db, k) else k !in db.sends
    ensures RowOk(db', k)
  {
  }

  lemma QueueKeeps(db: Db, m: MailingId, run: RunId, number: int, randoms: map<RecipientId, int>)
    requires Inv(db) && run !in db.runs && IsNextNumber(db, m, number)
    ensures Inv(Queue(db, m, run, number, randoms))
  {
    if QueueOutcome(db, m) == Done {
      QueueIs(db, m, run, number, randoms);
      QueuesKeep(db, Queue(db, m, run, number, randoms), m, run, number);
    }
  }

  lemma QueuesKeep(db: Db, db': Db, m: MailingId, run: RunId, number: int)
    requires Inv(db) && Queues(db, db', m, run, number)
    ensures Inv(db')
  {
    QueueRuns(db, db', m, run, number);
    QueueMailings(db, db', m, run, number);
    forall k <- db'.rows ensures RowOk(db', k) {
      if k in db.rows { assert RowOk(db, k); }
      QueueRow(db, db', m, run, number, k);
    }
    forall send <- db'.flights ensures FlightOk(db', send) { assert FlightOk(db, send) && RowOk(db, send.key); }
  }

  lemma StopRuns(db: Db, m: MailingId, run: RunId)
    requires Inv(db) && m in db.mailings && IsActiveRun(db, m, run)
    ensures var db' := Stop(db, m, run);
            (forall r <- db'.runs :: RunOk(db', r)) && RunsApart(db') && (forall x <- db'.mailings :: MailingOk(db', x))
  {
    var db' := Stop(db, m, run);
    forall r <- db'.runs ensures RunOk(db', r) { assert RunOk(db, r); }
    forall x <- db'.mailings ensures MailingOk(db', x) {
      if x != m { assert MailingOk(db, x); ActiveElsewhere(db, db', x, m); }
    }
  }

  lemma StopRow(db: Db, m: MailingId, run: RunId, k: Key)
    requires m in db.mailings && IsActiveRun(db, m, run) && k in db.rows && RowOk(db, k)
    ensures RowOk(Stop(db, m, run), k)
  {
  }

  lemma StopKeeps(db: Db, m: MailingId, run: RunId)
    requires Inv(db) && m in db.mailings && IsActiveRun(db, m, run)
    ensures Inv(Stop(db, m, run))
  {
    var db' := Stop(db, m, run);
    StopRuns(db, m, run);
    forall k <- db'.rows ensures RowOk(db', k) { assert RowOk(db, k); StopRow(db, m, run, k); }
    forall send <- db'.flights ensures FlightOk(db', send) { assert FlightOk(db, send); }
  }

  lemma ReconcileRuns(db: Db, m: MailingId, run: RunId, generation: int, verdict: RunStatus)
    requires Inv(db) && Terminalizes(db, m, run, generation, verdict)
    ensures var db' := Terminalize(db, m, run, verdict);
            (forall r <- db'.runs :: RunOk(db', r)) && RunsApart(db') && (forall x <- db'.mailings :: MailingOk(db', x))
  {
    var db' := Terminalize(db, m, run, verdict);
    forall r <- db'.runs ensures RunOk(db', r) { assert RunOk(db, r); }
    forall x <- db'.mailings ensures MailingOk(db', x) { ReconcileMailing(db, m, run, generation, verdict, x); }
  }

  lemma ReconcileMailing(db: Db, m: MailingId, run: RunId, generation: int, verdict: RunStatus, x: MailingId)
    requires Inv(db) && Terminalizes(db, m, run, generation, verdict) && x in db.mailings
    ensures MailingOk(Terminalize(db, m, run, verdict), x)
  {
    if x != m { assert MailingOk(db, x); ActiveElsewhere(db, Terminalize(db, m, run, verdict), x, m); }
  }

  lemma ReconcileRow(db: Db, m: MailingId, run: RunId, generation: int, verdict: RunStatus, k: Key)
    requires Inv(db) && Terminalizes(db, m, run, generation, verdict) && k in db.rows
    ensures RowOk(Terminalize(db, m, run, verdict), k)
  {
    assert RowOk(db, k);
    if k.run == run {
      assert db.rows[k].status in StatesOf(db, m, run);
      assert !Open(db.rows[k].status) && (verdict == RunCompleted ==> !Bad(db.rows[k].status));
    }
  }

  lemma ReconcileKeeps(db: Db, m: MailingId, run: RunId, generation: int, verdict: RunStatus)
    requires Inv(db) && Terminalizes(db, m, run, generation, verdict)
    ensures Inv(Terminalize(db, m, run, verdict))
  {
    var db' := Terminalize(db, m, run, verdict);
    ReconcileRuns(db, m, run, generation, verdict);
    forall k <- db'.rows ensures RowOk(db', k) { ReconcileRow(db, m, run, generation, verdict, k); }
    forall send <- db'.flights ensures FlightOk(db', send) { assert FlightOk(db, send); }
  }

  lemma StepKeeps(db: Db, step: Step, db': Db)
    requires Inv(db) && Takes(db, step, db')
    ensures Inv(db')
  {
    match step
    case Tick(elapsed) =>
      FlightsKeep(db, db.flights, db.now + elapsed);
      assert db' == db.(flights := db.flights, now := db.now + elapsed);
    case Create(m, mailing) => CreateKeeps(db, m, mailing);
    case QueueStep(m, run, number, randoms) => QueueKeeps(db, m, run, number, randoms);
    case StopStep(m, run) => StopKeeps(db, m, run);
    case ClaimStep(key, token, lease) => ClaimKeeps(db, key, token, lease);
    case RenewStep(key, token, lease) => RenewKeeps(db, key, token, lease);
    case ReleaseStep(key, token) => ReleaseKeeps(db, key, token);
    case AdmitStep(key, token) => AdmitKeeps(db, key, token);
    case SucceedStep(send) => SucceedKeeps(db, send);
    case RejectStep(send, kind, retryAfter) => RejectKeeps(db, send, kind, retryAfter);
    case QuarantineStep(send) => QuarantineKeeps(db, send);
    case LoseStep(send) => LandedKeeps(db, send);
    case ReapStep(key, grace, retryDelay) => ReapKeeps(db, key, grace, retryDelay);
    case ReconcileStep(m, run, generation, verdict) => ReconcileKeeps(db, m, run, generation, verdict);
  }
}

/** What any run of the delivery tables guarantees, whoever races with whom. */
module DeliveryTheorems {
  import opened Options
  import opened RunVerdict
  import opened DeliveryState
  import opened DeliverySteps
  import opened DeliveryInvariant
  import opened Traces

  ghost predicate Reachable(db: Db) {
    exists steps :: Leads(Takes, EMPTY_DB, steps, db)
  }

  lemma ReachableInv(db: Db)
    requires Reachable(db)
    ensures Inv(db)
  {
    var steps :| Leads(Takes, EMPTY_DB, steps, db);
    forall x, step, y | Inv(x) && Takes(x, step, y) ensures Inv(y) { StepKeeps(x, step, y); }
    Invariance(Takes, step => true, Inv, EMPTY_DB, steps, db);
  }

  /** The statements respect every CHECK constraint and the unique index of active runs. */
  lemma SchemaHolds(db: Db)
    requires Reachable(db)
    ensures forall key <- db.rows :: Checks(db.rows[key]) && RefsOk(db, key)
    ensures forall a, b | a in db.runs && b in db.runs && a != b && db.runs[a].mailing == db.runs[b].mailing ::
              db.runs[a].number != db.runs[b].number && !(Active(db.runs[a].status) && Active(db.runs[b].status))
    ensures forall a <- db.runs :: db.runs[a].mailing in db.mailings && db.runs[a].generation >= 1
    ensures forall a <- db.runs :: db.mailings[db.runs[a].mailing].status in {Draft, Stopped} ==> !Active(db.runs[a].status)
    ensures forall m <- db.mailings :: db.mailings[m].status in {Queued, Running, Paused} ==> StopsNow(db, m)
  {
    ReachableInv(db);
    forall key <- db.rows ensures Checks(db.rows[key]) && RefsOk(db, key) { assert RowOk(db, key); }
    forall a <- db.runs
      ensures db.runs[a].mailing in db.mailings && db.runs[a].generation >= 1
      ensures db.mailings[db.runs[a].mailing].status in {Draft, Stopped} ==> !Active(db.runs[a].status)
    {
      assert RunOk(db, a);
    }
    forall m <- db.mailings | db.mailings[m].status in {Queued, Running, Paused} ensures StopsNow(db, m) {
      assert MailingOk(db, m);
    }
  }

  // -------------------------------------------------------------- tokens and attempts

  /** A claim token admits at most one send, and the sends of a delivery are its attempts. */
  lemma OneSendPerToken(db: Db, a: Key, i: nat, b: Key, j: nat)
    requires Reachable(db) && a in db.rows && b in db.rows
    requires i < |SendsOf(db, a)| && j < |SendsOf(db, b)| && SendsOf(db, a)[i] == SendsOf(db, b)[j]
    ensures a == b && i == j
    ensures db.rows[a].attempts == |SendsOf(db, a)| <= db.rows[a].maxAttempts
  {
    ReachableInv(db);
    assert RowOk(db, a) && RowOk(db, b);
    assert SendsOf(db, a)[i] in SendsOf(db, a) && SendsOf(db, b)[j] in SendsOf(db, b);
  }

  /** The two CASE expressions agree: ready_at is pushed exactly when the row returns to pending. */
  lemma PushedExactlyWhenPending(row: Row, kind: FailureKind, generation: int, active: bool, now: int, delay: int)
    ensures var row' := Negative(row, kind, generation, active, now, delay);
            row'.readyAt == if row'.status == Pending then now + delay else row.readyAt
    ensures Negative(row, kind, generation, active, now, delay).status == Pending
            <==> kind in {Transient, FloodWait} && row.attempts < row.maxAttempts
                 && row.leaseGeneration == Some(generation) && active
  {
  }

  /** The reaper decides every expired row, keeps its attempts and frees its lease. */
  lemma ReaperDecides(db: Db, key: Key, grace: int, retryDelay: int)
    requires Reachable(db) && Expired(db, key, grace)
    ensures var row, row' := db.rows[key], Reap(db, key, retryDelay).rows[key];
            && row'.status == (if Retryable(db, key) then Pending else Unknown) && NoLease(row')
            && row'.attempts == row.attempts && row'.startedAt == row.startedAt && row'.random == row.random
  {
    ReachableInv(db);
    assert RowOk(db, key) && RunOk(db, key.run);
  }

  // ------------------------------------------------------------------- late outcomes

  predicate IsSent(db: Db, key: Key) { key in db.rows && db.rows[key].status == DeliveryStatus.Sent }

  predicate SameIdentity(row: Row, row': Row) {
    row'.random == row.random && row'.attempts >= row.attempts && (row.startedAt.Some? ==> row'.startedAt.Some?)
  }

  /** How a row may change in one step: it is sent by a new attempt, or keeps its attempt. */
  predicate RowMoves(row: Row, row': Row) {
    && SameIdentity(row, row') && (row.status == DeliveryStatus.Sent ==> row' == row)
    && (row'.status == Sending ==>
          row'.attempts > row.attempts || (row.status == Sending && row'.leaseToken == row.leaseToken && row'.attempts == row.attempts))
  }

  lemma WorkerMoves(db: Db, step: Step, db': Db, key: Key)
    requires Takes(db, step, db') && key in db.rows
    requires step.ClaimStep? || step.RenewStep? || step.ReleaseStep? || step.AdmitStep?
    ensures key in db'.rows && RowMoves(db.rows[key], db'.rows[key])
  {
  }

  lemma OutcomeMoves(db: Db, step: Step, db': Db, key: Key)
    requires Takes(db, step, db') && key in db.rows
    requires step.SucceedStep? || step.RejectStep? || step.QuarantineStep? || step.LoseStep?
    ensures key in db'.rows && RowMoves(db.rows[key], db'.rows[key])
  {
    if step.RejectStep? { RejectMoves(db, step.send, step.kind, step.retryAfter, key); }
  }

  lemma RejectMoves(db: Db, send: Send, kind: FailureKind, retryAfter: int, key: Key)
    requires key in db.rows
    ensures var db' := Reject(db, send, kind, retryAfter); key in db'.rows && RowMoves(db.rows[key], db'.rows[key])
  {
  }

  lemma RecoveryMoves(db: Db, step: Step, db': Db, key: Key)
    requires Takes(db, step, db') && key in db.rows
    requires step.Tick? || step.Create? || step.StopStep? || step.ReapStep? || step.ReconcileStep?
    ensures key in db'.rows && RowMoves(db.rows[key], db'.rows[key])
  {
  }

  lemma QueuePersists(db: Db, m: MailingId, run: RunId, number: int, randoms: map<RecipientId, int>, key: Key)
    requires Inv(db) && run !in db.runs && IsNextNumber(db, m, number) && key in db.rows
    ensures key in Queue(db, m, run, number, randoms).rows
    ensures Queue(db, m, run, number, randoms).rows[key] == db.rows[key]
  {
  }

  lemma RowsPersist(db: Db, step: Step, db': Db, key: Key)
    requires Inv(db) && Takes(db, step, db') && key in db.rows
    ensures key in db'.rows && RowMoves(db.rows[key], db'.rows[key])
  {
    match step
    case QueueStep(m, run, number, randoms) => QueuePersists(db, m, run, number, randoms, key);
    case ClaimStep(_, _, _) => WorkerMoves(db, step, db', key);
    case RenewStep(_, _, _) => WorkerMoves(db, step, db', key);
    case ReleaseStep(_, _) => WorkerMoves(db, step, db', key);
    case AdmitStep(_, _) => WorkerMoves(db, step, db', key);
    case SucceedStep(_) => OutcomeMoves(db, step, db', key);
    case RejectStep(_, _, _) => OutcomeMoves(db, step, db', key);
    case QuarantineStep(_) => OutcomeMoves(db, step, db', key);
    case LoseStep(_) => OutcomeMoves(db, step, db', key);
    case _ => RecoveryMoves(db, step, db', key);
  }

  /** Nothing ever changes a sent delivery again. */
  lemma SentForever(db: Db, steps: seq<Step>, db': Db, key: Key)
    requires Reachable(db) && Leads(Takes, db, steps, db') && IsSent(db, key)
    ensures IsSent(db', key) && db'.rows[key] == db.rows[key]
  {
    ReachableInv(db);
    var row := db.rows[key];
    forall x, step, y | Inv(x) && key in x.rows && x.rows[key] == row && Takes(x, step, y)
      ensures Inv(y) && key in y.rows && y.rows[key] == row
    {
      StepKeeps(x, step, y);
      RowsPersist(x, step, y, key);
    }
    Invariance(Takes, step => true, x => Inv(x) && key in x.rows && x.rows[key] == row, db, steps, db');
  }

  /** Late success wins: whatever happened to the row since, a success is recorded or already was. */
  lemma LateSuccessWins(db: Db, send: Send)
    requires Reachable(db) && send in db.flights
    ensures IsSent(Succeed(db, send), send.key)
    ensures send.key in db.rows && (AcceptsSuccess(db.rows[send.key], send) <==> !IsSent(db, send.key))
  {
    ReachableInv(db);
    SuccessRecorded(db, send);
  }

  lemma SuccessRecorded(db: Db, send: Send)
    requires Inv(db) && send in db.flights
    ensures IsSent(Succeed(db, send), send.key)
    ensures send.key in db.rows && (AcceptsSuccess(db.rows[send.key], send) <==> !IsSent(db, send.key))
  {
  }

  /** The proof read after a success that changed no row holds, however much later it is read. */
  lemma AlreadySentProofHolds(db: Db, send: Send, steps: seq<Step>, db': Db)
    requires Reachable(db) && send in db.flights && send.key in db.rows && !AcceptsSuccess(db.rows[send.key], send)
    requires Leads(Takes, Succeed(db, send), steps, db')
    ensures AlreadySent(db', send)
  {
    LateSuccessWins(db, send);
    ReachableInv(db);
    assert FlightOk(db, send) && RowOk(db, send.key);
    ReachableStep(db, SucceedStep(send), Succeed(db, send));
    SentForever(Succeed(db, send), steps, db', send.key);
  }

  lemma ReachableStep(db: Db, step: Step, db': Db)
    requires Reachable(db) && Takes(db, step, db')
    ensures Reachable(db')
  {
    var steps :| Leads(Takes, EMPTY_DB, steps, db);
    Extend(Takes, EMPTY_DB, steps, db, step, db');
  }

  /** A send that lost its row to the reaper, a newer attempt or a success. */
  predicate Outdated(db: Db, send: Send) {
    && send.key in db.rows && send.attempt <= db.rows[send.key].attempts && !OwnsRow(db.rows[send.key], send)
  }

  lemma OutdatedStep(db: Db, step: Step, db': Db, send: Send)
    requires Inv(db) && Takes(db, step, db') && Outdated(db, send)
    ensures Outdated(db', send)
  {
    assert RowOk(db, send.key);
    RowsPersist(db, step, db', send.key);
  }

  /** Once a send has lost its row, its negative outcome changes no row, ever. */
  lemma StaleNegativesChangeNothing(db: Db, send: Send, steps: seq<Step>, db': Db, kind: FailureKind, retryAfter: int)
    requires Reachable(db) && Outdated(db, send) && Leads(Takes, db, steps, db')
    ensures Reject(db', send, kind, retryAfter).rows == db'.rows && Quarantine(db', send).rows == db'.rows
  {
    ReachableInv(db);
    forall x, step, y | Inv(x) && Outdated(x, send) && Takes(x, step, y) ensures Inv(y) && Outdated(y, send) {
      StepKeeps(x, step, y);
      OutdatedStep(x, step, y, send);
    }
    Invariance(Takes, step => true, x => Inv(x) && Outdated(x, send), db, steps, db');
  }

  // -------------------------------------------------------------------------- runs

  lemma TerminalRunStep(db: Db, step: Step, db': Db, run: RunId)
    requires Inv(db) && Takes(db, step, db') && run in db.runs && !Active(db.runs[run].status)
    ensures run in db'.runs && db'.runs[run] == db.runs[run]
  {
    if step.QueueStep? {
      QueueKeepsRuns(db, step.m, step.run, step.number, step.randoms);
    } else if !step.StopStep? && !step.ReconcileStep? {
      RunsUntouched(db, step, db');
    }
  }

  lemma RunsUntouched(db: Db, step: Step, db': Db)
    requires Takes(db, step, db') && !step.QueueStep? && !step.StopStep? && !step.ReconcileStep?
    ensures db'.runs == db.runs
  {
  }

  lemma QueueKeepsRuns(db: Db, m: MailingId, run: RunId, number: int, randoms: map<RecipientId, int>)
    requires run !in db.runs
    ensures forall r <- db.runs :: r in Queue(db, m, run, number, randoms).runs
              && Queue(db, m, run, number, randoms).runs[r] == db.runs[r]
  {
  }

  /** A terminal run keeps its status and its deliveries. */
  lemma TerminalRunForever(db: Db, steps: seq<Step>, db': Db, run: RunId)
    requires Reachable(db) && Leads(Takes, db, steps, db') && run in db.runs && !Active(db.runs[run].status)
    ensures Inv(db') && run in db'.runs && db'.runs[run] == db.runs[run]
    ensures forall k <- db.rows :: k in db'.rows
  {
    ReachableInv(db);
    var was, rows := db.runs[run], db.rows.Keys;
    forall x, step, y | Inv(x) && run in x.runs && x.runs[run] == was && rows <= x.rows.Keys && Takes(x, step, y)
      ensures Inv(y) && run in y.runs && y.runs[run] == was && rows <= y.rows.Keys
    {
      StepKeeps(x, step, y);
      TerminalRunStep(x, step, y, run);
      forall k <- rows ensures k in y.rows { RowsPersist(x, step, y, k); }
    }
    Invariance(Takes, step => true, x => Inv(x) && run in x.runs && x.runs[run] == was && rows <= x.rows.Keys,
               db, steps, db');
    forall k <- db.rows ensures k in db'.rows { assert k in rows; }
  }

  /** After Stop commits, no delivery of the run is pending, and none is admitted to send. */
  lemma NothingAdmittedAfterStop(db: Db, m: MailingId, run: RunId, steps: seq<Step>, db': Db)
    requires Reachable(db) && StopsNow(db, m) && IsActiveRun(db, m, run)
    requires Leads(Takes, Stop(db, m, run), steps, db')
    ensures run in db'.runs && db'.runs[run].status == RunCancelled
    ensures forall k <- db'.rows :: k.run == run ==> db'.rows[k].status != Pending
    ensures forall key: Key, token :: key.run == run ==> !Admissible(db', key, token)
    ensures forall key: Key :: key.run == run ==> !Claimable(db', key)
  {
    ReachableStep(db, StopStep(m, run), Stop(db, m, run));
    TerminalRunForever(Stop(db, m, run), steps, db', run);
    CancelledRunIsOver(db', run);
  }

  lemma CancelledRunIsOver(db: Db, run: RunId)
    requires Inv(db) && run in db.runs && db.runs[run].status == RunCancelled
    ensures forall k <- db.rows :: k.run == run ==> db.rows[k].status != Pending
    ensures forall key: Key :: key.run == run ==> !InActiveRun(db, key)
  {
    forall k <- db.rows | k.run == run ensures db.rows[k].status != Pending { assert RowOk(db, k); }
  }

  /** A Completed verdict is never undone: recomputed at any later time it is Completed again. */
  lemma CompletedForever(db: Db, m: MailingId, run: RunId, generation: int, steps: seq<Step>, db': Db)
    requires Reachable(db) && Terminalizes(db, m, run, generation, RunCompleted)
    requires Leads(Takes, Terminalize(db, m, run, RunCompleted), steps, db')
    ensures run in db'.runs && db'.runs[run].status == RunCompleted
    ensures IsVerdict(StatesOf(db', m, run), RunCompleted, true)
  {
    var done := Terminalize(db, m, run, RunCompleted);
    assert StatesOf(done, m, run) == StatesOf(db, m, run);
    ReachableStep(db, ReconcileStep(m, run, generation, RunCompleted), done);
    TerminalRunForever(done, steps, db', run);
    var state :| state in StatesOf(done, m, run);
    var k :| k in done.rows && k.mailing == m && k.run == run && done.rows[k].status == state;
    assert db'.rows[k].status in StatesOf(db', m, run);
    CompletedStates(db', m, run);
  }

  lemma CompletedStates(db: Db, m: MailingId, run: RunId)
    requires Inv(db) && run in db.runs && db.runs[run].status == RunCompleted
    ensures forall s <- StatesOf(db, m, run) :: !Open(s) && !Bad(s)
  {
  }
}

/**
 What each statement and transaction leaves behind, column by column, and when
 it has any effect at all.
 */
module DeliveryEffects {
  import opened Options
  import opened RunVerdict
  import opened DeliveryState
  import opened DeliverySteps
  import opened DeliveryInvariant
  import opened DeliveryTheorems
  import opened Traces

  /** `db'` differs from `db` in row `key` only, apart from the sends. */
  predicate OnlyRow(db: Db, db': Db, key: Key, row: Row) {
    db'.rows == db.rows[key := row] && db'.mailings == db.mailings && db'.runs == db.runs && db'.now == db.now
  }

  /** Run and mailing are queued together or running together. */
  predicate Live(db: Db, key: Key) {
    && key.mailing in db.mailings && key.run in db.runs && db.runs[key.run].mailing == key.mailing
    && ((db.mailings[key.mailing].status == Queued && db.runs[key.run].status == RunQueued)
        || (db.mailings[key.mailing].status == Running && db.runs[key.run].status == RunRunning))
  }

  // ------------------------------------------------------------------------- claims

  /** A row is claimed exactly if it is due, has attempts left, and no lease on it lasts. */
  lemma ClaimsExactly(db: Db, key: Key, token: Token, lease: int)
    ensures Can(db, ClaimStep(key, token, lease)) <==>
      && lease > 0 && token !in db.tokens && key in db.rows && Live(db, key)
      && var row := db.rows[key];
         && row.status == Pending && row.readyAt <= db.now && row.attempts < row.maxAttempts
         && (row.leaseUntil.Some? ==> row.leaseUntil.value < db.now)
    ensures Can(db, ClaimStep(key, token, lease)) ==>
      OnlyRow(db, Do(db, ClaimStep(key, token, lease)), key,
              db.rows[key].(leaseUntil := Some(db.now + lease), leaseToken := Some(token),
                            leaseGeneration := Some(db.runs[key.run].generation)))
  {
  }

  /** The lease is this token's and lasts, for the current generation of a live run. */
  predicate Leased(db: Db, key: Key, token: Token) {
    && key in db.rows && Live(db, key)
    && var row := db.rows[key];
       && row.status == Pending && row.leaseToken == Some(token) && row.leaseUntil.Some? && row.leaseUntil.value > db.now
       && row.leaseGeneration == Some(db.runs[key.run].generation)
  }

  lemma RenewsExactly(db: Db, key: Key, token: Token, lease: int, db': Db)
    requires Takes(db, RenewStep(key, token, lease), db')
    ensures if Leased(db, key, token) then OnlyRow(db, db', key, db.rows[key].(leaseUntil := Some(db.now + lease))) else db' == db
  {
  }

  /** A released row can be claimed again five seconds later, and remembers why. */
  lemma ReleasesExactly(db: Db, key: Key, token: Token, db': Db)
    requires Takes(db, ReleaseStep(key, token), db')
    ensures if key in db.rows && db.rows[key].status == Pending && db.rows[key].leaseToken == Some(token) then
              OnlyRow(db, db', key, db.rows[key].(leaseUntil := None, leaseToken := None, leaseGeneration := None,
                                                  readyAt := db.now + 5, error := true))
            else db' == db
  {
  }

  // -------------------------------------------------------------------------- sends

  /** A send is admitted exactly on a lasting lease with attempts left; the row is then sending its next attempt. */
  lemma AdmitsExactly(db: Db, key: Key, token: Token)
    ensures Can(db, AdmitStep(key, token)) <==> Leased(db, key, token) && db.rows[key].attempts < db.rows[key].maxAttempts
    ensures Can(db, AdmitStep(key, token)) ==>
      var row, db' := db.rows[key], Do(db, AdmitStep(key, token));
      && OnlyRow(db, db', key, row.(status := Sending, startedAt := Some(db.now), attempts := row.attempts + 1))
      && db'.flights == db.flights + {Send(key, token, row.attempts + 1, row.random)}
  {
  }

  /** A success ends the row: sent now, without lease, reason or error. */
  lemma SucceedsExactly(db: Db, send: Send, db': Db)
    requires Reachable(db) && Takes(db, SucceedStep(send), db')
    ensures send.key in db.rows && db'.flights == db.flights - {send}
    ensures if db.rows[send.key].status == DeliveryStatus.Sent then db'.rows == db.rows
            else OnlyRow(db, db', send.key,
                         db.rows[send.key].(status := DeliveryStatus.Sent, sentAt := Some(db.now), skipReason := false, error := false,
                                            leaseUntil := None, leaseToken := None, leaseGeneration := None))
  {
    ReachableInv(db);
    assert FlightOk(db, send) && RowOk(db, send.key);
  }

  /** The row still belongs to this very send. */
  predicate Owns(db: Db, send: Send) {
    && send.key in db.rows
    && var row := db.rows[send.key];
       && row.random == send.random && row.status == Sending && row.leaseToken == Some(send.token)
       && row.attempts == send.attempt && row.startedAt.Some?
  }

  /** A live run, still in the generation that was leased. */
  predicate Current(db: Db, key: Key)
    requires key in db.rows
  {
    Live(db, key) && db.rows[key].leaseGeneration == Some(db.runs[key.run].generation)
  }

  /**
   The full table of failed sends.  Outside its live generation, or when nobody
   knows what Telegram did, the outcome is unknown; a permanent failure, and a
   temporary one on the last attempt, is failed; every other temporary failure
   is pending again, in five seconds or when the flood wait is over.
   */
  lemma RejectsExactly(db: Db, send: Send, kind: FailureKind, retryAfter: int, db': Db)
    requires Reachable(db) && Takes(db, RejectStep(send, kind, retryAfter), db') && Owns(db, send)
    ensures var row, row' := db.rows[send.key], db'.rows[send.key];
            && OnlyRow(db, db', send.key, row') && db'.flights == db.flights - {send}
            && row' == row.(status := row'.status, readyAt := row'.readyAt, sentAt := None, skipReason := false, error := true,
                            leaseUntil := None, leaseToken := None, leaseGeneration := None)
            && (row'.status == Unknown <==> !Current(db, send.key) || kind == UnknownOutcome)
            && (row'.status == Failed <==>
                  Current(db, send.key) && (kind == Permanent || (kind in {Transient, FloodWait} && row.attempts >= row.maxAttempts)))
            && (row'.status == Pending <==> Current(db, send.key) && kind in {Transient, FloodWait} && row.attempts < row.maxAttempts)
            && row'.readyAt == (if row'.status != Pending then row.readyAt
                                else if kind == Transient then db.now + 5 else db.now + retryAfter)
  {
    OwnedRowIsReferred(db, send);
  }

  lemma OwnedRowIsReferred(db: Db, send: Send)
    requires Reachable(db) && Owns(db, send)
    ensures send.key.mailing in db.mailings && send.key.run in db.runs && db.runs[send.key.run].mailing == send.key.mailing
  {
    ReachableInv(db);
    assert RowOk(db, send.key);
  }

  /** A cancelled send leaves its diagnostic and nothing else; a stale outcome leaves nothing. */
  lemma QuarantinesExactly(db: Db, send: Send, db': Db)
    requires Takes(db, QuarantineStep(send), db')
    ensures db'.flights == db.flights - {send}
    ensures if Owns(db, send) then OnlyRow(db, db', send.key, db.rows[send.key].(error := true)) else db'.rows == db.rows
  {
  }

  lemma StaleRejectsNothing(db: Db, send: Send, kind: FailureKind, retryAfter: int, db': Db)
    requires Takes(db, RejectStep(send, kind, retryAfter), db') && !Owns(db, send)
    ensures db'.rows == db.rows && db'.flights == db.flights - {send}
  {
  }

  // ----------------------------------------------------- an unknown outcome blocks Queue

  predicate IsUnknown(db: Db, key: Key) { key in db.rows && db.rows[key].status == Unknown }

  lemma UnknownStep(db: Db, step: Step, db': Db, key: Key)
    requires Inv(db) && Takes(db, step, db') && IsUnknown(db, key)
    ensures IsUnknown(db', key) || IsSent(db', key)
  {
    if step.QueueStep? {
      QueuePersists(db, step.m, step.run, step.number, step.randoms, key);
    } else if step.SucceedStep? || step.RejectStep? || step.QuarantineStep? || step.LoseStep? {
      UnknownOutcomeStep(db, step, db', key);
    } else {
      UnknownOtherStep(db, step, db', key);
    }
  }

  lemma UnknownOutcomeStep(db: Db, step: Step, db': Db, key: Key)
    requires Takes(db, step, db') && IsUnknown(db, key)
    requires step.SucceedStep? || step.RejectStep? || step.QuarantineStep? || step.LoseStep?
    ensures IsUnknown(db', key) || IsSent(db', key)
  {
    if step.RejectStep? { UnknownIsNotRejected(db, step.send, step.kind, step.retryAfter, key); }
  }

  lemma UnknownIsNotRejected(db: Db, send: Send, kind: FailureKind, retryAfter: int, key: Key)
    requires IsUnknown(db, key)
    ensures IsUnknown(Reject(db, send, kind, retryAfter), key)
  {
  }

  lemma UnknownOtherStep(db: Db, step: Step, db': Db, key: Key)
    requires Takes(db, step, db') && IsUnknown(db, key) && !step.QueueStep?
    requires !(step.SucceedStep? || step.RejectStep? || step.QuarantineStep? || step.LoseStep?)
    ensures IsUnknown(db', key)
  {
  }

  /** Over any run an unknown outcome stays unknown until a late success decides it. */
  lemma UnknownUntilSent(db: Db, steps: seq<Step>, db': Db, key: Key)
    requires Reachable(db) && Leads(Takes, db, steps, db') && IsUnknown(db, key)
    ensures IsUnknown(db', key) || IsSent(db', key)
  {
    ReachableInv(db);
    forall x, step, y | Inv(x) && (IsUnknown(x, key) || IsSent(x, key)) && Takes(x, step, y)
      ensures Inv(y) && (IsUnknown(y, key) || IsSent(y, key))
    {
      StepKeeps(x, step, y);
      if IsUnknown(x, key) { UnknownStep(x, step, y, key); } else { RowsPersist(x, step, y, key); }
    }
    Invariance(Takes, step => true, x => Inv(x) && (IsUnknown(x, key) || IsSent(x, key)), db, steps, db');
  }

  /** And as long as it is, Queue refuses the mailing: the recipient may already have the message. */
  lemma UnknownBlocksQueue(db: Db, steps: seq<Step>, db': Db, key: Key, run: RunId, number: int, randoms: map<RecipientId, int>, db'': Db)
    requires Reachable(db) && IsUnknown(db, key) && Leads(Takes, db, steps, db') && !IsSent(db', key)
    requires Takes(db', QueueStep(key.mailing, run, number, randoms), db'')
    ensures db'' == db'
  {
    UnknownUntilSent(db, steps, db', key);
    assert UnresolvedRow(db'.rows[key]);
  }

  // ------------------------------------------------------------------- Queue and Stop

  /** A delivery whose outcome is open: under way, unknown, or waiting for another attempt. */
  predicate IsOpenOutcome(row: Row) {
    row.status == Sending || row.status == Unknown || (row.status == Pending && row.attempts > 0)
  }

  /** Who is served: every recipient, or of a "once" mailing those nothing was sent to yet. */
  ghost predicate IsServed(db: Db, m: MailingId, r: RecipientId)
    requires m in db.mailings
  {
    && r in db.mailings[m].recipients
    && (db.mailings[m].once ==> forall key <- db.rows :: key.mailing == m && key.recipient == r ==> db.rows[key].status != DeliveryStatus.Sent)
  }

  ghost predicate MayQueue(db: Db, m: MailingId) {
    && m in db.mailings && db.mailings[m].status in {Draft, Stopped}
    && (forall key <- db.rows :: key.mailing == m ==> !IsOpenOutcome(db.rows[key]))
    && exists r :: r in db.mailings[m].recipients && IsServed(db, m, r)
  }

  lemma MayQueueExactly(db: Db, m: MailingId)
    ensures MayQueue(db, m) <==> QueueOutcome(db, m) == Done
  {
    if m in db.mailings {
      forall r ensures IsServed(db, m, r) <==> Eligible(db, m, r) { ServedIsEligible(db, m, r); }
      OpenIsUnresolved(db, m);
    }
  }

  lemma ServedIsEligible(db: Db, m: MailingId, r: RecipientId)
    requires m in db.mailings
    ensures IsServed(db, m, r) <==> Eligible(db, m, r)
  {
  }

  lemma OpenIsUnresolved(db: Db, m: MailingId)
    ensures HasUnresolved(db, m) <==> exists key :: key in db.rows && key.mailing == m && IsOpenOutcome(db.rows[key])
  {
  }

  /** Queue starts the next run with one fresh pending delivery per recipient to be served, or does nothing. */
  lemma QueuesExactly(db: Db, m: MailingId, run: RunId, number: int, randoms: map<RecipientId, int>, db': Db, key: Key)
    requires Takes(db, QueueStep(m, run, number, randoms), db')
    ensures if !MayQueue(db, m) then db' == db
            else
              && db'.mailings == db.mailings[m := db.mailings[m].(status := Queued)]
              && db'.runs == db.runs[run := Run(m, number, RunQueued, 1)] && db'.now == db.now
              && (key in db'.rows <==> key in db.rows || (key.mailing == m && key.run == run && IsServed(db, m, key.recipient)))
              && (key in db'.rows ==>
                    if key.mailing == m && key.run == run && IsServed(db, m, key.recipient) then
                      && db'.rows[key].status == Pending && db'.rows[key].attempts == 0 && db'.rows[key].maxAttempts == 5
                      && db'.rows[key].readyAt == db.now && db'.rows[key].leaseToken.None? && db'.rows[key].startedAt.None?
                      && (key.recipient in randoms ==> db'.rows[key].random == randoms[key.recipient])
                    else key in db.rows && db'.rows[key] == db.rows[key])
  {
    MayQueueExactly(db, m);
    if m in db.mailings { ServedIsEligible(db, m, key.recipient); }
  }

  /** Stop skips what was never tried, gives up what was, and leaves the rest to its workers. */
  lemma StopsExactly(db: Db, m: MailingId, run: RunId, db': Db, key: Key)
    requires Takes(db, StopStep(m, run), db')
    ensures db.mailings[m].status in {Queued, Running, Paused} && db.runs[run].mailing == m && db.runs[run].status in {RunQueued, RunRunning}
    ensures db'.mailings == db.mailings[m := db.mailings[m].(status := Stopped)]
    ensures db'.runs == db.runs[run := db.runs[run].(status := RunCancelled, generation := db.runs[run].generation + 1)]
    ensures db'.now == db.now && db'.flights == db.flights && (key in db'.rows <==> key in db.rows)
    ensures key in db.rows ==>
              var row, row' := db.rows[key], db'.rows[key];
              if key.mailing != m || key.run != run || row.status != Pending then row' == row
              else if row.attempts == 0 then
                row' == row.(status := Skipped, skipReason := true, leaseUntil := None, leaseToken := None, leaseGeneration := None)
              else
                row' == row.(status := Unknown, skipReason := false, error := true,
                             leaseUntil := None, leaseToken := None, leaseGeneration := None)
  {
  }

  // --------------------------------------------------------------- reaper, reconciler

  /** The reaper waits out the grace; a row it may retry is due after the delay. */
  lemma ReapsExactly(db: Db, key: Key, grace: nat, retryDelay: nat, db': Db)
    requires Reachable(db) && Takes(db, ReapStep(key, grace, retryDelay), db')
    ensures db.rows[key].status == Sending && db.rows[key].leaseUntil.Some? && db.rows[key].leaseUntil.value + grace < db.now
    ensures var row := db.rows[key];
            var free := row.(leaseUntil := None, leaseToken := None, leaseGeneration := None);
            && db'.flights == db.flights
            && OnlyRow(db, db', key, if Current(db, key) && row.attempts < row.maxAttempts
                                     then free.(status := Pending, readyAt := db.now + retryDelay)
                                     else free.(status := Unknown, error := true))
  {
    SendingRow(db, key);
  }

  lemma SendingRow(db: Db, key: Key)
    requires Reachable(db) && key in db.rows && db.rows[key].status == Sending
    ensures key.mailing in db.mailings && key.run in db.runs && db.runs[key.run].mailing == key.mailing
    ensures var row := db.rows[key]; row.leaseToken.Some? && row.leaseGeneration.Some? && row.attempts >= 1 && row.startedAt.Some?
  {
    ReachableInv(db);
    assert RowOk(db, key);
  }

  ghost predicate SomeState(db: Db, m: MailingId, run: RunId, status: DeliveryStatus) {
    exists key :: key in db.rows && key.mailing == m && key.run == run && db.rows[key].status == status
  }

  /**
   A live run whose deliveries are all over ends, and its mailing with it: both
   failed if some delivery failed or is unknown, both completed otherwise.
   */
  lemma ReconcilesExactly(db: Db, m: MailingId, run: RunId, generation: int, verdict: RunStatus, db': Db)
    requires Takes(db, ReconcileStep(m, run, generation, verdict), db')
    ensures Live(db, Key(m, run, 0)) && db.runs[run].generation == generation
    ensures !SomeState(db, m, run, Pending) && !SomeState(db, m, run, Sending) && !SomeState(db, m, run, Foreign)
    ensures var bad := SomeState(db, m, run, Failed) || SomeState(db, m, run, Unknown);
            && db'.rows == db.rows && db'.flights == db.flights
            && db'.runs == db.runs[run := db.runs[run].(status := if bad then RunFailed else RunCompleted)]
            && db'.mailings == db.mailings[m := db.mailings[m].(status := if bad then MailingFailed else Completed)]
  {
    forall key | key in db.rows && key.mailing == m && key.run == run
      ensures db.rows[key].status in StatesOf(db, m, run)
    {
    }
    forall s | s in StatesOf(db, m, run) ensures SomeState(db, m, run, s) {
    }
  }
}

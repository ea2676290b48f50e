/** The other half of "once": a Queue that is not quiet may end in two deliveries to one recipient. */
module DeliveryTwice {
  import opened Options
  import opened RunVerdict
  import opened DeliveryState
  import opened DeliverySteps
  import opened DeliveryInvariant
  import opened DeliveryTheorems
  import opened Traces

  /** A recipient queued again is served by a claim, an admission and a success. */
  ghost predicate Served(db: Db, key: Key) {
    && key in db.rows && InActiveRun(db, key) && db.rows[key] == NewRow(db.now, db.rows[key].random)
  }

  lemma QueueServes(db: Db, m: MailingId, run: RunId, number: int, randoms: map<RecipientId, int>, r: RecipientId)
    requires run !in db.runs && QueueOutcome(db, m) == Done && Eligible(db, m, r)
    ensures Served(Queue(db, m, run, number, randoms), Key(m, run, r))
  {
  }

  lemma SuccessElsewhere(db: Db, send: Send, key: Key)
    requires key != send.key && Served(db, key)
    ensures Served(Succeed(db, send), key)
  {
  }

  lemma ClaimLeases(db: Db, key: Key, token: Token, other: Key) returns (db': Db)
    requires Inv(db) && Served(db, key) && token !in db.tokens && IsSent(db, other)
    ensures Takes(db, ClaimStep(key, token, 1), db') && Inv(db')
    ensures Admissible(db', key, token) && IsSent(db', other)
  {
    db' := Claim(db, key, token, 1);
    StepKeeps(db, ClaimStep(key, token, 1), db');
  }

  lemma AdmitFlies(db: Db, key: Key, token: Token, other: Key) returns (db': Db, send: Send)
    requires Inv(db) && Admissible(db, key, token) && IsSent(db, other)
    ensures Takes(db, AdmitStep(key, token), db') && Inv(db')
    ensures send in db'.flights && send.key == key && IsSent(db', other)
  {
    db', send := Admit(db, key, token), AdmittedSend(db, key, token);
    StepKeeps(db, AdmitStep(key, token), db');
  }

  lemma SuccessKeeps(db: Db, send: Send, k: Key)
    requires IsSent(db, k)
    ensures IsSent(Succeed(db, send), k)
  {
  }

  lemma SuccessLands(db: Db, send: Send, other: Key) returns (db': Db)
    requires Inv(db) && send in db.flights && IsSent(db, other)
    ensures Takes(db, SucceedStep(send), db') && Inv(db') && IsSent(db', send.key) && IsSent(db', other)
  {
    db' := Succeed(db, send);
    SuccessRecorded(db, send);
    SuccessKeeps(db, send, other);
    StepKeeps(db, SucceedStep(send), db');
  }

  /** From a served row on, a fresh claim is sent, and deliveries sent elsewhere stay sent. */
  lemma ServeAndSend(db: Db, key: Key, token: Token, other: Key) returns (steps: seq<Step>, db': Db)
    requires Inv(db) && Served(db, key) && token !in db.tokens && IsSent(db, other)
    ensures Leads(Takes, db, steps, db') && IsSent(db', key) && IsSent(db', other)
  {
    var claimed := ClaimLeases(db, key, token, other);
    var admitted, send := AdmitFlies(claimed, key, token, other);
    db' := SuccessLands(admitted, send, other);
    steps := [ClaimStep(key, token, 1), AdmitStep(key, token), SucceedStep(send)];
    Three(Takes, db, ClaimStep(key, token, 1), claimed, AdmitStep(key, token), admitted, SucceedStep(send), db');
  }

  lemma FlightRuns(db: Db, send: Send, run: RunId)
    requires Inv(db) && send in db.flights && run !in db.runs
    ensures send.key.run != run
  {
  }

  lemma QueueTaken(db: Db, m: MailingId, run: RunId, number: int, randoms: map<RecipientId, int>)
    requires run !in db.runs && IsNextNumber(db, m, number)
    ensures var queued := Queue(db, m, run, number, randoms);
            && Takes(db, QueueStep(m, run, number, randoms), queued)
            && queued.flights == db.flights && queued.tokens == db.tokens
  {
  }

  lemma QueuesAgain(db: Db, m: MailingId, run: RunId, number: int, randoms: map<RecipientId, int>, send: Send)
    returns (queued: Db)
    requires Inv(db) && run !in db.runs && IsNextNumber(db, m, number) && QueueOutcome(db, m) == Done
    requires send in db.flights && send.key.mailing == m && Eligible(db, m, send.key.recipient)
    ensures Takes(db, QueueStep(m, run, number, randoms), queued) && Inv(queued)
    ensures send in queued.flights && queued.tokens == db.tokens && send.key.run != run
    ensures Served(queued, Key(m, run, send.key.recipient))
  {
    FlightRuns(db, send, run);
    queued := Queue(db, m, run, number, randoms);
    QueueTaken(db, m, run, number, randoms);
    QueueServes(db, m, run, number, randoms, send.key.recipient);
    QueueKeeps(db, m, run, number, randoms);
  }

  lemma OldSendLands(db: Db, send: Send, key: Key) returns (landed: Db)
    requires Inv(db) && send in db.flights && key != send.key && Served(db, key)
    ensures Takes(db, SucceedStep(send), landed) && Inv(landed) && landed.tokens == db.tokens
    ensures Served(landed, key) && IsSent(landed, send.key)
  {
    landed := Succeed(db, send);
    SuccessRecorded(db, send);
    SuccessElsewhere(db, send, key);
    StepKeeps(db, SucceedStep(send), landed);
  }

  /**
   If Queue gives a recipient a new delivery while an old send to it is in
   flight, some continuation sends both, however "once" the mailing is.
   */
  lemma UnquietQueueMaySendTwice(
    db: Db, m: MailingId, run: RunId, number: int, randoms: map<RecipientId, int>, send: Send, token: Token)
    returns (steps: seq<Step>, db': Db)
    requires Reachable(db) && run !in db.runs && IsNextNumber(db, m, number) && QueueOutcome(db, m) == Done
    requires send in db.flights && send.key.mailing == m && Eligible(db, m, send.key.recipient) && token !in db.tokens
    ensures Leads(Takes, db, [QueueStep(m, run, number, randoms), SucceedStep(send)] + steps, db')
    ensures send.key.run != run && IsSent(db', send.key) && IsSent(db', Key(m, run, send.key.recipient))
  {
    ReachableInv(db);
    var queued := QueuesAgain(db, m, run, number, randoms, send);
    var landed := OldSendLands(queued, send, Key(m, run, send.key.recipient));
    Two(Takes, db, QueueStep(m, run, number, randoms), queued, SucceedStep(send), landed);
    steps, db' := ServeAndSend(landed, Key(m, run, send.key.recipient), token, send.key);
    Concat(Takes, db, [QueueStep(m, run, number, randoms), SucceedStep(send)], landed, steps, db');
  }

  // ------------------------------------------- how the reaper makes a Queue unquiet

  const DELIVERY := Key(0, 0, 7)
  const FIRST := Send(DELIVERY, 1, 1, 9)
  const SECOND := Send(DELIVERY, 2, 2, 9)

  function OneDelivery(now: int, mailing: MailingStatus, run: RunStatus, generation: int, row: Row, flights: set<Send>,
                       tokens: map<Token, Key>, sends: map<Key, seq<Token>>): Db {
    Db(now, map[0 := Mailing(mailing, true, {7})], map[0 := Run(0, 1, run, generation)], map[DELIVERY := row],
       flights, tokens, sends)
  }

  const PENDING := NewRow(0, 9)
  const SENT_ONCE := PENDING.(status := Sending, attempts := 1, startedAt := Some(0),
                              leaseToken := Some(1), leaseUntil := Some(1), leaseGeneration := Some(1))
  const REAPED := PENDING.(readyAt := 2, attempts := 1, startedAt := Some(0))
  const SENT_TWICE := REAPED.(status := Sending, attempts := 2, startedAt := Some(2),
                              leaseToken := Some(2), leaseUntil := Some(3), leaseGeneration := Some(1))
  const REJECTED := REAPED.(status := Failed, attempts := 2, startedAt := Some(2), error := true)

  const CREATED := Db(0, map[0 := Mailing(Draft, true, {7})], map[], map[], {}, map[], map[])
  const QUEUED := OneDelivery(0, Queued, RunQueued, 1, PENDING, {}, map[], map[])
  const FLYING := OneDelivery(0, Queued, RunQueued, 1, SENT_ONCE, {FIRST}, map[1 := DELIVERY], map[DELIVERY := [1]])
  const RETRIED := OneDelivery(2, Queued, RunQueued, 1, REAPED, {FIRST}, map[1 := DELIVERY], map[DELIVERY := [1]])
  const BOTH_FLYING := OneDelivery(2, Queued, RunQueued, 1, SENT_TWICE, {FIRST, SECOND},
                                   map[1 := DELIVERY, 2 := DELIVERY], map[DELIVERY := [1, 2]])
  const FAILED_LATE := OneDelivery(2, Queued, RunQueued, 1, REJECTED, {FIRST},
                                   map[1 := DELIVERY, 2 := DELIVERY], map[DELIVERY := [1, 2]])
  const STOPPED := OneDelivery(2, Stopped, RunCancelled, 2, REJECTED, {FIRST},
                               map[1 := DELIVERY, 2 := DELIVERY], map[DELIVERY := [1, 2]])

  lemma Queueing()
    ensures Takes(EMPTY_DB, Create(0, Mailing(Draft, true, {7})), CREATED)
    ensures Takes(CREATED, QueueStep(0, 0, 1, map[7 := 9]), QUEUED)
  {
  }

  lemma FirstAttempt()
    ensures Leads(Takes, QUEUED, [ClaimStep(DELIVERY, 1, 1), AdmitStep(DELIVERY, 1)], FLYING)
  {
    var none: seq<Token> := [];
    assert none + [1] == [1];
    assert Admit(Claim(QUEUED, DELIVERY, 1, 1), DELIVERY, 1) == FLYING;
    Two(Takes, QUEUED, ClaimStep(DELIVERY, 1, 1), Claim(QUEUED, DELIVERY, 1, 1), AdmitStep(DELIVERY, 1), FLYING);
  }

  /** The lease expires while the send is in flight, and the reaper retries the row. */
  lemma Reaped()
    ensures Leads(Takes, FLYING, [Tick(2), ReapStep(DELIVERY, 0, 0)], RETRIED)
  {
    Two(Takes, FLYING, Tick(2), FLYING.(now := 2), ReapStep(DELIVERY, 0, 0), RETRIED);
  }

  lemma SecondAttempt()
    ensures Leads(Takes, RETRIED, [ClaimStep(DELIVERY, 2, 1), AdmitStep(DELIVERY, 2)], BOTH_FLYING)
  {
    assert [1] + [2] == [1, 2];
    assert Admit(Claim(RETRIED, DELIVERY, 2, 1), DELIVERY, 2) == BOTH_FLYING;
    Two(Takes, RETRIED, ClaimStep(DELIVERY, 2, 1), Claim(RETRIED, DELIVERY, 2, 1), AdmitStep(DELIVERY, 2), BOTH_FLYING);
  }

  lemma SecondRejected()
    ensures Takes(BOTH_FLYING, RejectStep(SECOND, Permanent, 0), FAILED_LATE)
  {
  }

  lemma MailingStopped()
    ensures Takes(FAILED_LATE, StopStep(0, 0), STOPPED)
  {
    assert IsActiveRun(FAILED_LATE, 0, 0);
  }

  lemma StoppedIsUnquiet()
    ensures QueueOutcome(STOPPED, 0) == Done && Eligible(STOPPED, 0, 7) && FIRST in STOPPED.flights
    ensures IsNextNumber(STOPPED, 0, 2)
  {
    assert Eligible(STOPPED, 0, 7);
    assert 0 in STOPPED.runs && STOPPED.runs[0].number == 2 - 1;
  }

  lemma StoppedReachable() returns (steps: seq<Step>)
    ensures Leads(Takes, EMPTY_DB, steps, STOPPED)
  {
    Queueing();
    FirstAttempt();
    Reaped();
    SecondAttempt();
    SecondRejected();
    MailingStopped();
    var s1 := [Create(0, Mailing(Draft, true, {7})), QueueStep(0, 0, 1, map[7 := 9])];
    Two(Takes, EMPTY_DB, s1[0], CREATED, s1[1], QUEUED);
    var s2, s3, s4 := [ClaimStep(DELIVERY, 1, 1), AdmitStep(DELIVERY, 1)], [Tick(2), ReapStep(DELIVERY, 0, 0)],
      [ClaimStep(DELIVERY, 2, 1), AdmitStep(DELIVERY, 2)];
    Concat(Takes, EMPTY_DB, s1, QUEUED, s2, FLYING);
    Concat(Takes, EMPTY_DB, s1 + s2, FLYING, s3, RETRIED);
    Concat(Takes, EMPTY_DB, s1 + s2 + s3, RETRIED, s4, BOTH_FLYING);
    Extend(Takes, EMPTY_DB, s1 + s2 + s3 + s4, BOTH_FLYING, RejectStep(SECOND, Permanent, 0), FAILED_LATE);
    steps := s1 + s2 + s3 + s4 + [RejectStep(SECOND, Permanent, 0)];
    Extend(Takes, EMPTY_DB, steps, FAILED_LATE, StopStep(0, 0), STOPPED);
    steps := steps + [StopStep(0, 0)];
  }

  /** So with the reaper "once" fails: one recipient of a "once" mailing, two sent deliveries. */
  lemma OnceFailsAfterReapInFlight() returns (steps: seq<Step>, db: Db, a: Key, b: Key)
    ensures Leads(Takes, EMPTY_DB, steps, db) && a != b && a.mailing == b.mailing && a.recipient == b.recipient
    ensures IsSent(db, a) && IsSent(db, b)
  {
    steps := StoppedReachable();
    StoppedIsUnquiet();
    assert Reachable(STOPPED);
    var more;
    more, db := UnquietQueueMaySendTwice(STOPPED, 0, 1, 2, map[7 := 10], FIRST, 3);
    var all := [QueueStep(0, 1, 2, map[7 := 10]), SucceedStep(FIRST)] + more;
    Concat(Takes, EMPTY_DB, steps, STOPPED, all, db);
    steps, a, b := steps + all, DELIVERY, Key(0, 1, 7);
  }
}

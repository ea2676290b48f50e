/**
 "Once" mailings: when is a recipient sent at most one delivery, over all runs
 of the mailing?  Exactly as long as Queue never gives a recipient a new
 delivery while an old send to it is still in flight.
 */
module DeliveryOnce {
  import opened Options
  import opened RunVerdict
  import opened DeliveryState
  import opened DeliverySteps
  import opened DeliveryInvariant
  import opened DeliveryTheorems
  import opened Traces

  ghost predicate InFlight(db: Db, key: Key) {
    exists send :: send in db.flights && send.key == key
  }

  /** The delivery is sent, or some continuation could still send it. */
  ghost predicate MayBeSent(db: Db, key: Key) {
    key in db.rows && (db.rows[key].status in {DeliveryStatus.Sent, Pending, Sending} || InFlight(db, key))
  }

  predicate SamePerson(db: Db, a: Key, b: Key) {
    && a != b && a.mailing == b.mailing && a.recipient == b.recipient
    && a.mailing in db.mailings && db.mailings[a.mailing].once
  }

  ghost predicate OneMayBeSent(db: Db) {
    forall a, b | SamePerson(db, a, b) :: !(MayBeSent(db, a) && MayBeSent(db, b))
  }

  /** What a caller of Queue would have to check: no send in flight to a recipient it is about to serve. */
  ghost predicate Quiet(db: Db, step: Step) {
    step.QueueStep? && QueueOutcome(db, step.m) == Done ==>
      forall send <- db.flights :: send.key.mailing == step.m ==> !Eligible(db, step.m, send.key.recipient)
  }

  // ---------------------------------------------------------- quiet queues keep "once"

  /** Only Queue lets a delivery that could not be sent any more be sent after all. */
  lemma NoRevival(db: Db, step: Step, db': Db, key: Key)
    requires Inv(db) && Takes(db, step, db') && !(step.QueueStep? && QueueOutcome(db, step.m) == Done)
    requires MayBeSent(db', key)
    ensures MayBeSent(db, key)
  {
    if step.SucceedStep? || step.RejectStep? || step.QuarantineStep? || step.LoseStep? {
      OutcomeRevivesNothing(db, step, db', key);
    } else {
      OtherRevivesNothing(db, step, db', key);
    }
  }

  /** The outcome of one send touches no other row. */
  lemma OutcomeElsewhere(db: Db, step: Step, db': Db, key: Key)
    requires step.SucceedStep? || step.RejectStep? || step.QuarantineStep? || step.LoseStep?
    requires Takes(db, step, db') && step.send.key != key
    ensures key in db'.rows <==> key in db.rows
    ensures key in db.rows ==> db'.rows[key] == db.rows[key]
  {
  }

  lemma OutcomeRevivesNothing(db: Db, step: Step, db': Db, key: Key)
    requires Takes(db, step, db') && MayBeSent(db', key)
    requires step.SucceedStep? || step.RejectStep? || step.QuarantineStep? || step.LoseStep?
    ensures MayBeSent(db, key)
  {
    OutcomeRows(db, step, db', key);
    if step.send.key == key { assert InFlight(db, key); } else { OutcomeElsewhere(db, step, db', key); }
  }

  lemma OutcomeRows(db: Db, step: Step, db': Db, key: Key)
    requires Takes(db, step, db') && key in db'.rows
    requires step.SucceedStep? || step.RejectStep? || step.QuarantineStep? || step.LoseStep?
    ensures key in db.rows && db'.flights <= db.flights
    ensures InFlight(db', key) ==> InFlight(db, key)
  {
  }

  lemma OtherRevivesNothing(db: Db, step: Step, db': Db, key: Key)
    requires Inv(db) && Takes(db, step, db') && !(step.QueueStep? && QueueOutcome(db, step.m) == Done)
    requires !step.SucceedStep? && !step.RejectStep? && !step.QuarantineStep? && !step.LoseStep? && MayBeSent(db', key)
    ensures MayBeSent(db, key)
  {
    OtherStatuses(db, step, db', key);
    OtherFlights(db, step, db', key);
  }

  lemma OtherStatuses(db: Db, step: Step, db': Db, key: Key)
    requires Takes(db, step, db') && !(step.QueueStep? && QueueOutcome(db, step.m) == Done) && key in db'.rows
    requires !step.SucceedStep? && !step.RejectStep? && !step.QuarantineStep? && !step.LoseStep?
    ensures key in db.rows
    ensures db'.rows[key].status in {DeliveryStatus.Sent, Pending, Sending} ==>
              db.rows[key].status in {DeliveryStatus.Sent, Pending, Sending}
  {
  }

  lemma OtherFlights(db: Db, step: Step, db': Db, key: Key)
    requires Takes(db, step, db') && key in db.rows
    requires !step.SucceedStep? && !step.RejectStep? && !step.QuarantineStep? && !step.LoseStep?
    ensures InFlight(db', key) ==> MayBeSent(db, key)
  {
  }

  /** A row that Queue finds resolved and not sent cannot be sent any more, unless a send is in flight. */
  lemma ResolvedIsOver(db: Db, m: MailingId, key: Key)
    requires Inv(db) && QueueOutcome(db, m) == Done && key in db.rows && key.mailing == m
    requires db.rows[key].status != DeliveryStatus.Sent && !InFlight(db, key)
    ensures !MayBeSent(db, key)
  {
  }

  lemma QuietQueueKeeps(db: Db, step: Step, db': Db)
    requires Inv(db) && Takes(db, step, db') && step.QueueStep? && QueueOutcome(db, step.m) == Done
    requires OneMayBeSent(db) && Quiet(db, step)
    ensures OneMayBeSent(db')
  {
    QueueIs(db, step.m, step.run, step.number, step.randoms);
    forall a, b | SamePerson(db', a, b) ensures !(MayBeSent(db', a) && MayBeSent(db', b)) {
      if MayBeSent(db', a) && MayBeSent(db', b) {
        if a !in db.rows { FreshIsAlone(db, step, db', a, b); } else if b !in db.rows { FreshIsAlone(db, step, db', b, a); } else {
          OldStays(db, step, db', a);
          OldStays(db, step, db', b);
          assert SamePerson(db, a, b);
        }
      }
    }
  }

  lemma OldStays(db: Db, step: Step, db': Db, a: Key)
    requires Inv(db) && Takes(db, step, db') && step.QueueStep? && Queues(db, db', step.m, step.run, step.number)
    requires a in db.rows && MayBeSent(db', a)
    ensures MayBeSent(db, a)
  {
    assert RowOk(db, a);
    if InFlight(db', a) { assert InFlight(db, a); }
  }

  lemma FreshIsOne(db: Db, db': Db, m: MailingId, run: RunId, number: int, a: Key)
    requires Queues(db, db', m, run, number) && a in db'.rows && a !in db.rows
    ensures a.mailing == m && Eligible(db, m, a.recipient)
    ensures forall b <- db'.rows :: b !in db.rows && b.recipient == a.recipient ==> b == a
  {
  }

  lemma FreshIsAlone(db: Db, step: Step, db': Db, a: Key, b: Key)
    requires Inv(db) && Takes(db, step, db') && step.QueueStep? && Queues(db, db', step.m, step.run, step.number)
    requires QueueOutcome(db, step.m) == Done && Quiet(db, step)
    requires a in db'.rows && a !in db.rows && SamePerson(db', a, b)
    ensures !MayBeSent(db', b)
  {
    FreshIsOne(db, db', step.m, step.run, step.number, a);
    if b in db'.rows {
      assert Eligible(db, step.m, b.recipient);
      assert !InFlight(db, b) && db.rows[b].status != DeliveryStatus.Sent;
      ResolvedIsOver(db, step.m, b);
      OldGoesOn(db, step, db', b);
    }
  }

  lemma OldGoesOn(db: Db, step: Step, db': Db, b: Key)
    requires Inv(db) && Takes(db, step, db') && step.QueueStep? && Queues(db, db', step.m, step.run, step.number)
    requires b in db.rows && !MayBeSent(db, b)
    ensures !MayBeSent(db', b)
  {
    assert RowOk(db, b);
    assert InFlight(db', b) ==> InFlight(db, b);
  }

  /** `once` is fixed when a mailing is created; a new mailing has no deliveries. */
  lemma SamePersonBefore(db: Db, step: Step, db': Db, a: Key, b: Key)
    requires Inv(db) && Takes(db, step, db') && SamePerson(db', a, b) && a in db.rows
    ensures SamePerson(db, a, b)
  {
    assert RowOk(db, a);
    MailingsPersist(db, step, db', a.mailing);
  }

  lemma MailingsPersist(db: Db, step: Step, db': Db, m: MailingId)
    requires Takes(db, step, db') && m in db.mailings
    ensures m in db'.mailings && db'.mailings[m].once == db.mailings[m].once
    ensures db'.mailings[m].recipients == db.mailings[m].recipients
  {
  }

  lemma QuietStepKeeps(db: Db, step: Step, db': Db)
    requires Inv(db) && Takes(db, step, db') && OneMayBeSent(db) && Quiet(db, step)
    ensures OneMayBeSent(db')
  {
    if step.QueueStep? && QueueOutcome(db, step.m) == Done {
      QuietQueueKeeps(db, step, db');
    } else {
      forall a, b | SamePerson(db', a, b) ensures !(MayBeSent(db', a) && MayBeSent(db', b)) {
        if MayBeSent(db', a) && MayBeSent(db', b) {
          NoRevival(db, step, db', a);
          NoRevival(db, step, db', b);
          SamePersonBefore(db, step, db', a, b);
        }
      }
    }
  }

  ghost predicate TakesQuietly(db: Db, step: Step, db': Db) { Takes(db, step, db') && Quiet(db, step) }

  /** Quiet runs send each recipient of a "once" mailing at most one delivery. */
  lemma OnceWhenQuiet(steps: seq<Step>, db: Db, a: Key, b: Key)
    requires Leads(TakesQuietly, EMPTY_DB, steps, db)
    requires a.mailing in db.mailings && db.mailings[a.mailing].once
    requires a.mailing == b.mailing && a.recipient == b.recipient && IsSent(db, a) && IsSent(db, b)
    ensures a == b
  {
    forall x, step, y | Inv(x) && OneMayBeSent(x) && TakesQuietly(x, step, y) ensures Inv(y) && OneMayBeSent(y) {
      StepKeeps(x, step, y);
      QuietStepKeeps(x, step, y);
    }
    Invariance(TakesQuietly, step => true, x => Inv(x) && OneMayBeSent(x), EMPTY_DB, steps, db);
    assert a != b ==> SamePerson(db, a, b);
  }

  // ------------------------------------------- nothing reaped in flight keeps queues quiet

  /** A send in flight owns its row: `sending`, with that attempt and token. */
  ghost predicate FlightsOwn(db: Db) {
    forall send <- db.flights :: send.key in db.rows && OwnsRow(db.rows[send.key], send)
  }

  /** The reaper takes no row whose send is still in flight. */
  ghost predicate Patient(db: Db, step: Step) { step.ReapStep? ==> !InFlight(db, step.key) }

  lemma PatientKeepsOwners(db: Db, step: Step, db': Db, send: Send)
    requires Inv(db) && Takes(db, step, db') && FlightsOwn(db) && Patient(db, step) && send in db'.flights
    ensures send.key in db'.rows && OwnsRow(db'.rows[send.key], send)
  {
    if step.QueueStep? {
      if QueueOutcome(db, step.m) == Done { QueueIs(db, step.m, step.run, step.number, step.randoms); }
      assert RowOk(db, send.key);
    } else if step.SucceedStep? || step.RejectStep? || step.QuarantineStep? || step.LoseStep? {
      OutcomeKeepsOwners(db, step, db', send);
    } else {
      OtherKeepsOwners(db, step, db', send);
    }
  }

  lemma OutcomeKeepsOwners(db: Db, step: Step, db': Db, send: Send)
    requires Takes(db, step, db') && FlightsOwn(db) && send in db'.flights
    requires step.SucceedStep? || step.RejectStep? || step.QuarantineStep? || step.LoseStep?
    ensures send.key in db'.rows && OwnsRow(db'.rows[send.key], send)
  {
  }

  lemma OtherKeepsOwners(db: Db, step: Step, db': Db, send: Send)
    requires Takes(db, step, db') && FlightsOwn(db) && Patient(db, step) && send in db'.flights && !step.QueueStep?
    requires !step.SucceedStep? && !step.RejectStep? && !step.QuarantineStep? && !step.LoseStep?
    ensures send.key in db'.rows && OwnsRow(db'.rows[send.key], send)
  {
  }

  lemma OwnersMakeQuiet(db: Db, step: Step)
    requires FlightsOwn(db)
    ensures Quiet(db, step)
  {
  }

  ghost predicate TakesPatiently(db: Db, step: Step, db': Db) { Takes(db, step, db') && Patient(db, step) }

  /** Without a reaper that takes rows in flight, "once" holds whatever workers, Stop and Queue do. */
  lemma OnceWhenPatient(steps: seq<Step>, db: Db, a: Key, b: Key)
    requires Leads(TakesPatiently, EMPTY_DB, steps, db)
    requires a.mailing in db.mailings && db.mailings[a.mailing].once
    requires a.mailing == b.mailing && a.recipient == b.recipient && IsSent(db, a) && IsSent(db, b)
    ensures a == b
  {
    forall x, step, y | Inv(x) && OneMayBeSent(x) && FlightsOwn(x) && TakesPatiently(x, step, y)
      ensures Inv(y) && OneMayBeSent(y) && FlightsOwn(y)
    {
      StepKeeps(x, step, y);
      OwnersMakeQuiet(x, step);
      QuietStepKeeps(x, step, y);
      forall send <- y.flights ensures send.key in y.rows && OwnsRow(y.rows[send.key], send) {
        PatientKeepsOwners(x, step, y, send);
      }
    }
    Invariance(TakesPatiently, step => true, x => Inv(x) && OneMayBeSent(x) && FlightsOwn(x), EMPTY_DB, steps, db);
    assert a != b ==> SamePerson(db, a, b);
  }
}

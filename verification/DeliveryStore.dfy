/**
 The delivery tables in place: each method is one statement or one transaction
 of the repositories, and each leaves exactly the state its step describes.
 */
module DeliveryStore {
  import opened Options
  import opened RunVerdict
  import opened DeliveryState
  import opened DeliverySteps

  class Store {
    var now: int
    var mailings: map<MailingId, Mailing>
    var runs: map<RunId, Run>
    var rows: map<Key, Row>
    ghost var flights: set<Send>
    ghost var tokens: map<Token, Key>
    ghost var sends: map<Key, seq<Token>>

    ghost function State(): Db
      reads this
    {
      Db(now, mailings, runs, rows, flights, tokens, sends)
    }

    constructor ()
      ensures State() == EMPTY_DB
    {
      now, mailings, runs, rows, flights, tokens, sends := 0, map[], map[], map[], {}, map[], map[];
    }

    /** The lock on the mailing, then on the run. */
    method Locked(key: Key) returns (found: bool, generation: int, active: bool)
      ensures found <==> key.mailing in mailings && key.run in runs && runs[key.run].mailing == key.mailing
      ensures found ==> generation == runs[key.run].generation && active == InActiveRun(State(), key)
    {
      if key.mailing !in mailings {
        return false, 0, false;
      }
      if key.run !in runs || runs[key.run].mailing != key.mailing {
        return false, 0, false;
      }
      var mailing, run := mailings[key.mailing].status, runs[key.run];
      active := (mailing == Queued && run.status == RunQueued) || (mailing == Running && run.status == RunRunning);
      return true, run.generation, active;
    }

    /** Claim on the row it picked; `token` has just been drawn. */
    method Claim(key: Key, token: Token, lease: int) returns (claimed: bool)
      modifies this
      ensures claimed <==> Claimable(old(State()), key)
      ensures State() == if claimed then DeliverySteps.Claim(old(State()), key, token, lease) else old(State())
    {
      var found, generation, active := Locked(key);
      if !found || !active || key !in rows {
        return false;
      }
      var row := rows[key];
      if row.status != Pending || row.readyAt > now || row.attempts >= row.maxAttempts
         || (row.leaseUntil.Some? && row.leaseUntil.value >= now) {
        return false;
      }
      row := row.(leaseUntil := Some(now + lease));
      row := row.(leaseToken := Some(token));
      row := row.(leaseGeneration := Some(generation));
      rows := rows[key := row];
      tokens := tokens[token := key];
      claimed := true;
    }

    method Renew(key: Key, token: Token, duration: int) returns (renewed: bool)
      modifies this
      ensures renewed <==> Renewable(old(State()), key, token)
      ensures State() == DeliverySteps.Renew(old(State()), key, token, duration)
    {
      var found, generation, active := Locked(key);
      if !found || !active || key !in rows {
        return false;
      }
      var row := rows[key];
      if row.status == Pending && row.leaseToken == Some(token) && row.leaseUntil.Some? && row.leaseUntil.value > now
         && row.leaseGeneration == Some(generation) {
        rows := rows[key := row.(leaseUntil := Some(now + duration))];
        renewed := true;
      } else {
        renewed := false;
      }
    }

    method Release(key: Key, token: Token)
      modifies this
      ensures State() == DeliverySteps.Release(old(State()), key, token)
    {
      if key in rows && rows[key].status == Pending && rows[key].leaseToken == Some(token) {
        var row := Unleased(rows[key]);
        row := row.(readyAt := now + RELEASE_DELAY);
        row := row.(error := true);
        rows := rows[key := row];
      }
    }

    /** The admission of Dispatch; without it the lease is stale. */
    method Admit(key: Key, token: Token) returns (send: Option<Send>)
      modifies this
      ensures send.Some? <==> Admissible(old(State()), key, token)
      ensures send.Some? ==> send.value == AdmittedSend(old(State()), key, token)
      ensures State() == if send.Some? then DeliverySteps.Admit(old(State()), key, token) else old(State())
    {
      var found, generation, active := Locked(key);
      if !found || !active || key !in rows {
        return None;
      }
      var row := rows[key];
      if row.status != Pending || row.leaseToken != Some(token) || row.leaseUntil.None? || row.leaseUntil.value <= now
         || row.leaseGeneration != Some(generation) || row.attempts >= row.maxAttempts {
        return None;
      }
      row := row.(status := Sending);
      row := row.(startedAt := Some(now));
      row := row.(attempts := row.attempts + 1);
      rows := rows[key := row];
      var admitted := Send(key, token, row.attempts, row.random);
      flights := flights + {admitted};
      sends := sends[key := (if key in sends then sends[key] else []) + [token]];
      send := Some(admitted);
    }

    /** Records a success; `proven` is the read-back when no row changed. */
    method Succeed(send: Send) returns (proven: bool)
      modifies this
      ensures State() == DeliverySteps.Succeed(old(State()), send)
      ensures proven <==> (send.key in old(rows) && AcceptsSuccess(old(rows)[send.key], send)) || AlreadySent(State(), send)
    {
      flights := flights - {send};
      if send.key in rows && AcceptsSuccess(rows[send.key], send) {
        var row := Unleased(rows[send.key]);
        row := row.(status := DeliveryStatus.Sent);
        row := row.(sentAt := Some(now));
        row := row.(skipReason := false, error := false);
        rows := rows[send.key := row];
        return true;
      }
      if send.key !in rows {
        return false;
      }
      var row := rows[send.key];
      proven := !(row.status != DeliveryStatus.Sent || row.random != send.random || row.attempts < send.attempt
                  || row.startedAt.None?);
    }

    /** finalizeNegative: the row is judged by what the two locks show. */
    method Reject(send: Send, kind: FailureKind, retryAfter: int)
      modifies this
      ensures State() == DeliverySteps.Reject(old(State()), send, kind, retryAfter)
    {
      var delay := 0;
      match kind {
        case Transient => delay := TRANSIENT_DELAY;
        case FloodWait => delay := retryAfter;
        case Permanent =>
        case UnknownOutcome =>
      }
      flights := flights - {send};
      var found, generation, active := Locked(send.key);
      if !found || send.key !in rows || !OwnsRow(rows[send.key], send) {
        return;
      }
      var row := rows[send.key];
      var status := NegativeStatus(row, kind, generation, active);
      var readyAt := NegativeReadyAt(row, kind, generation, active, now, delay);
      row := row.(status := status, readyAt := readyAt);
      row := row.(sentAt := None, skipReason := false, error := true);
      rows := rows[send.key := Unleased(row)];
    }

    method Quarantine(send: Send)
      modifies this
      ensures State() == DeliverySteps.Quarantine(old(State()), send)
    {
      flights := flights - {send};
      if send.key in rows && OwnsRow(rows[send.key], send) {
        rows := rows[send.key := rows[send.key].(error := true)];
      }
    }

    /** One candidate of a reaper pass. */
    method Reap(key: Key, retryDelay: int)
      requires key in rows
      modifies this
      ensures State() == DeliverySteps.Reap(old(State()), key, retryDelay)
    {
      var found, generation, active := Locked(key);
      if !found || rows[key].leaseToken.None? {
        return;
      }
      var row := rows[key];
      if active && row.leaseGeneration == Some(generation) && row.attempts < row.maxAttempts {
        rows := rows[key := Unleased(row).(status := Pending, readyAt := now + retryDelay)];
      } else if (!active || (row.leaseGeneration.Some? && row.leaseGeneration.value != generation)
                 || row.attempts >= row.maxAttempts) && row.attempts >= 1 && row.startedAt.Some? {
        rows := rows[key := Unleased(row).(status := Unknown, error := true)];
      }
    }

    /** The Stop transaction. */
    method Stop(m: MailingId, scoped: bool) returns (outcome: Outcome, ghost stopped: RunId)
      modifies this
      ensures outcome == StopOutcome(old(State()), m, scoped)
      ensures StopsNow(old(State()), m) ==>
                IsActiveRun(old(State()), m, stopped) && State() == DeliverySteps.Stop(old(State()), m, stopped)
      ensures !StopsNow(old(State()), m) ==> State() == old(State())
    {
      stopped := 0;
      if m !in mailings {
        return if scoped then NotFound else InvalidState, 0;
      }
      if mailings[m].status == Stopped {
        return Done, 0;
      }
      if mailings[m].status !in {Queued, Running, Paused} {
        return InvalidState, 0;
      }
      if !exists run <- runs :: runs[run].mailing == m && Active(runs[run].status) {
        return InvalidState, 0;
      }
      var run :| run in runs && runs[run].mailing == m && Active(runs[run].status);
      assert IsActiveRun(State(), m, run);
      runs := runs[run := runs[run].(status := RunCancelled, generation := runs[run].generation + 1)];
      rows := map key | key in rows
                :: if key.mailing == m && key.run == run then StoppedRow(rows[key]) else rows[key];
      mailings := mailings[m := mailings[m].(status := Stopped)];
      return Done, run;
    }

    method Unresolved(m: MailingId) returns (unresolved: bool)
      ensures unresolved <==> HasUnresolved(State(), m)
    {
      unresolved := exists key <- rows :: key.mailing == m && UnresolvedRow(rows[key]);
    }

    /** The recipients the insert selects. */
    method EligibleRecipients(m: MailingId) returns (eligible: set<RecipientId>)
      requires m in mailings
      ensures forall r :: r in eligible <==> Eligible(State(), m, r)
      ensures eligible == {} <==> forall r <- mailings[m].recipients :: !Eligible(State(), m, r)
    {
      var delivered := set key | key in rows && key.mailing == m && rows[key].status == DeliveryStatus.Sent :: key.recipient;
      eligible := if mailings[m].once then mailings[m].recipients - delivered else mailings[m].recipients;
    }

    /** The inserted deliveries. */
    method NewRows(m: MailingId, run: RunId, eligible: set<RecipientId>, randoms: map<RecipientId, int>)
      returns (inserted: map<Key, Row>)
      requires m in mailings && forall r :: r in eligible <==> Eligible(State(), m, r)
      ensures inserted == QueuedRows(State(), m, run, randoms)
    {
      inserted := map r | r in eligible :: Key(m, run, r) := NewRow(now, if r in randoms then randoms[r] else 0);
    }

    /** The writes of the transaction. */
    method InsertRun(m: MailingId, run: RunId, number: int, inserted: map<Key, Row>)
      requires m in mailings
      modifies this
      ensures State() == old(State()).(runs := old(runs)[run := Run(m, number, RunQueued, 1)], rows := old(rows) + inserted,
                                       mailings := old(mailings)[m := old(mailings)[m].(status := Queued)])
    {
      runs := runs[run := Run(m, number, RunQueued, 1)];
      rows := rows + inserted;
      mailings := mailings[m := mailings[m].(status := Queued)];
    }

    /** The Queue transaction: nothing is kept unless some recipient is eligible. */
    method Queue(m: MailingId, run: RunId, number: int, randoms: map<RecipientId, int>) returns (outcome: Outcome)
      requires run !in runs && IsNextNumber(State(), m, number)
      modifies this
      ensures outcome == QueueOutcome(old(State()), m)
      ensures State() == DeliverySteps.Queue(old(State()), m, run, number, randoms)
    {
      if m !in mailings {
        return NotFound;
      }
      if mailings[m].status != Draft && mailings[m].status != Stopped {
        return InvalidState;
      }
      var unresolved := Unresolved(m);
      if unresolved {
        assert QueueOutcome(State(), m) == Outcome.Unresolved;
        return Outcome.Unresolved;
      }
      var eligible := EligibleRecipients(m);
      var inserted := NewRows(m, run, eligible, randoms);
      if eligible == {} {
        assert QueueOutcome(State(), m) == NoEligibleRecipients;
        return NoEligibleRecipients;
      }
      assert QueueOutcome(State(), m) == Done;
      InsertRun(m, run, number, inserted);
      outcome := Done;
    }

    /** The statuses of a run's deliveries, in whatever order they are read. */
    method ReadStates(m: MailingId, run: RunId) returns (states: seq<DeliveryStatus>)
      ensures (set s | s in states) == StatesOf(State(), m, run)
    {
      states := [];
      var todo := set key | key in rows && key.mailing == m && key.run == run;
      ghost var all := todo;
      while todo != {}
        invariant todo <= all
        invariant forall key <- all :: key in todo || rows[key].status in states
        invariant forall s <- states :: s in StatesOf(State(), m, run)
        decreases |todo|
      {
        var key :| key in todo;
        assert rows[key].status in StatesOf(State(), m, run);
        states := states + [rows[key].status];
        todo := todo - {key};
      }
    }

    /** reconcileCandidate: the run and its parent become terminal together, or nothing happens. */
    method Reconcile(m: MailingId, run: RunId, generation: int) returns (status: RunStatus, changed: bool)
      modifies this
      ensures changed <==> exists verdict :: Terminalizes(old(State()), m, run, generation, verdict)
      ensures changed ==> Terminalizes(old(State()), m, run, generation, status)
      ensures State() == if changed then Terminalize(old(State()), m, run, status) else old(State())
    {
      var found, current, active := Locked(Key(m, run, 0));
      if !found || current != generation || !active {
        return RunQueued, false;
      }
      var states := ReadStates(m, run);
      status, changed := TerminalRunStatus(states);
      if !changed {
        return status, false;
      }
      assert Terminalizes(State(), m, run, generation, status);
      runs := runs[run := runs[run].(status := status)];
      mailings := mailings[m := mailings[m].(status := ParentStatus(status))];
    }
  }
}

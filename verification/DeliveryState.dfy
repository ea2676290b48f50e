/**
 The rows behind mailings, runs and deliveries
 (migrations/20260801000000_current_schema.sql) and the sends that workers have
 in flight.  A NULL column is None; comparing it with SQL's `=` is never true.
 */
module DeliveryState {
  import opened Options
  import opened RunVerdict

  type MailingId = nat
  type RunId = nat
  type RecipientId = nat
  type Token = nat

  datatype MailingStatus = Draft | Queued | Running | Paused | Stopped | Completed | MailingFailed

  datatype Mailing = Mailing(status: MailingStatus, once: bool, recipients: set<RecipientId>)

  datatype Run = Run(mailing: MailingId, number: int, status: RunStatus, generation: int)

  datatype Key = Key(mailing: MailingId, run: RunId, recipient: RecipientId)

  /** One delivery with its Telegram idempotency key; `error` is a non-blank error_message. */
  datatype Row = Row(
    status: DeliveryStatus, attempts: int, maxAttempts: int, readyAt: int, startedAt: Option<int>, sentAt: Option<int>,
    skipReason: bool, error: bool,
    leaseToken: Option<Token>, leaseUntil: Option<int>, leaseGeneration: Option<int>, random: int)

  const MAX_ATTEMPTS := 5
  const RELEASE_DELAY := 5
  const TRANSIENT_DELAY := 5

  function NewRow(now: int, random: int): Row {
    Row(Pending, 0, MAX_ATTEMPTS, now, None, None, false, false, None, None, None, random)
  }

  /** An admitted send whose outcome has not been recorded yet. */
  datatype Send = Send(key: Key, token: Token, attempt: int, random: int)

  /**
   `tokens` and `sends` are history: the delivery each token was drawn for, and
   the tokens whose sends a delivery has admitted, in order.
   */
  datatype Db = Db(
    now: int, mailings: map<MailingId, Mailing>, runs: map<RunId, Run>, rows: map<Key, Row>, flights: set<Send>,
    tokens: map<Token, Key>, sends: map<Key, seq<Token>>)

  predicate Active(run: RunStatus) { run in {RunQueued, RunRunning} }

  predicate ActivePair(mailing: MailingStatus, run: RunStatus) {
    (mailing == Queued && run == RunQueued) || (mailing == Running && run == RunRunning)
  }

  predicate InActiveRun(db: Db, key: Key) {
    && key.mailing in db.mailings && key.run in db.runs && db.runs[key.run].mailing == key.mailing
    && ActivePair(db.mailings[key.mailing].status, db.runs[key.run].status)
  }

  function Unleased(row: Row): Row {
    row.(leaseToken := None, leaseUntil := None, leaseGeneration := None)
  }

  function SetRow(db: Db, key: Key, row: Row): Db {
    db.(rows := db.rows[key := row])
  }

  // ------------------------------------------------------- the table's CHECK constraints

  predicate LeaseTriple(row: Row) {
    row.leaseToken.Some? && row.leaseUntil.Some? && row.leaseGeneration.Some? && row.leaseGeneration.value >= 1
  }

  predicate NoLease(row: Row) {
    row.leaseToken.None? && row.leaseUntil.None? && row.leaseGeneration.None?
  }

  /** ck_mailing_deliveries_* */
  predicate Checks(row: Row) {
    && row.attempts >= 0 && row.maxAttempts >= 1
    && (row.status == Sent ==> row.sentAt.Some?)
    && (row.status == Skipped ==> row.skipReason)
    && (NoLease(row) || LeaseTriple(row))
    && (row.status == Sending ==> LeaseTriple(row) && row.attempts >= 1 && row.startedAt.Some?)
    && (row.status in {Sent, Skipped, Failed, Unknown} ==> NoLease(row))
    && (row.status == Unknown ==> row.attempts >= 1 && row.startedAt.Some? && row.error)
  }
}

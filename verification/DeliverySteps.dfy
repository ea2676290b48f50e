/**
 The statements and transactions that workers, Stop, Queue, the reaper and the
 reconciler race with, one atomic step each.
 */
module DeliverySteps {
  import opened Options
  import opened RunVerdict
  import opened DeliveryState

  // ------------------------------------------------------------- claims (claims.go, claim.go)

  predicate Claimable(db: Db, key: Key) {
    && key in db.rows && InActiveRun(db, key)
    && var row := db.rows[key];
    && row.status == Pending && row.readyAt <= db.now && row.attempts < row.maxAttempts
    && (row.leaseUntil.None? || row.leaseUntil.value < db.now)
  }

  /** Claim draws a fresh token and leases the row to it. */
  function Claim(db: Db, key: Key, token: Token, lease: int): Db
    requires Claimable(db, key)
  {
    var row := db.rows[key].(leaseUntil := Some(db.now + lease), leaseToken := Some(token),
                             leaseGeneration := Some(db.runs[key.run].generation));
    SetRow(db, key, row).(tokens := db.tokens[token := key])
  }

  predicate Renewable(db: Db, key: Key, token: Token) {
    && key in db.rows && InActiveRun(db, key)
    && var row := db.rows[key];
    && row.status == Pending && row.leaseToken == Some(token)
    && row.leaseUntil.Some? && row.leaseUntil.value > db.now
    && row.leaseGeneration == Some(db.runs[key.run].generation)
  }

  /** Renew; without a row to renew the lease is lost and nothing changes. */
  function Renew(db: Db, key: Key, token: Token, duration: int): Db {
    if Renewable(db, key, token) then SetRow(db, key, db.rows[key].(leaseUntil := Some(db.now + duration))) else db
  }

  function Release(db: Db, key: Key, token: Token): Db {
    if key in db.rows && db.rows[key].status == Pending && db.rows[key].leaseToken == Some(token)
    then SetRow(db, key, Unleased(db.rows[key]).(readyAt := db.now + RELEASE_DELAY, error := true))
    else db
  }

  // ----------------------------------------------------- one dispatch (deliveries/delivery.go)

  predicate Admissible(db: Db, key: Key, token: Token) {
    && key in db.rows && InActiveRun(db, key)
    && var row := db.rows[key];
    && row.status == Pending && row.leaseToken == Some(token)
    && row.leaseUntil.Some? && row.leaseUntil.value > db.now
    && row.leaseGeneration == Some(db.runs[key.run].generation)
    && row.attempts < row.maxAttempts
  }

  function Admitted(row: Row, now: int): Row {
    row.(status := Sending, startedAt := Some(now), attempts := row.attempts + 1)
  }

  function AdmittedSend(db: Db, key: Key, token: Token): Send
    requires key in db.rows
  {
    Send(key, token, db.rows[key].attempts + 1, db.rows[key].random)
  }

  /** The admission of Dispatch; the port's Send is then in flight. */
  function Admit(db: Db, key: Key, token: Token): Db
    requires Admissible(db, key, token)
  {
    SetRow(db, key, Admitted(db.rows[key], db.now))
      .(flights := db.flights + {AdmittedSend(db, key, token)},
        sends := db.sends[key := (if key in db.sends then db.sends[key] else []) + [token]])
  }

  function Landed(db: Db, send: Send): Db { db.(flights := db.flights - {send}) }

  predicate AcceptsSuccess(row: Row, send: Send) {
    && row.random == send.random && row.attempts >= send.attempt && row.startedAt.Some?
    && row.status in {Pending, Sending, Unknown, Failed, Skipped}
  }

  function Sent(row: Row, now: int): Row {
    Unleased(row).(status := DeliveryStatus.Sent, sentAt := Some(now), skipReason := false, error := false)
  }

  /** The send succeeded. */
  function Succeed(db: Db, send: Send): Db {
    if send.key in db.rows && AcceptsSuccess(db.rows[send.key], send)
    then SetRow(Landed(db, send), send.key, Sent(db.rows[send.key], db.now))
    else Landed(db, send)
  }

  /** The proof that is read back when the success changed no row. */
  predicate AlreadySent(db: Db, send: Send) {
    && send.key in db.rows && db.rows[send.key].status == DeliveryStatus.Sent
    && db.rows[send.key].random == send.random && db.rows[send.key].attempts >= send.attempt
    && db.rows[send.key].startedAt.Some?
  }

  datatype FailureKind = UnknownOutcome | Permanent | Transient | FloodWait

  predicate OwnsRow(row: Row, send: Send) {
    && row.random == send.random && row.status == Sending && row.leaseToken == Some(send.token)
    && row.attempts == send.attempt && row.startedAt.Some?
  }

  /** The status CASE of finalizeNegative; IS DISTINCT FROM holds of a NULL generation. */
  function NegativeStatus(row: Row, kind: FailureKind, generation: int, active: bool): DeliveryStatus {
    if row.leaseGeneration != Some(generation) || !active then Unknown
    else if kind == UnknownOutcome then Unknown
    else if kind == Permanent then Failed
    else if row.attempts >= row.maxAttempts then Failed
    else Pending
  }

  /** The ready_at CASE of finalizeNegative; `=` never holds of a NULL generation. */
  function NegativeReadyAt(row: Row, kind: FailureKind, generation: int, active: bool, now: int, delay: int): int {
    if kind in {Transient, FloodWait} && row.attempts < row.maxAttempts && row.leaseGeneration == Some(generation) && active
    then now + delay else row.readyAt
  }

  function Negative(row: Row, kind: FailureKind, generation: int, active: bool, now: int, delay: int): Row {
    Unleased(row).(status := NegativeStatus(row, kind, generation, active),
                   readyAt := NegativeReadyAt(row, kind, generation, active, now, delay),
                   sentAt := None, skipReason := false, error := true)
  }

  function Delay(kind: FailureKind, retryAfter: int): int {
    match kind
    case Transient => TRANSIENT_DELAY
    case FloodWait => retryAfter
    case _ => 0
  }

  /** The send failed with a classified error. */
  function Reject(db: Db, send: Send, kind: FailureKind, retryAfter: int): Db {
    var key := send.key;
    if key.mailing in db.mailings && key.run in db.runs && db.runs[key.run].mailing == key.mailing
       && key in db.rows && OwnsRow(db.rows[key], send)
    then SetRow(Landed(db, send), key,
                Negative(db.rows[key], kind, db.runs[key.run].generation, InActiveRun(db, key), db.now,
                         Delay(kind, retryAfter)))
    else Landed(db, send)
  }

  /** The send was cancelled: only the diagnostic is kept. */
  function Quarantine(db: Db, send: Send): Db {
    if send.key in db.rows && OwnsRow(db.rows[send.key], send)
    then SetRow(Landed(db, send), send.key, db.rows[send.key].(error := true))
    else Landed(db, send)
  }

  // ------------------------------------------------------------------ reaper (reaper.go)

  predicate Expired(db: Db, key: Key, grace: int) {
    && key in db.rows && db.rows[key].status == Sending
    && db.rows[key].leaseUntil.Some? && db.rows[key].leaseUntil.value < db.now - grace
  }

  predicate Retryable(db: Db, key: Key)
    requires key in db.rows
  {
    InActiveRun(db, key) && db.rows[key].leaseGeneration == Some(db.runs[key.run].generation)
    && db.rows[key].attempts < db.rows[key].maxAttempts
  }

  /** NOT retryable; it is NULL, and so not true, of a NULL generation that alone decides. */
  predicate NotRetryable(db: Db, key: Key)
    requires key in db.rows && key.run in db.runs
  {
    || !InActiveRun(db, key)
    || (db.rows[key].leaseGeneration.Some? && db.rows[key].leaseGeneration.value != db.runs[key.run].generation)
    || db.rows[key].attempts >= db.rows[key].maxAttempts
  }

  /** What the reaper makes of one expired candidate. */
  function Reap(db: Db, key: Key, retryDelay: int): Db
    requires key in db.rows
  {
    var row := db.rows[key];
    if !(key.mailing in db.mailings && key.run in db.runs && db.runs[key.run].mailing == key.mailing && row.leaseToken.Some?)
    then db
    else if Retryable(db, key) then SetRow(db, key, Unleased(row).(status := Pending, readyAt := db.now + retryDelay))
    else if NotRetryable(db, key) && row.attempts >= 1 && row.startedAt.Some? then
      SetRow(db, key, Unleased(row).(status := Unknown, error := true))
    else db
  }

  // ------------------------------------------------- Queue and Stop (mailings/mailing.go)

  datatype Outcome = Done | NotFound | InvalidState | Unresolved | NoEligibleRecipients

  predicate UnresolvedRow(row: Row) {
    row.status in {Sending, Unknown} || (row.status == Pending && row.attempts > 0)
  }

  ghost predicate HasUnresolved(db: Db, m: MailingId) {
    exists key <- db.rows :: key.mailing == m && UnresolvedRow(db.rows[key])
  }

  ghost predicate AlreadyDelivered(db: Db, m: MailingId, r: RecipientId) {
    exists key <- db.rows :: key.mailing == m && key.recipient == r && db.rows[key].status == DeliveryStatus.Sent
  }

  ghost predicate Eligible(db: Db, m: MailingId, r: RecipientId)
    requires m in db.mailings
  {
    r in db.mailings[m].recipients && !(db.mailings[m].once && AlreadyDelivered(db, m, r))
  }

  ghost function QueueOutcome(db: Db, m: MailingId): Outcome {
    if m !in db.mailings then NotFound
    else if db.mailings[m].status !in {Draft, Stopped} then InvalidState
    else if HasUnresolved(db, m) then Unresolved
    else if forall r <- db.mailings[m].recipients :: !Eligible(db, m, r) then NoEligibleRecipients
    else Done
  }

  /** COALESCE(MAX(number), 0) + 1 */
  ghost predicate IsNextNumber(db: Db, m: MailingId, n: int) {
    && n >= 1 && (forall id <- db.runs :: db.runs[id].mailing == m ==> db.runs[id].number < n)
    && (n > 1 ==> exists id :: id in db.runs && db.runs[id].mailing == m && db.runs[id].number == n - 1)
  }

  /** Rows of a new run for every eligible recipient. */
  ghost function QueuedRows(db: Db, m: MailingId, run: RunId, randoms: map<RecipientId, int>): map<Key, Row>
    requires m in db.mailings
  {
    map r | r in db.mailings[m].recipients && Eligible(db, m, r)
      :: Key(m, run, r) := NewRow(db.now, if r in randoms then randoms[r] else 0)
  }

  /** The committed Queue transaction; `run` and the random ids are drawn by the database. */
  ghost function Queue(db: Db, m: MailingId, run: RunId, number: int, randoms: map<RecipientId, int>): Db {
    if QueueOutcome(db, m) != Done then db
    else
      db.(runs := db.runs[run := Run(m, number, RunQueued, 1)],
          rows := db.rows + QueuedRows(db, m, run, randoms),
          mailings := db.mailings[m := db.mailings[m].(status := Queued)])
  }

  ghost predicate IsActiveRun(db: Db, m: MailingId, run: RunId) {
    run in db.runs && db.runs[run].mailing == m && Active(db.runs[run].status)
  }

  function StoppedRow(row: Row): Row {
    if row.status != Pending then row
    else if row.attempts == 0 then Unleased(row).(status := Skipped, skipReason := true)
    else Unleased(row).(status := Unknown, skipReason := false, error := true)
  }

  /** Only an operator is told that the mailing does not exist. */
  ghost function StopOutcome(db: Db, m: MailingId, scoped: bool): Outcome {
    if m !in db.mailings then if scoped then NotFound else InvalidState
    else if db.mailings[m].status == Stopped then Done
    else if db.mailings[m].status !in {Queued, Running, Paused} then InvalidState
    else if !exists run :: IsActiveRun(db, m, run) then InvalidState
    else Done
  }

  ghost predicate StopsNow(db: Db, m: MailingId) {
    m in db.mailings && StopOutcome(db, m, true) == Done && db.mailings[m].status != Stopped
  }

  /** The committed Stop transaction on the mailing's active run. */
  ghost function Stop(db: Db, m: MailingId, run: RunId): Db
    requires m in db.mailings && IsActiveRun(db, m, run)
  {
    db.(runs := db.runs[run := db.runs[run].(status := RunCancelled, generation := db.runs[run].generation + 1)],
        rows := map key | key in db.rows
                  :: if key.mailing == m && key.run == run then StoppedRow(db.rows[key]) else db.rows[key],
        mailings := db.mailings[m := db.mailings[m].(status := Stopped)])
  }

  // ----------------------------------------------------------- reconciler (reconciler.go)

  ghost function StatesOf(db: Db, m: MailingId, run: RunId): set<DeliveryStatus> {
    set key | key in db.rows && key.mailing == m && key.run == run :: db.rows[key].status
  }

  ghost predicate Terminalizes(db: Db, m: MailingId, run: RunId, generation: int, verdict: RunStatus) {
    && m in db.mailings && run in db.runs && db.runs[run].mailing == m
    && db.runs[run].generation == generation && ActivePair(db.mailings[m].status, db.runs[run].status)
    && IsVerdict(StatesOf(db, m, run), verdict, true)
  }

  function ParentStatus(verdict: RunStatus): MailingStatus {
    if verdict == RunCompleted then Completed else MailingFailed
  }

  /** The run and its parent mailing become terminal in one transaction. */
  function Terminalize(db: Db, m: MailingId, run: RunId, verdict: RunStatus): Db
    requires m in db.mailings && run in db.runs
  {
    db.(runs := db.runs[run := db.runs[run].(status := verdict)],
        mailings := db.mailings[m := db.mailings[m].(status := ParentStatus(verdict))])
  }

  // ------------------------------------------------------------------------- one step

  datatype Step =
    | Tick(elapsed: nat)
    | Create(m: MailingId, mailing: Mailing)
    | QueueStep(m: MailingId, run: RunId, number: int, randoms: map<RecipientId, int>)
    | StopStep(m: MailingId, run: RunId)
    | ClaimStep(key: Key, token: Token, lease: int)
    | RenewStep(key: Key, token: Token, lease: int)
    | ReleaseStep(key: Key, token: Token)
    | AdmitStep(key: Key, token: Token)
    | SucceedStep(send: Send)
    | RejectStep(send: Send, kind: FailureKind, retryAfter: int)
    | QuarantineStep(send: Send)
    | LoseStep(send: Send)
    | ReapStep(key: Key, grace: nat, retryDelay: nat)
    | ReconcileStep(m: MailingId, run: RunId, generation: int, verdict: RunStatus)

  ghost predicate Can(db: Db, step: Step) {
    match step
    case Tick(_) => true
    case Create(m, mailing) => m !in db.mailings && mailing.status == Draft
    case QueueStep(m, run, number, _) => run !in db.runs && IsNextNumber(db, m, number)
    case StopStep(m, run) => StopsNow(db, m) && IsActiveRun(db, m, run)
    case ClaimStep(key, token, lease) => lease > 0 && token !in db.tokens && Claimable(db, key)
    case RenewStep(key, token, lease) => lease > 0
    case ReleaseStep(_, _) => true
    case AdmitStep(key, token) => Admissible(db, key, token)
    case SucceedStep(send) => send in db.flights
    case RejectStep(send, _, _) => send in db.flights
    case QuarantineStep(send) => send in db.flights
    // a finalization that fails or a worker that dies: the outcome is never recorded
    case LoseStep(send) => send in db.flights
    case ReapStep(key, grace, _) => Expired(db, key, grace)
    case ReconcileStep(m, run, generation, verdict) => Terminalizes(db, m, run, generation, verdict)
  }

  ghost function Do(db: Db, step: Step): Db
    requires Can(db, step)
  {
    match step
    case Tick(elapsed) => db.(now := db.now + elapsed)
    case Create(m, mailing) => db.(mailings := db.mailings[m := mailing])
    case QueueStep(m, run, number, randoms) => Queue(db, m, run, number, randoms)
    case StopStep(m, run) => Stop(db, m, run)
    case ClaimStep(key, token, lease) => Claim(db, key, token, lease)
    case RenewStep(key, token, lease) => Renew(db, key, token, lease)
    case ReleaseStep(key, token) => Release(db, key, token)
    case AdmitStep(key, token) => Admit(db, key, token)
    case SucceedStep(send) => Succeed(db, send)
    case RejectStep(send, kind, retryAfter) => Reject(db, send, kind, retryAfter)
    case QuarantineStep(send) => Quarantine(db, send)
    case LoseStep(send) => Landed(db, send)
    case ReapStep(key, _, retryDelay) => Reap(db, key, retryDelay)
    case ReconcileStep(m, run, _, verdict) => Terminalize(db, m, run, verdict)
  }

  ghost predicate Takes(db: Db, step: Step, db': Db) { Can(db, step) && db' == Do(db, step) }

  const EMPTY_DB := Db(0, map[], map[], map[], {}, map[], map[])
}

/**
 LoginRateLimiter (entrypoint/http/authentication/authentication.go): fixed
 windows per identity and for the whole process, over a bounded table that is
 cleaned now and then.  Time is a number; 0 is Go's zero time.
 */
module LoginLimiter {
  import opened Sets
  import opened Traces
  import opened Windows

  type Identity = string

  datatype Config = Config(window: int, attemptsPerKey: nat, globalAttempts: nat, maxEntries: nat, cleanupInterval: int)

  datatype Entry = Entry(windowStarted: int, lastSeen: int, attempts: nat)

  datatype State = State(entries: map<Identity, Entry>, global: Entry, lastCleanup: int)

  const FRESH := State(map[], Entry(0, 0, 0), 0)

  // ------------------------------------------------------------------- one attempt

  predicate CleansUp(c: Config, st: State, now: int) {
    st.lastCleanup == 0 || now - st.lastCleanup >= c.cleanupInterval
  }

  function Kept(c: Config, entries: map<Identity, Entry>, now: int): map<Identity, Entry> {
    map key | key in entries && now - entries[key].lastSeen < c.window :: entries[key]
  }

  function Cleaned(c: Config, st: State, now: int): State {
    if CleansUp(c, st, now) then st.(entries := Kept(c, st.entries, now), lastCleanup := now) else st
  }

  function CurrentGlobal(c: Config, global: Entry, now: int): Entry {
    var g := if now - global.windowStarted >= c.window then Entry(now, 0, 0) else global;
    if g.windowStarted == 0 then g.(windowStarted := now) else g
  }

  predicate Full(c: Config, entries: map<Identity, Entry>, key: Identity) {
    key !in entries && |entries| >= c.maxEntries
  }

  function CurrentEntry(c: Config, entries: map<Identity, Entry>, now: int, key: Identity): Entry {
    var entry := if key in entries then entries[key] else Entry(now, 0, 0);
    (if now - entry.windowStarted >= c.window then Entry(now, 0, 0) else entry).(lastSeen := now)
  }

  /** The global count is spent before the identity is looked at. */
  function Answer(c: Config, st: State, now: int, key: Identity): (State, bool) {
    var st1 := Cleaned(c, st, now);
    var st2 := st1.(global := CurrentGlobal(c, st1.global, now));
    if st2.global.attempts >= c.globalAttempts then (st2, false)
    else
      var st3 := st2.(global := st2.global.(attempts := st2.global.attempts + 1));
      if Full(c, st3.entries, key) then (st3, false)
      else
        var entry := CurrentEntry(c, st3.entries, now, key);
        if entry.attempts >= c.attemptsPerKey then (st3.(entries := st3.entries[key := entry]), false)
        else (st3.(entries := st3.entries[key := entry.(attempts := entry.attempts + 1)]), true)
  }

  // ------------------------------------------------------------------ any sequence

  /** The limiter, the last time it was asked, and what it has let through. */
  datatype Log = Log(st: State, clock: int, passed: seq<Hit>, accepted: map<Identity, seq<Hit>>)

  const START := Log(FRESH, 0, [], map[])

  datatype Attempt = Attempt(now: int, key: Identity)

  function AcceptedOf(log: Log, key: Identity): seq<Hit> {
    if key in log.accepted then log.accepted[key] else []
  }

  /** Let through by the global check, whatever the identity's own answer. */
  predicate Passes(c: Config, st: State, now: int) {
    CurrentGlobal(c, st.global, now).attempts < c.globalAttempts
  }

  /** One call of Allow at a time no earlier than the last one, and past the zero time. */
  ghost predicate Asks(c: Config, log: Log, a: Attempt, log': Log) {
    && a.now > 0 && a.now >= log.clock
    && var (st, accepted) := Answer(c, log.st, a.now, a.key);
    && log'.st == st && log'.clock == a.now
    && log'.passed == (if Passes(c, log.st, a.now) then log.passed + [Hit(a.now, st.global.windowStarted)] else log.passed)
    && log'.accepted == if accepted && a.key in st.entries
         then log.accepted[a.key := AcceptedOf(log, a.key) + [Hit(a.now, st.entries[a.key].windowStarted)]]
         else log.accepted
  }

  predicate Usable(c: Config) { c.window > 0 && c.cleanupInterval > 0 && c.maxEntries > 0 }

  ghost predicate GlobalOk(c: Config, log: Log) {
    var g := log.st.global;
    if log.clock == 0 then g == Entry(0, 0, 0) && log.passed == []
    else g.windowStarted > 0 && g.windowStarted <= log.clock && g.attempts <= c.globalAttempts
         && Counts(log.passed, c.window, c.globalAttempts, g.windowStarted, g.attempts)
  }

  ghost predicate KeyOk(c: Config, log: Log, key: Identity) {
    if key in log.st.entries then
      var e := log.st.entries[key];
      && e.windowStarted <= e.lastSeen <= log.clock && e.attempts <= c.attemptsPerKey
      && Counts(AcceptedOf(log, key), c.window, c.attemptsPerKey, e.windowStarted, e.attempts)
    else Ended(AcceptedOf(log, key), c.window, c.attemptsPerKey, log.clock)
  }

  ghost predicate LogOk(c: Config, log: Log) {
    && log.clock >= 0 && |log.st.entries| <= c.maxEntries && GlobalOk(c, log)
    && forall key :: KeyOk(c, log, key)
  }

  lemma KeptSize(c: Config, entries: map<Identity, Entry>, now: int)
    ensures |Kept(c, entries, now)| <= |entries|
  {
    assert Kept(c, entries, now).Keys <= entries.Keys;
    SubsetSize(Kept(c, entries, now).Keys, entries.Keys);
  }

  lemma InsertSize(entries: map<Identity, Entry>, key: Identity, entry: Entry)
    ensures |entries[key := entry]| == if key in entries then |entries| else |entries| + 1
  {
  }

  lemma SizeKept(c: Config, log: Log, a: Attempt, log': Log)
    requires Usable(c) && Asks(c, log, a, log') && |log.st.entries| <= c.maxEntries
    ensures |log'.st.entries| <= c.maxEntries
  {
    KeptSize(c, log.st.entries, a.now);
    if a.key in log'.st.entries {
      InsertSize(Cleaned(c, log.st, a.now).entries, a.key, log'.st.entries[a.key]);
    }
  }

  /** The global window as the attempt finds it, before it is counted. */
  lemma GlobalCurrent(c: Config, log: Log, now: int)
    requires Usable(c) && GlobalOk(c, log) && now > 0 && now >= log.clock >= 0
    ensures var g := CurrentGlobal(c, log.st.global, now);
            && 0 < g.windowStarted <= now < g.windowStarted + c.window && g.attempts <= c.globalAttempts
            && Counts(log.passed, c.window, c.globalAttempts, g.windowStarted, g.attempts)
  {
    var g := log.st.global;
    if log.clock == 0 {
      Opens(log.passed, c.window, c.globalAttempts, now);
    } else if now - g.windowStarted >= c.window {
      Expires(log.passed, c.window, c.globalAttempts, g.windowStarted, g.attempts, now);
      Opens(log.passed, c.window, c.globalAttempts, now);
    }
  }

  lemma GlobalAfter(c: Config, log: Log, a: Attempt, log': Log)
    requires Asks(c, log, a, log')
    ensures var g := CurrentGlobal(c, log.st.global, a.now);
            if Passes(c, log.st, a.now) then
              && log'.st.global.windowStarted == g.windowStarted && log'.st.global.attempts == g.attempts + 1
              && log'.passed == log.passed + [Hit(a.now, g.windowStarted)]
            else log'.st.global.windowStarted == g.windowStarted && log'.st.global.attempts == g.attempts
                 && log'.passed == log.passed
  {
  }

  lemma GlobalKept(c: Config, log: Log, a: Attempt, log': Log)
    requires Usable(c) && Asks(c, log, a, log') && GlobalOk(c, log) && log.clock >= 0
    ensures GlobalOk(c, log')
  {
    GlobalCurrent(c, log, a.now);
    GlobalAfter(c, log, a, log');
    var g := CurrentGlobal(c, log.st.global, a.now);
    if Passes(c, log.st, a.now) {
      Hits(log.passed, c.window, c.globalAttempts, g.windowStarted, g.attempts, a.now);
    }
  }

  /** A cleaned-up entry's window is over, so nothing is forgotten that still counts. */
  lemma KeyCleaned(c: Config, log: Log, now: int, key: Identity)
    requires Usable(c) && KeyOk(c, log, key) && now >= log.clock
    ensures KeyOk(c, log.(st := Cleaned(c, log.st, now), clock := now), key)
  {
  }

  /** The identity's window as the attempt finds it. */
  lemma EntryCurrent(c: Config, log: Log, key: Identity)
    requires Usable(c) && KeyOk(c, log, key)
    ensures var e := CurrentEntry(c, log.st.entries, log.clock, key);
            && e.windowStarted <= log.clock == e.lastSeen && log.clock < e.windowStarted + c.window
            && e.attempts <= c.attemptsPerKey
            && Counts(AcceptedOf(log, key), c.window, c.attemptsPerKey, e.windowStarted, e.attempts)
  {
    if key !in log.st.entries {
      Opens(AcceptedOf(log, key), c.window, c.attemptsPerKey, log.clock);
    } else {
      var e := log.st.entries[key];
      if log.clock - e.windowStarted >= c.window {
        Expires(AcceptedOf(log, key), c.window, c.attemptsPerKey, e.windowStarted, e.attempts, log.clock);
        Opens(AcceptedOf(log, key), c.window, c.attemptsPerKey, log.clock);
      }
    }
  }

  lemma OtherKeyKept(c: Config, log: Log, a: Attempt, log': Log, key: Identity)
    requires Usable(c) && Asks(c, log, a, log') && KeyOk(c, log, key) && key != a.key
    ensures KeyOk(c, log', key)
  {
  }

  /** The entry and the accepted hits of the identity that asks. */
  lemma AskedEntry(c: Config, log: Log, a: Attempt, log': Log)
    requires Asks(c, log, a, log')
    ensures var entries := Cleaned(c, log.st, a.now).entries;
            var e, hits := CurrentEntry(c, entries, a.now, a.key), AcceptedOf(log, a.key);
            if !Passes(c, log.st, a.now) || Full(c, entries, a.key) then
              log'.st.entries == entries && log'.accepted == log.accepted
            else if e.attempts >= c.attemptsPerKey then
              log'.st.entries == entries[a.key := e] && log'.accepted == log.accepted
            else
              && log'.st.entries == entries[a.key := e.(attempts := e.attempts + 1)]
              && AcceptedOf(log', a.key) == hits + [Hit(a.now, e.windowStarted)]
  {
  }

  /** The entry is stored as it was found, or with one more hit. */
  lemma EntrySpent(c: Config, log: Log, log': Log, key: Identity)
    requires Usable(c) && KeyOk(c, log, key) && log'.clock == log.clock && key in log'.st.entries
    requires var e, hits := CurrentEntry(c, log.st.entries, log.clock, key), AcceptedOf(log, key);
             || (log'.st.entries[key] == e && AcceptedOf(log', key) == hits)
             || (e.attempts < c.attemptsPerKey && log'.st.entries[key] == e.(attempts := e.attempts + 1)
                 && AcceptedOf(log', key) == hits + [Hit(log.clock, e.windowStarted)])
    ensures KeyOk(c, log', key)
  {
    EntryCurrent(c, log, key);
    var e := CurrentEntry(c, log.st.entries, log.clock, key);
    if e.attempts < c.attemptsPerKey {
      Hits(AcceptedOf(log, key), c.window, c.attemptsPerKey, e.windowStarted, e.attempts, log.clock);
    }
  }

  lemma AskedKeyKept(c: Config, log: Log, a: Attempt, log': Log)
    requires Usable(c) && Asks(c, log, a, log') && KeyOk(c, log, a.key)
    ensures KeyOk(c, log', a.key)
  {
    var mid := log.(st := Cleaned(c, log.st, a.now), clock := a.now);
    KeyCleaned(c, log, a.now, a.key);
    AskedEntry(c, log, a, log');
    if Passes(c, log.st, a.now) && !Full(c, mid.st.entries, a.key) {
      EntrySpent(c, mid, log', a.key);
    }
  }

  lemma AskKeeps(c: Config, log: Log, a: Attempt, log': Log)
    requires Usable(c) && Asks(c, log, a, log') && LogOk(c, log)
    ensures LogOk(c, log')
  {
    SizeKept(c, log, a, log');
    GlobalKept(c, log, a, log');
    forall key ensures KeyOk(c, log', key) {
      if key == a.key { AskedKeyKept(c, log, a, log'); } else { OtherKeyKept(c, log, a, log', key); }
    }
  }

  /**
   Whatever is asked when: the table is bounded, each identity is accepted at
   most AttemptsPerKey times in each of its windows and at most twice that in
   any interval of a window's length, and so is the process as a whole.
   */
  lemma Bounded(c: Config, attempts: seq<Attempt>, log: Log, key: Identity, started: int, from: int)
    requires Usable(c) && Leads((x, a, y) => Asks(c, x, a, y), START, attempts, log)
    ensures |log.st.entries| <= c.maxEntries
    ensures InWindow(AcceptedOf(log, key), started) <= c.attemptsPerKey
    ensures Between(AcceptedOf(log, key), from, c.window) <= 2 * c.attemptsPerKey
    ensures InWindow(log.passed, started) <= c.globalAttempts
    ensures Between(log.passed, from, c.window) <= 2 * c.globalAttempts
  {
    var next := (x, a, y) => Asks(c, x, a, y);
    forall x, a, y | LogOk(c, x) && next(x, a, y) ensures LogOk(c, y) { AskKeeps(c, x, a, y); }
    assert LogOk(c, START) by { forall k ensures KeyOk(c, START, k) {} }
    Invariance(next, a => true, x => LogOk(c, x), START, attempts, log);
    assert KeyOk(c, log, key);
    TwiceTheLimit(AcceptedOf(log, key), c.window, c.attemptsPerKey, from);
    TwiceTheLimit(log.passed, c.window, c.globalAttempts, from);
  }

  // --------------------------------------------------------------- who is kept track of

  /** When cleaning up is due, exactly the identities not seen for a whole window are forgotten; otherwise nobody is. */
  lemma ForgetsExactly(c: Config, log: Log, a: Attempt, log': Log, key: Identity)
    requires Asks(c, log, a, log') && key != a.key
    ensures var due := log.st.lastCleanup == 0 || a.now - log.st.lastCleanup >= c.cleanupInterval;
            && log'.st.lastCleanup == (if due then a.now else log.st.lastCleanup)
            && (key in log'.st.entries <==>
                  key in log.st.entries && (due ==> a.now - log.st.entries[key].lastSeen < c.window))
            && (key in log'.st.entries ==> log'.st.entries[key] == log.st.entries[key])
  {
  }

  /** An identity that got past the global window and found room is seen now, whether it is let in or not. */
  lemma SeenNow(c: Config, log: Log, a: Attempt, log': Log)
    requires Asks(c, log, a, log') && Passes(c, log.st, a.now) && a.key in log'.st.entries
    ensures log'.st.entries[a.key].lastSeen == a.now
  {
  }

  // ----------------------------------------------------------- refusals are exact

  /** The configuration lets anyone in at all, as every constructed one does. */
  predicate Permits(c: Config) { Usable(c) && c.attemptsPerKey > 0 && c.globalAttempts > 0 }

  predicate Tells(hits: seq<Hit>, started: int) { |hits| > 0 && hits[|hits| - 1].started == started }

  /** Every window that is kept track of has let something through. */
  ghost predicate Told(log: Log) {
    && (log.clock > 0 ==> Tells(log.passed, log.st.global.windowStarted))
    && forall key <- log.st.entries :: Tells(AcceptedOf(log, key), log.st.entries[key].windowStarted)
  }

  lemma GlobalTold(c: Config, log: Log, a: Attempt, log': Log)
    requires Permits(c) && LogOk(c, log) && Told(log) && Asks(c, log, a, log')
    ensures CurrentGlobal(c, log.st.global, a.now).windowStarted == OpenWindow(log.passed, c.window, a.now)
    ensures Tells(log'.passed, log'.st.global.windowStarted)
  {
  }

  lemma AskedTold(c: Config, log: Log, a: Attempt, log': Log)
    requires Permits(c) && LogOk(c, log) && Told(log) && Asks(c, log, a, log')
    ensures a.key in log'.st.entries ==> Tells(AcceptedOf(log', a.key), log'.st.entries[a.key].windowStarted)
  {
    AskedEntry(c, log, a, log');
  }

  lemma AskTells(c: Config, log: Log, a: Attempt, log': Log)
    requires Permits(c) && LogOk(c, log) && Told(log) && Asks(c, log, a, log')
    ensures Told(log')
  {
    GlobalTold(c, log, a, log');
    AskedTold(c, log, a, log');
    forall key | key in log'.st.entries && key != a.key
      ensures Tells(AcceptedOf(log', key), log'.st.entries[key].windowStarted)
    {
      assert AcceptedOf(log', key) == AcceptedOf(log, key);
    }
  }

  /** As many attempts as one window may hold were let through in the window open at `now`. */
  predicate Spent(hits: seq<Hit>, width: int, limit: nat, now: int) {
    InWindow(hits, OpenWindow(hits, width, now)) >= limit
  }

  lemma GlobalSpent(c: Config, log: Log, a: Attempt, log': Log)
    requires Permits(c) && LogOk(c, log) && Told(log) && Asks(c, log, a, log')
    ensures Spent(log.passed, c.window, c.globalAttempts, a.now) <==> !Passes(c, log.st, a.now)
  {
    GlobalCurrent(c, log, a.now);
    GlobalTold(c, log, a, log');
  }

  /** An identity outside the table has not spent anything in the window open now. */
  lemma KeySpent(c: Config, log: Log, a: Attempt, log': Log)
    requires Permits(c) && LogOk(c, log) && Told(log) && Asks(c, log, a, log')
    ensures var e := CurrentEntry(c, Cleaned(c, log.st, a.now).entries, a.now, a.key);
            Spent(AcceptedOf(log, a.key), c.window, c.attemptsPerKey, a.now) <==> e.attempts >= c.attemptsPerKey
  {
    var mid := log.(st := Cleaned(c, log.st, a.now), clock := a.now);
    KeyCleaned(c, log, a.now, a.key);
    EntryCurrent(c, mid, a.key);
    EntryTold(c, log, a, log');
  }

  lemma EntryTold(c: Config, log: Log, a: Attempt, log': Log)
    requires Permits(c) && LogOk(c, log) && Told(log) && Asks(c, log, a, log')
    ensures CurrentEntry(c, Cleaned(c, log.st, a.now).entries, a.now, a.key).windowStarted
            == OpenWindow(AcceptedOf(log, a.key), c.window, a.now)
  {
    var entries := Cleaned(c, log.st, a.now).entries;
    KeyCleaned(c, log, a.now, a.key);
    if a.key !in entries && AcceptedOf(log, a.key) != [] {
      assert Ended(AcceptedOf(log, a.key), c.window, c.attemptsPerKey, a.now);
    }
  }

  /**
   Over any run an attempt is refused exactly if the process has spent its
   global window, or the identity is new to a full table, or the identity has
   spent its own window; both are counted over what was let through.
   */
  lemma RefusalsAreExact(c: Config, attempts: seq<Attempt>, log: Log, a: Attempt, log': Log)
    requires Permits(c) && Leads((x, b, y) => Asks(c, x, b, y), START, attempts, log) && Asks(c, log, a, log')
    ensures !Answer(c, log.st, a.now, a.key).1 <==>
              || Spent(log.passed, c.window, c.globalAttempts, a.now)
              || (a.key !in log'.st.entries && |log'.st.entries| >= c.maxEntries)
              || Spent(AcceptedOf(log, a.key), c.window, c.attemptsPerKey, a.now)
  {
    var next := (x, b, y) => Asks(c, x, b, y);
    forall x, b, y | LogOk(c, x) && Told(x) && next(x, b, y) ensures LogOk(c, y) && Told(y) {
      AskKeeps(c, x, b, y);
      AskTells(c, x, b, y);
    }
    assert LogOk(c, START) by { forall k ensures KeyOk(c, START, k) {} }
    Invariance(next, b => true, x => LogOk(c, x) && Told(x), START, attempts, log);
    GlobalSpent(c, log, a, log');
    KeySpent(c, log, a, log');
    RefusedExactly(c, log, a, log');
  }

  lemma RefusedExactly(c: Config, log: Log, a: Attempt, log': Log)
    requires Asks(c, log, a, log')
    ensures var e := CurrentEntry(c, Cleaned(c, log.st, a.now).entries, a.now, a.key);
            !Answer(c, log.st, a.now, a.key).1 <==>
              || !Passes(c, log.st, a.now) || e.attempts >= c.attemptsPerKey
              || (a.key !in log'.st.entries && |log'.st.entries| >= c.maxEntries)
  {
  }

  /** Nothing is refused to a fresh limiter: the first attempt of anyone is let in. */
  lemma FirstAttemptIsLetIn(c: Config, a: Attempt)
    requires Permits(c) && a.now > 0
    ensures Answer(c, FRESH, a.now, a.key).1
  {
  }

  // ------------------------------------------------------- cleaning up is invisible

  /** A limiter that neither deletes entries nor bounds its table. */
  function AllowForever(c: Config, st: State, now: int, key: Identity): (State, bool) {
    var st2 := st.(global := CurrentGlobal(c, st.global, now));
    if st2.global.attempts >= c.globalAttempts then (st2, false)
    else
      var entry := CurrentEntry(c, st2.entries, now, key);
      var global := st2.global.(attempts := st2.global.attempts + 1);
      if entry.attempts >= c.attemptsPerKey then (st2.(global := global, entries := st2.entries[key := entry]), false)
      else (st2.(global := global, entries := st2.entries[key := entry.(attempts := entry.attempts + 1)]), true)
  }

  /** What was deleted could not have mattered: its window is over. */
  ghost predicate Simulates(c: Config, st: State, forever: State, now: int) {
    && st.global == forever.global
    && (forall key <- st.entries ::
          && key in forever.entries && forever.entries[key] == st.entries[key]
          && st.entries[key].windowStarted <= st.entries[key].lastSeen <= now)
    && (forall key <- forever.entries ::
          key in st.entries || forever.entries[key].windowStarted + c.window <= now)
  }

  /** The attempt is turned away only because the table is full. */
  predicate TableFull(c: Config, st: State, now: int, key: Identity) {
    Passes(c, st, now) && Full(c, Cleaned(c, st, now).entries, key)
  }

  lemma CleanupIsInvisible(c: Config, st: State, forever: State, before: int, now: int, key: Identity)
    requires Usable(c) && Simulates(c, st, forever, before) && before <= now && !TableFull(c, st, now, key)
    ensures Answer(c, st, now, key).1 == AllowForever(c, forever, now, key).1
    ensures Simulates(c, Answer(c, st, now, key).0, AllowForever(c, forever, now, key).0, now)
  {
  }

  /** The answers to a sequence of attempts. */
  function Answers(c: Config, st: State, attempts: seq<Attempt>): seq<bool>
    decreases |attempts|
  {
    if attempts == [] then []
    else
      var (st', accepted) := Answer(c, st, attempts[0].now, attempts[0].key);
      [accepted] + Answers(c, st', attempts[1..])
  }

  function AnswersForever(c: Config, st: State, attempts: seq<Attempt>): seq<bool>
    decreases |attempts|
  {
    if attempts == [] then []
    else
      var (st', accepted) := AllowForever(c, st, attempts[0].now, attempts[0].key);
      [accepted] + AnswersForever(c, st', attempts[1..])
  }

  predicate NeverFull(c: Config, st: State, attempts: seq<Attempt>)
    decreases |attempts|
  {
    attempts == [] ||
    (!TableFull(c, st, attempts[0].now, attempts[0].key)
     && NeverFull(c, Answer(c, st, attempts[0].now, attempts[0].key).0, attempts[1..]))
  }

  predicate InOrder(before: int, attempts: seq<Attempt>)
    decreases |attempts|
  {
    attempts == [] || (before <= attempts[0].now && InOrder(attempts[0].now, attempts[1..]))
  }

  lemma {:induction false} SameAnswers(c: Config, st: State, forever: State, before: int, attempts: seq<Attempt>)
    requires Usable(c) && Simulates(c, st, forever, before) && InOrder(before, attempts) && NeverFull(c, st, attempts)
    decreases |attempts|
    ensures Answers(c, st, attempts) == AnswersForever(c, forever, attempts)
  {
    if attempts != [] {
      var a := attempts[0];
      CleanupIsInvisible(c, st, forever, before, a.now, a.key);
      SameAnswers(c, Answer(c, st, a.now, a.key).0, AllowForever(c, forever, a.now, a.key).0, a.now, attempts[1..]);
    }
  }

  /** As long as the table never fills, the limiter answers as if it kept every entry for ever. */
  lemma AnswersAsIfNothingWereDeleted(c: Config, attempts: seq<Attempt>)
    requires Usable(c) && InOrder(0, attempts) && NeverFull(c, FRESH, attempts)
    ensures Answers(c, FRESH, attempts) == AnswersForever(c, FRESH, attempts)
  {
    SameAnswers(c, FRESH, FRESH, 0, attempts);
  }

  // ------------------------------------------------------------------------ in place

  const MINUTE := 60_000_000_000
  const DEFAULTS := Config(MINUTE, 5, 300, 4096, MINUTE / 2)

  class LoginRateLimiter {
    const config: Config
    var entries: map<Identity, Entry>
    var global: Entry
    var lastCleanup: int

    ghost function Value(): State
      reads this
    {
      State(entries, global, lastCleanup)
    }

    constructor (window: int, attemptsPerKey: int, globalAttempts: int, maxEntries: int, cleanupInterval: int)
      ensures Value() == FRESH && Usable(config) && config.attemptsPerKey > 0 && config.globalAttempts > 0
      ensures config.window == if window > 0 then window else 60_000_000_000
      ensures config.attemptsPerKey == if attemptsPerKey > 0 then attemptsPerKey else 5
      ensures config.globalAttempts == if globalAttempts > 0 then globalAttempts else 300
      ensures config.maxEntries == if maxEntries > 0 then maxEntries else 4096
      ensures config.cleanupInterval == if cleanupInterval > 0 then cleanupInterval else 30_000_000_000
    {
      config := Config(
        if window > 0 then window else DEFAULTS.window,
        if attemptsPerKey > 0 then attemptsPerKey else DEFAULTS.attemptsPerKey,
        if globalAttempts > 0 then globalAttempts else DEFAULTS.globalAttempts,
        if maxEntries > 0 then maxEntries else DEFAULTS.maxEntries,
        if cleanupInterval > 0 then cleanupInterval else DEFAULTS.cleanupInterval);
      entries, global, lastCleanup := map[], Entry(0, 0, 0), 0;
    }

    /** Deletes the expired entries in whatever order the map is ranged over. */
    method Cleanup(now: int)
      modifies this`entries
      ensures entries == Kept(config, old(entries), now)
    {
      var todo := entries.Keys;
      while todo != {}
        invariant todo <= old(entries).Keys
        invariant entries == map key | key in old(entries) && (key in todo || now - old(entries)[key].lastSeen < config.window)
                               :: old(entries)[key]
        decreases |todo|
      {
        var key :| key in todo;
        todo := todo - {key};
        if now - entries[key].lastSeen >= config.window {
          entries := entries - {key};
        }
      }
    }

    /** A new global window once the old one is over. */
    method RollGlobal(now: int)
      modifies this`global
      ensures global == CurrentGlobal(config, old(global), now)
    {
      if now - global.windowStarted >= config.window {
        global := Entry(now, 0, 0);
      }
      if global.windowStarted == 0 {
        global := global.(windowStarted := now);
      }
    }

    method Allow(now: int, key: Identity) returns (allowed: bool)
      modifies this
      ensures (Value(), allowed) == Answer(config, old(Value()), now, key)
    {
      if lastCleanup == 0 || now - lastCleanup >= config.cleanupInterval {
        Cleanup(now);
        lastCleanup := now;
      }
      RollGlobal(now);
      if global.attempts >= config.globalAttempts {
        return false;
      }
      global := global.(attempts := global.attempts + 1);
      var entry := Entry(now, 0, 0);
      if key in entries {
        entry := entries[key];
      } else if |entries| >= config.maxEntries {
        return false;
      }
      if now - entry.windowStarted >= config.window {
        entry := Entry(now, 0, 0);
      }
      entry := entry.(lastSeen := now);
      if entry.attempts >= config.attemptsPerKey {
        entries := entries[key := entry];
        return false;
      }
      entry := entry.(attempts := entry.attempts + 1);
      entries := entries[key := entry];
      allowed := true;
    }
  }
}

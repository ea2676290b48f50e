/**
 The bounded table of stopped lifecycle versions (accountowner/fence.go).

 A record keeps every version up to its own from being admitted again.  The
 table evicts the least recently stamped unprotected record when it is full;
 stamps are pairwise distinct, so that record is the same whatever order the
 table is scanned in.
 */
module Fences {
  import opened Options

  /** One operator/account pair; lifecycle versions are not part of it. */
  type Key = nat

  datatype Fence = Fence(version: nat, stamp: nat, protected: bool)

  datatype Table = Table(records: map<Key, Fence>, clock: nat, limit: int)

  /** nil, ErrStaleAdmission and ErrFenceCapacity. */
  datatype Outcome = Recorded | Stale | Full

  /** No two records share a stamp, and the clock is ahead of all of them. */
  ghost predicate Ordered(t: Table) {
    && (forall k <- t.records :: t.records[k].stamp <= t.clock)
    && (forall j, k | j in t.records && k in t.records && j != k :: t.records[j].stamp != t.records[k].stamp)
  }

  /** The table also never outgrows its limit. */
  ghost predicate Valid(t: Table) {
    Ordered(t) && |t.records| <= (if t.limit > 0 then t.limit else 0)
  }

  ghost predicate IsOldest(records: map<Key, Fence>, k: Key) {
    && k in records && !records[k].protected
    && forall j | j in records && !records[j].protected :: records[k].stamp <= records[j].stamp
  }

  ghost predicate AllProtected(records: map<Key, Fence>) {
    forall k <- records :: records[k].protected
  }

  lemma OldestExists(records: map<Key, Fence>, keys: set<Key>) returns (k: Key)
    requires keys <= records.Keys
    requires exists j :: j in keys && !records[j].protected
    ensures k in keys && !records[k].protected
    ensures forall j | j in keys && !records[j].protected :: records[k].stamp <= records[j].stamp
  {
    k :| k in keys && !records[k].protected;
    var rest := keys - {k};
    if exists j :: j in rest && !records[j].protected {
      var best := OldestExists(records, rest);
      if records[best].stamp < records[k].stamp {
        k := best;
      }
    }
  }

  /** The record evicted first, if any record may be evicted at all. */
  ghost function Oldest(records: map<Key, Fence>): (k: Option<Key>)
    ensures k.None? <==> AllProtected(records)
    ensures k.Some? ==> IsOldest(records, k.value)
  {
    if AllProtected(records) then None else
      assert exists k :: IsOldest(records, k) by {
        var k := OldestExists(records, records.Keys);
        assert IsOldest(records, k);
      }
      var k :| IsOldest(records, k);
      Some(k)
  }

  /** recordFence: raise or insert the record of `key`, evicting when full. */
  ghost function Record(t: Table, key: Key, version: nat, protected: bool): (Table, Outcome) {
    if key in t.records then
      var fence := t.records[key];
      if version < fence.version then (t, Stale)
      else (Stamped(t, key, version, fence.protected || protected), Recorded)
    else if t.limit <= 0 then (t, Full)
    else if |t.records| >= t.limit then
      match Oldest(t.records)
      case None => (t, Full)
      case Some(oldest) =>
        (Stamped(t.(records := t.records - {oldest}), key, version, protected), Recorded)
    else (Stamped(t, key, version, protected), Recorded)
  }

  function Stamped(t: Table, key: Key, version: nat, protected: bool): Table {
    t.(records := t.records[key := Fence(version, t.clock + 1, protected)], clock := t.clock + 1)
  }

  function Unprotected(t: Table, key: Key, version: nat): Table {
    if key in t.records && t.records[key].version == version
    then t.(records := t.records[key := t.records[key].(protected := false)])
    else t
  }

  /** trimFenceRecords: drop the oldest unprotected records beyond the limit. */
  ghost function Trimmed(t: Table): Table
    decreases |t.records|
  {
    if |t.records| <= t.limit || AllProtected(t.records) then t
    else
      RemovalSize(t.records, Oldest(t.records).value);
      Trimmed(t.(records := t.records - {Oldest(t.records).value}))
  }

  /** Whether admission of `version` is refused by a standing record. */
  predicate Blocks(t: Table, key: Key, version: nat) {
    key in t.records && version <= t.records[key].version
  }

  // ------------------------------------------------------------------ lemmas

  /** Map iteration order cannot matter: there is one oldest unprotected record. */
  lemma OldestIsUnique(t: Table, k: Key)
    requires Ordered(t) && IsOldest(t.records, k)
    ensures Oldest(t.records) == Some(k)
  {
  }

  lemma StampedKeepsOrder(t: Table, key: Key, version: nat, protected: bool)
    requires Ordered(t)
    ensures Ordered(Stamped(t, key, version, protected))
    ensures |Stamped(t, key, version, protected).records| == |t.records| + (if key in t.records then 0 else 1)
  {
  }

  lemma RemovalSize(records: map<Key, Fence>, key: Key)
    requires key in records
    ensures |records - {key}| == |records| - 1
  {
  }

  /** A record is refused only as stale, or because a full table is all protected. */
  lemma RecordOutcome(t: Table, key: Key, version: nat, protected: bool)
    requires Valid(t)
    ensures var (t', outcome) := Record(t, key, version, protected);
            && (outcome == Stale <==> key in t.records && version < t.records[key].version)
            && (outcome == Full <==> key !in t.records && |t.records| >= t.limit && AllProtected(t.records))
            && (outcome != Recorded ==> t' == t)
  {
  }

  lemma RecordKeepsValid(t: Table, key: Key, version: nat, protected: bool)
    requires Valid(t)
    ensures Valid(Record(t, key, version, protected).0) && Record(t, key, version, protected).0.limit == t.limit
  {
    if t.limit <= 0 {
      assert t.records == map[];
    } else if key in t.records || |t.records| < t.limit {
      StampedKeepsOrder(t, key, version, protected || (key in t.records && t.records[key].protected));
    } else if !AllProtected(t.records) {
      var oldest := Oldest(t.records).value;
      RemovalSize(t.records, oldest);
      StampedKeepsOrder(t.(records := t.records - {oldest}), key, version, protected);
    }
  }

  /**
   What recordFence does to each record: its own blocks the version and carries
   the newest stamp, every other survivor is unchanged, and the one record that
   may vanish is the oldest unprotected record of a full table.
   */
  lemma RecordEffect(t: Table, key: Key, version: nat, protected: bool)
    requires Valid(t) && Record(t, key, version, protected).1 == Recorded
    ensures var t' := Record(t, key, version, protected).0;
            && key in t'.records && t'.records[key].version == version && t'.records[key].stamp == t'.clock
            && t'.records[key].protected == (protected || (key in t.records && t.records[key].protected))
            && (key in t.records ==> t.records[key].version <= version)
            && (forall k | k in t'.records && k != key :: k in t.records && t'.records[k] == t.records[k])
            && (forall k | k in t.records && k !in t'.records ::
                  key !in t.records && |t.records| == t.limit && IsOldest(t.records, k))
  {
  }

  /** Dropping protection never removes a record, and a valid table needs no trimming. */
  lemma UnprotectEffect(t: Table, key: Key, version: nat)
    requires Valid(t)
    ensures var t' := Trimmed(Unprotected(t, key, version));
            && Valid(t') && t'.limit == t.limit && t'.clock == t.clock
            && t'.records.Keys == t.records.Keys
            && forall k <- t.records ::
                 t'.records[k] == (if k == key && t.records[k].version == version
                                   then t.records[k].(protected := false) else t.records[k])
  {
  }

  // ------------------------------------------------------ whole-run behaviour

  datatype FenceCall = RecordCall(key: Key, version: nat, protected: bool) | UnprotectCall(key: Key, version: nat)

  ghost function Called(t: Table, call: FenceCall): Table {
    match call
    case RecordCall(key, version, protected) => Record(t, key, version, protected).0
    case UnprotectCall(key, version) => Trimmed(Unprotected(t, key, version))
  }

  ghost function AfterCalls(t: Table, calls: seq<FenceCall>): Table
    decreases calls
  {
    if calls == [] then t else AfterCalls(Called(t, calls[0]), calls[1..])
  }

  lemma {:induction false} ValidAfterCalls(t: Table, calls: seq<FenceCall>)
    requires Valid(t)
    decreases calls
    ensures Valid(AfterCalls(t, calls)) && AfterCalls(t, calls).limit == t.limit
  {
    if calls != [] {
      CalledEffect(t, calls[0]);
      ValidAfterCalls(Called(t, calls[0]), calls[1..]);
    }
  }

  lemma CalledEffect(t: Table, call: FenceCall)
    requires Valid(t)
    ensures var t' := Called(t, call);
            && Valid(t') && t'.limit == t.limit
            && (forall k | k in t.records && k in t'.records :: t.records[k].version <= t'.records[k].version)
            && (forall k | k in t.records && t.records[k].protected :: k in t'.records
                  && (t'.records[k].protected || call == UnprotectCall(k, t.records[k].version)))
  {
    match call
    case RecordCall(key, version, protected) =>
      RecordKeepsValid(t, key, version, protected);
      RecordOutcome(t, key, version, protected);
      if Record(t, key, version, protected).1 == Recorded { RecordEffect(t, key, version, protected); }
    case UnprotectCall(key, version) => UnprotectEffect(t, key, version);
  }

  /**
   The fence of a key that is still being torn down survives any calls made for
   other keys, however many of them there are, and keeps blocking its version.
   */
  lemma {:induction false} ProtectedFenceOutlivesOthers(t: Table, calls: seq<FenceCall>, key: Key)
    requires Valid(t) && key in t.records && t.records[key].protected
    requires forall c <- calls :: c.UnprotectCall? ==> c.key != key
    decreases calls
    ensures key in AfterCalls(t, calls).records && AfterCalls(t, calls).records[key].protected
    ensures forall version | Blocks(t, key, version) :: Blocks(AfterCalls(t, calls), key, version)
  {
    if calls != [] {
      CalledEffect(t, calls[0]);
      assert calls[0] in calls;
      ProtectedFenceOutlivesOthers(Called(t, calls[0]), calls[1..], key);
    }
  }

  // ------------------------------------------------------------- the mutable table

  class FenceSet {
    var records: map<Key, Fence>
    var clock: nat
    const limit: int

    ghost function State(): Table
      reads this
    {
      Table(records, clock, limit)
    }

    constructor (limit: int)
      ensures State() == Table(map[], 0, limit) && Valid(State())
    {
      this.limit := limit;
      records, clock := map[], 0;
    }

    /** oldEvictableFence: one pass over the records in an arbitrary order. */
    method OldEvictableFence() returns (oldestKey: Option<Key>)
      requires Ordered(State())
      ensures oldestKey == Oldest(records)
    {
      oldestKey := None;
      var todo := records.Keys;
      while todo != {}
        invariant todo <= records.Keys
        invariant oldestKey.None? ==> forall k | k in records && k !in todo :: records[k].protected
        invariant oldestKey.Some? ==>
                    && oldestKey.value in records && oldestKey.value !in todo && !records[oldestKey.value].protected
                    && forall k | k in records && k !in todo && !records[k].protected ::
                         records[oldestKey.value].stamp <= records[k].stamp
        decreases |todo|
      {
        var key :| key in todo;
        todo := todo - {key};
        if !records[key].protected && (oldestKey.None? || records[key].stamp < records[oldestKey.value].stamp) {
          oldestKey := Some(key);
        }
      }
      if oldestKey.Some? {
        OldestIsUnique(State(), oldestKey.value);
      }
    }

    method RecordFence(key: Key, version: nat, protected: bool) returns (outcome: Outcome)
      requires Valid(State())
      modifies this
      ensures (State(), outcome) == Record(old(State()), key, version, protected)
      ensures Valid(State())
    {
      RecordKeepsValid(State(), key, version, protected);
      var fence: Fence;
      if key in records {
        fence := records[key];
        if version < fence.version {
          return Stale;
        }
        if version > fence.version {
          fence := fence.(version := version);
        }
        fence := fence.(protected := fence.protected || protected);
      } else {
        fence := Fence(version, 0, protected);
        if limit <= 0 {
          return Full;
        }
        if |records| >= limit {
          var oldestKey := OldEvictableFence();
          if oldestKey.None? {
            return Full;
          }
          records := records - {oldestKey.value};
        }
      }
      clock := clock + 1;
      records := records[key := fence.(stamp := clock)];
      outcome := Recorded;
    }

    /** unprotectFence: unprotect followed by trimFenceRecords. */
    method UnprotectFence(key: Key, version: nat)
      requires Valid(State())
      modifies this
      ensures State() == Trimmed(Unprotected(old(State()), key, version))
      ensures Valid(State())
    {
      UnprotectEffect(State(), key, version);
      if key in records && records[key].version == version {
        records := records[key := records[key].(protected := false)];
      }
      Trim();
    }

    method Trim()
      requires Ordered(State())
      modifies this
      ensures State() == Trimmed(old(State()))
    {
      while |records| > limit
        invariant Ordered(State())
        invariant Trimmed(State()) == Trimmed(old(State()))
        decreases |records|
      {
        var oldestKey := OldEvictableFence();
        if oldestKey.None? {
          return;
        }
        RemovalSize(records, oldestKey.value);
        records := records - {oldestKey.value};
      }
    }
  }
}

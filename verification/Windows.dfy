/** Fixed windows: counting the hits of a stream whose windows do not overlap. */
module Windows {
  /** A counted event and the start of the window it was counted in. */
  datatype Hit = Hit(time: int, started: int)

  /** Hits lie in their windows, and later windows begin only after earlier ones ended. */
  ghost predicate Spaced(hits: seq<Hit>, width: int) {
    && (forall i | 0 <= i < |hits| :: hits[i].started <= hits[i].time < hits[i].started + width)
    && (forall i, j | 0 <= i < j < |hits| ::
          hits[i].started == hits[j].started || hits[i].started + width <= hits[j].started)
  }

  /** Hits counted in the window that began at `started`. */
  function InWindow(hits: seq<Hit>, started: int): nat {
    if hits == [] then 0
    else InWindow(hits[..|hits| - 1], started) + (if hits[|hits| - 1].started == started then 1 else 0)
  }

  /** Hits in the half-open interval of length `width` from `from` on. */
  function Between(hits: seq<Hit>, from: int, width: int): nat {
    if hits == [] then 0
    else Between(hits[..|hits| - 1], from, width) + (if from <= hits[|hits| - 1].time < from + width then 1 else 0)
  }

  lemma {:induction false} BetweenInTwo(hits: seq<Hit>, from: int, width: int, s1: int, s2: int)
    requires forall i | 0 <= i < |hits| :: from <= hits[i].time < from + width ==> hits[i].started in {s1, s2}
    ensures Between(hits, from, width) <= InWindow(hits, s1) + InWindow(hits, s2)
  {
    if hits != [] { BetweenInTwo(hits[..|hits| - 1], from, width, s1, s2); }
  }

  /** The hits of an interval as long as a window belong to the windows of its first and last hit. */
  lemma TwoWindows(hits: seq<Hit>, width: int, from: int, first: nat, last: nat)
    requires Spaced(hits, width) && first <= last < |hits|
    requires from <= hits[first].time && hits[last].time < from + width
    requires forall i | 0 <= i < |hits| && from <= hits[i].time < from + width :: first <= i <= last
    ensures forall i | 0 <= i < |hits| && from <= hits[i].time < from + width ::
              hits[i].started in {hits[first].started, hits[last].started}
  {
  }

  lemma {:induction false} NoneBetween(hits: seq<Hit>, from: int, width: int)
    requires forall i | 0 <= i < |hits| :: !(from <= hits[i].time < from + width)
    ensures Between(hits, from, width) == 0
  {
    if hits != [] { NoneBetween(hits[..|hits| - 1], from, width); }
  }

  lemma {:induction false} Ends(hits: seq<Hit>, from: int, width: int, n: nat) returns (first: nat, last: nat)
    requires n <= |hits| && exists i | 0 <= i < n :: from <= hits[i].time < from + width
    ensures first <= last < n && from <= hits[first].time < from + width && from <= hits[last].time < from + width
    ensures forall i | 0 <= i < n && from <= hits[i].time < from + width :: first <= i <= last
    decreases n
  {
    var here := from <= hits[n - 1].time < from + width;
    if exists i | 0 <= i < n - 1 :: from <= hits[i].time < from + width {
      first, last := Ends(hits, from, width, n - 1);
      if here { last := n - 1; }
    } else {
      first, last := n - 1, n - 1;
    }
  }

  /** With at most `limit` hits per window, no interval of a window's length holds more than twice as many. */
  lemma TwiceTheLimit(hits: seq<Hit>, width: int, limit: nat, from: int)
    requires Spaced(hits, width) && forall s :: InWindow(hits, s) <= limit
    ensures Between(hits, from, width) <= 2 * limit
  {
    if exists i | 0 <= i < |hits| :: from <= hits[i].time < from + width {
      var first, last := Ends(hits, from, width, |hits|);
      TwoWindows(hits, width, from, first, last);
      BetweenInTwo(hits, from, width, hits[first].started, hits[last].started);
    } else {
      NoneBetween(hits, from, width);
    }
  }

  // ------------------------------------------------------------------- a counter

  /** A counter's window start and count describe the newest window of its stream. */
  ghost predicate Counts(hits: seq<Hit>, width: int, limit: nat, started: int, attempts: nat) {
    && Spaced(hits, width) && (forall s :: InWindow(hits, s) <= limit) && attempts == InWindow(hits, started)
    && forall i | 0 <= i < |hits| :: hits[i].started == started || hits[i].started + width <= started
  }

  /** The window that is open at `now`: that of the newest hit while it lasts, else a new one. */
  function OpenWindow(hits: seq<Hit>, width: int, now: int): int {
    if |hits| > 0 && now < hits[|hits| - 1].started + width then hits[|hits| - 1].started else now
  }

  /** A stream whose windows have all ended. */
  ghost predicate Ended(hits: seq<Hit>, width: int, limit: nat, now: int) {
    && Spaced(hits, width) && (forall s :: InWindow(hits, s) <= limit)
    && forall i | 0 <= i < |hits| :: hits[i].started + width <= now
  }

  lemma {:induction false} NoneInWindow(hits: seq<Hit>, started: int)
    requires forall i | 0 <= i < |hits| :: hits[i].started != started
    ensures InWindow(hits, started) == 0
  {
    if hits != [] { NoneInWindow(hits[..|hits| - 1], started); }
  }

  /** A new window may open once every old one has ended. */
  lemma Opens(hits: seq<Hit>, width: int, limit: nat, now: int)
    requires Ended(hits, width, limit, now) && width > 0
    ensures Counts(hits, width, limit, now, 0)
  {
    NoneInWindow(hits, now);
  }

  lemma Expires(hits: seq<Hit>, width: int, limit: nat, started: int, attempts: nat, now: int)
    requires Counts(hits, width, limit, started, attempts) && started + width <= now && width > 0
    ensures Ended(hits, width, limit, now)
  {
  }

  /** A hit below the limit is counted. */
  lemma Hits(hits: seq<Hit>, width: int, limit: nat, started: int, attempts: nat, now: int)
    requires Counts(hits, width, limit, started, attempts) && started <= now < started + width && attempts < limit
    ensures Counts(hits + [Hit(now, started)], width, limit, started, attempts + 1)
  {
  }
}

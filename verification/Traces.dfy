/** Runs of a transition system, and the induction every safety argument here rests on. */
module Traces {
  /** `events` leads from `s` to `s'`; its prefixes lead to every state in between. */
  ghost predicate Leads<S(!new), E(!new)>(next: (S, E, S) -> bool, s: S, events: seq<E>, s': S)
    decreases |events|
  {
    if |events| == 0 then s == s'
    else exists m :: Leads(next, s, Front(events), m) && next(m, events[|events| - 1], s')
  }

  function Front<E>(events: seq<E>): (front: seq<E>)
    requires |events| > 0
    ensures |front| == |events| - 1
  {
    events[..|events| - 1]
  }

  lemma Extend<S(!new), E(!new)>(next: (S, E, S) -> bool, s: S, events: seq<E>, m: S, event: E, s': S)
    requires Leads(next, s, events, m) && next(m, event, s')
    ensures Leads(next, s, events + [event], s')
  {
    assert Front(events + [event]) == events;
  }

  lemma {:induction false} Concat<S(!new), E(!new)>(next: (S, E, S) -> bool, s: S, before: seq<E>, m: S, after: seq<E>, s': S)
    requires Leads(next, s, before, m) && Leads(next, m, after, s')
    decreases |after|
    ensures Leads(next, s, before + after, s')
  {
    if |after| == 0 {
      assert before + after == before;
    } else {
      var last := |after| - 1;
      var n :| Leads(next, m, Front(after), n) && next(n, after[last], s');
      Concat(next, s, before, m, Front(after), n);
      Extend(next, s, before + Front(after), n, after[last], s');
      assert before + after == before + Front(after) + [after[last]];
    }
  }

  /** What every allowed event keeps holds after any run of allowed events. */
  lemma {:induction false} Invariance<S(!new), E(!new)>(
    next: (S, E, S) -> bool, allowed: E -> bool, inv: S -> bool, s: S, events: seq<E>, s': S)
    requires Leads(next, s, events, s') && inv(s)
    requires forall e <- events :: allowed(e)
    requires forall x, e, y :: inv(x) && allowed(e) && next(x, e, y) ==> inv(y)
    decreases |events|
    ensures inv(s')
  {
    if |events| > 0 {
      var last := |events| - 1;
      var m :| Leads(next, s, Front(events), m) && next(m, events[last], s');
      assert events[last] in events;
      Invariance(next, allowed, inv, s, Front(events), m);
    }
  }

  lemma Two<S(!new), E(!new)>(next: (S, E, S) -> bool, s0: S, e1: E, s1: S, e2: E, s2: S)
    requires next(s0, e1, s1) && next(s1, e2, s2)
    ensures Leads(next, s0, [e1, e2], s2)
  {
    Extend(next, s0, [], s0, e1, s1);
    Extend(next, s0, [] + [e1], s1, e2, s2);
    assert [] + [e1] + [e2] == [e1, e2];
  }

  lemma Three<S(!new), E(!new)>(next: (S, E, S) -> bool, s0: S, e1: E, s1: S, e2: E, s2: S, e3: E, s3: S)
    requires next(s0, e1, s1) && next(s1, e2, s2) && next(s2, e3, s3)
    ensures Leads(next, s0, [e1, e2, e3], s3)
  {
    Two(next, s0, e1, s1, e2, s2);
    Extend(next, s0, [e1, e2], s2, e3, s3);
    assert [e1, e2] + [e3] == [e1, e2, e3];
  }
}

/**
 A scoped admission (accountowner/handle.go): Close and any number of
 operations race on one handle, and the registry reference behind it is given
 back exactly once.
 */
module Handles {
  datatype State = State(closed: bool, uses: nat, released: bool)

  const OPEN := State(false, 0, false)

  /** What one section under the handle mutex does; `true` means releaseHandle is called. */
  function BeginUse(h: State): (State, bool) {
    if h.closed then (h, false) else (h.(uses := h.uses + 1), true)
  }

  function FinishUse(h: State): (State, bool)
    requires h.uses > 0
  {
    var left := h.uses - 1;
    var release := h.closed && left == 0 && !h.released;
    (h.(uses := left, released := h.released || release), release)
  }

  function Close(h: State): (State, bool) {
    if h.closed then (h, false) else
    var release := h.uses == 0 && !h.released;
    (h.(closed := true, released := h.released || release), release)
  }

  // ------------------------------------------------------------ every interleaving

  /**
   One section of one caller.  A Leave is the deferred finishUse of an earlier
   accepted Enter, so callers never leave more often than they entered.
   */
  datatype Event = Enter | Leave | Shut

  datatype Run = Run(handle: State, inside: nat, releases: nat)

  function Next(r: Run, event: Event): Run {
    match event
    case Enter =>
      var (h, entered) := BeginUse(r.handle);
      Run(h, if entered then r.inside + 1 else r.inside, r.releases)
    case Leave =>
      if r.inside == 0 || r.handle.uses == 0 then r else
      var (h, release) := FinishUse(r.handle);
      Run(h, r.inside - 1, if release then r.releases + 1 else r.releases)
    case Shut =>
      var (h, release) := Close(r.handle);
      Run(h, r.inside, if release then r.releases + 1 else r.releases)
  }

  function After(r: Run, events: seq<Event>): Run
    decreases events
  {
    if events == [] then r else After(Next(r, events[0]), events[1..])
  }

  predicate Consistent(r: Run) {
    && r.handle.uses == r.inside
    && (r.handle.released <==> r.handle.closed && r.inside == 0)
    && r.releases == (if r.handle.released then 1 else 0)
  }

  lemma {:induction false} ConsistentAfter(r: Run, events: seq<Event>)
    requires Consistent(r)
    decreases events
    ensures Consistent(After(r, events))
    ensures r.handle.closed ==> After(r, events).handle.closed
  {
    if events != [] { ConsistentAfter(Next(r, events[0]), events[1..]); }
  }

  lemma {:induction false} ShutCloses(r: Run, events: seq<Event>)
    requires Consistent(r)
    decreases events
    ensures After(r, events).handle.closed <==> r.handle.closed || Shut in events
  {
    if events != [] { ShutCloses(Next(r, events[0]), events[1..]); }
  }

  /**
   Over every interleaving the reference is released once if the handle was
   closed and the last operation has left, and not at all otherwise.
   */
  lemma ReleasedExactlyOnce(events: seq<Event>)
    ensures var end := After(Run(OPEN, 0, 0), events);
            && end.releases == (if Shut in events && end.inside == 0 then 1 else 0)
            && end.handle.uses == end.inside
            && (BeginUse(end.handle).1 <==> Shut !in events)
  {
    ConsistentAfter(Run(OPEN, 0, 0), events);
    ShutCloses(Run(OPEN, 0, 0), events);
  }

  // ------------------------------------------------------------------ in place

  class Handle {
    var closed: bool
    var uses: nat
    var released: bool

    ghost function Value(): State
      reads this
    {
      State(closed, uses, released)
    }

    constructor ()
      ensures Value() == OPEN
    {
      closed, uses, released := false, 0, false;
    }

    method Enter() returns (entered: bool)
      modifies this
      ensures (Value(), entered) == BeginUse(old(Value()))
      ensures (entered <==> !old(closed)) && uses == old(uses) + if entered then 1 else 0
    {
      if closed {
        return false;
      }
      uses := uses + 1;
      entered := true;
    }

    method Leave() returns (release: bool)
      requires uses > 0
      modifies this
      ensures (Value(), release) == FinishUse(old(Value()))
      ensures uses == old(uses) - 1 && (release <==> closed && uses == 0 && !old(released))
    {
      uses := uses - 1;
      release := closed && uses == 0 && !released;
      if release {
        released := true;
      }
    }

    method Shut() returns (release: bool)
      modifies this
      ensures (Value(), release) == Close(old(Value()))
      ensures closed && uses == old(uses) && (release <==> !old(closed) && uses == 0 && !old(released))
    {
      if closed {
        return false;
      }
      closed := true;
      release := uses == 0 && !released;
      if release {
        released := true;
      }
    }
  }
}

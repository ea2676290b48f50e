/**
 The one-shot owner of a client (accountowner/owner_runtime.go): its lifecycle,
 the readiness it publishes, and which run failures count as a clean stop.
 */
module Owners {
  import opened Options
  import opened Targets
  import opened AccountWorld

  // ------------------------------------------------------------------- run failures

  /** An error as errors.Is and errors.Unwrap see it; `code` tells sentinels apart. */
  datatype Error = Leaf(code: nat) | Wrapped(cause: Error) | Joined(causes: seq<Error>)

  /** errors.Is against a sentinel. */
  predicate Is(e: Error, target: nat)
    decreases e
  {
    match e
    case Leaf(code) => code == target
    case Wrapped(cause) => Is(cause, target)
    case Joined(causes) => exists i | 0 <= i < |causes| :: Is(causes[i], target)
  }

  predicate IsPureContextCancellation(e: Error, target: nat)
    decreases e
  {
    match e
    case Joined(causes) => |causes| > 0 && forall i | 0 <= i < |causes| :: IsPureContextCancellation(causes[i], target)
    case Wrapped(cause) => IsPureContextCancellation(cause, target)
    case Leaf(_) => Is(e, target)
  }

  /** The loop over the causes of a joined error, and the recursion into each. */
  method CheckPure(e: Error, target: nat) returns (pure: bool)
    ensures pure <==> IsPureContextCancellation(e, target)
    decreases e
  {
    match e {
      case Joined(causes) =>
        if |causes| == 0 {
          return false;
        }
        for i := 0 to |causes|
          invariant forall j | 0 <= j < i :: IsPureContextCancellation(causes[j], target)
        {
          var one := CheckPure(causes[i], target);
          if !one {
            return false;
          }
        }
        return true;
      case Wrapped(cause) =>
        pure := CheckPure(cause, target);
      case Leaf(code) =>
        pure := code == target;
    }
  }

  const CANCELED := 0
  const DEADLINE_EXCEEDED := 1

  /** normalizeRunFailure; None is nil. */
  function NormalizeRunFailure(failure: Option<Error>, cause: Option<nat>): Option<Error> {
    if failure.None? || cause.None? then failure
    else if cause.value != CANCELED && cause.value != DEADLINE_EXCEEDED then failure
    else if !Is(failure.value, cause.value) || !IsPureContextCancellation(failure.value, cause.value) then failure
    else None
  }

  /** The sentinels at the bottom of an error. */
  function Leaves(e: Error): set<nat>
    decreases e
  {
    match e
    case Leaf(code) => {code}
    case Wrapped(cause) => Leaves(cause)
    case Joined(causes) => set i, code | 0 <= i < |causes| && code in Leaves(causes[i]) :: code
  }

  /** No joined error in it is empty. */
  predicate Solid(e: Error)
    decreases e
  {
    match e
    case Leaf(_) => true
    case Wrapped(cause) => Solid(cause)
    case Joined(causes) => |causes| > 0 && forall i | 0 <= i < |causes| :: Solid(causes[i])
  }

  /** What the checks see of an error whose causes obey it. */
  predicate ToLeaves(e: Error, target: nat) {
    && (IsPureContextCancellation(e, target) <==> Solid(e) && Leaves(e) <= {target})
    && (Is(e, target) <==> target in Leaves(e))
    && (Solid(e) ==> Leaves(e) != {})
  }

  lemma LeavesOfJoined(causes: seq<Error>, target: nat)
    ensures Leaves(Joined(causes)) <= {target} <==> forall i | 0 <= i < |causes| :: Leaves(causes[i]) <= {target}
    ensures Leaves(Joined(causes)) != {} <==> exists i :: 0 <= i < |causes| && Leaves(causes[i]) != {}
  {
  }

  lemma JoinedToLeaves(causes: seq<Error>, target: nat)
    requires forall i | 0 <= i < |causes| :: ToLeaves(causes[i], target)
    ensures ToLeaves(Joined(causes), target)
  {
    LeavesOfJoined(causes, target);
    if Solid(Joined(causes)) { assert ToLeaves(causes[0], target); }
  }

  lemma {:induction false} PureLeaves(e: Error, target: nat)
    ensures ToLeaves(e, target)
    decreases e
  {
    match e
    case Leaf(_) =>
    case Wrapped(cause) => PureLeaves(cause, target);
    case Joined(causes) =>
      forall i | 0 <= i < |causes| ensures ToLeaves(causes[i], target) { PureLeaves(causes[i], target); }
      JoinedToLeaves(causes, target);
  }

  /** A failure is dropped exactly if the run's own context ended and nothing else is at the bottom of it. */
  lemma OnlyOwnCancellationIsDropped(failure: Error, cause: Option<nat>)
    ensures NormalizeRunFailure(Some(failure), cause).None?
            <==> cause.Some? && cause.value in {CANCELED, DEADLINE_EXCEEDED} && Solid(failure) && Leaves(failure) == {cause.value}
    ensures NormalizeRunFailure(Some(failure), cause).Some? ==> NormalizeRunFailure(Some(failure), cause) == Some(failure)
  {
    if cause.Some? { PureLeaves(failure, cause.value); }
  }

  // ---------------------------------------------------------------------- one shot

  class OneShotOwner {
    var started: bool
    var stopping: bool
    var completed: bool
    var result: Failure

    ghost function Value(callback: Option<Tid>): Owner
      reads this
    {
      Owner(started, stopping, completed, result, callback)
    }

    constructor ()
      ensures Value(None) == NEW_OWNER
    {
      started, stopping, completed, result := false, false, false, Success;
    }

    /** The first section of Run: the owner starts once, and not after a Stop. */
    method Start() returns (mayRun: bool)
      modifies this
      ensures mayRun <==> !old(started)
      ensures Value(None) == old(Value(None)).(started := true)
    {
      if started {
        return false;
      }
      started := true;
      mayRun := true;
    }

    method Stop()
      modifies this
      ensures Value(None) == Stopped(old(Value(None)))
      ensures started && (old(started) ==> completed == old(completed) && result == old(result))
      ensures !old(started) ==> stopping && completed && result == OwnerStopped
      ensures old(started) && !old(completed) ==> stopping
    {
      if started {
        if completed {
          return;
        }
        stopping := true;
        return;
      }
      started := true;
      stopping := true;
      completed := true;
      result := OwnerStopped;
    }

    method Complete(failure: Failure)
      requires Runs(Value(None))
      modifies this
      ensures Value(None) == old(Value(None)).(completed := true, result := failure)
    {
      result := failure;
      completed := true;
    }
  }

  // ---------------------------------------------------------------------- readiness

  type Channel = nat

  /** Channels are numbered as they are made; `closedChannels` is history. */
  class ReadinessTracker {
    var isReady: bool
    var ready: Channel
    var changes: Channel
    var closed: bool
    var made: nat
    ghost var closedChannels: set<Channel>

    /** The current ready channel is closed exactly while the connection is ready; the changes channel is open. */
    ghost predicate Valid()
      reads this
    {
      && ready != changes && ready < made && changes < made
      && (isReady <==> closed) && (closed <==> ready in closedChannels) && changes !in closedChannels
      && forall c <- closedChannels :: c < made
    }

    constructor ()
      ensures Valid() && !isReady
    {
      isReady, ready, changes, closed, made, closedChannels := false, 0, 1, false, 2, {};
    }

    /** Whoever waits on the channels of an earlier snapshot is woken, and sees the new state. */
    method Observe(nowReady: bool)
      requires Valid()
      modifies this
      ensures Valid() && isReady == nowReady
      ensures old(changes) in closedChannels && old(closedChannels) <= closedChannels
      ensures ready == (if nowReady then old(ready) else old(made))
    {
      isReady := nowReady;
      if nowReady {
        if !closed {
          closedChannels := closedChannels + {ready};
          closed := true;
        }
      } else {
        ready := made;
        made := made + 1;
        closed := false;
      }
      closedChannels := closedChannels + {changes};
      changes := made;
      made := made + 1;
    }
  }
}

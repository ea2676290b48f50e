/**
 Execute as its caller sees it: on an account that is served, an undisturbed
 call runs its callback and leaves the registry exactly as it found it.
 */
module AccountServes {
  import opened Options
  import opened Targets
  import opened Slots
  import opened AccountWorld
  import opened AccountSteps
  import opened AccountTheorems
  import opened AccountCalls
  import opened Traces
  import Fences

  /** Slot `s` serves `target` with the running owner of entry `e`, and nobody is at its gate. */
  predicate Serving(w: World, target: Target, s: SlotId, e: EntryId) {
    && !w.stopped && w.mu.None? && target.key in w.table && w.table[target.key] == s && s in w.slots && e in w.entries
    && MayExecute(target) && !Covered(w.fences, target.key, target.version)
    && var slot, entry := w.slots[s], w.entries[e];
       && slot.gate.None? && !slot.revokeRunning && slot.revokeWaiters == 0 && !slot.core.closed && !slot.core.stopping
       && slot.core.current == Some(e) && slot.core.active == 0 && slot.core.drained
       && entry.target == target && entry.built && entry.buildErr == Success
       && entry.owner.Some? && Runs(entry.owner.value) && entry.owner.value.callback.None?
  }

  /** The registry while goroutine `t` stands at `at`: what of the slot and the owner is its own. */
  function During(w: World, t: Tid, target: Target, s: SlotId, e: EntryId, at: ExecAt): World
    requires Serving(w, target, s, e)
  {
    var slot, entry := w.slots[s], w.entries[e];
    var gated, active := at in {Beginning, Operating, Calling, Finishing, Sweeping, Ungating}, at in {Operating, Calling, Finishing};
    w.(slots := w.slots[s := slot.(
         gate := if gated then Some(t) else None,
         core := slot.core.(handles := slot.core.handles + (if at == Closed then 0 else 1), active := if active then 1 else 0,
                            drained := !active))],
       entries := w.entries[e := entry.(owner := Some(entry.owner.value.(callback := if at == Calling then Some(t) else None)))],
       threads := w.threads[t := Exec(at, target, s, e)])
  }

  lemma Enters(w: World, t: Tid, target: Target, s: SlotId, e: EntryId, unused: EntryId, b: Tid) returns (steps: seq<Step>)
    requires Serving(w, target, s, e) && PcOf(w, t).Idle? && Fresh(w, t, unused, b)
    ensures Leads(Takes, w, steps, During(w, t, target, s, e, Opening))
  {
    var w1, w2 := Moved(w, t, Retry(ToExecute(target))), Moved(w, t, Admit(target, s, Some(e), false)).(mu := Some(t));
    EntersLookup(w, t, target, s, e, w1, w2);
    EntersSlot(w, t, target, s, e, unused, b, w2);
    Three(Takes, w, Admission(t, Begin(ToExecute(target))), w1, Admission(t, Lookup), w2, Admission(t, AdmitStep(false, unused, b)),
          During(w, t, target, s, e, Opening));
    steps := [Admission(t, Begin(ToExecute(target))), Admission(t, Lookup), Admission(t, AdmitStep(false, unused, b))];
  }

  lemma EntersLookup(w: World, t: Tid, target: Target, s: SlotId, e: EntryId, w1: World, w2: World)
    requires Serving(w, target, s, e) && PcOf(w, t).Idle? && w1 == Moved(w, t, Retry(ToExecute(target)))
    requires w2 == Moved(w, t, Admit(target, s, Some(e), false)).(mu := Some(t))
    ensures Takes(w, Admission(t, Begin(ToExecute(target))), w1) && Takes(w1, Admission(t, Lookup), w2)
  {
    BlocksIsCovered(w.fences, target.key, target.version);
  }

  lemma EntersSlot(w: World, t: Tid, target: Target, s: SlotId, e: EntryId, unused: EntryId, b: Tid, w2: World)
    requires Serving(w, target, s, e) && PcOf(w, t).Idle? && Fresh(w, t, unused, b)
    requires w2 == Moved(w, t, Admit(target, s, Some(e), false)).(mu := Some(t))
    ensures Takes(w2, Admission(t, AdmitStep(false, unused, b)), During(w, t, target, s, e, Opening))
  {
    assert w.entries[e := w.entries[e]] == w.entries;
  }

  /** The step that takes an operation from one place to the next. */
  function Next(at: ExecAt): (ExecStep, ExecAt)
    requires at != Closed && at != Closing
  {
    match at
    case Opening => (Open, AtGate)
    case AtGate => (TakeGate, Beginning)
    case Beginning => (BeginOp, Operating)
    case Operating => (Call, Calling)
    case Calling => (Return, Finishing)
    case Finishing => (Finish, Sweeping)
    case Sweeping => (SweepAfter(false), Ungating)
    case _ => (GiveGate, Closing)
  }

  lemma Opens(w: World, t: Tid, target: Target, s: SlotId, e: EntryId)
    requires Serving(w, target, s, e)
    ensures Takes(During(w, t, target, s, e, Opening), Execution(t, Next(Opening).0), During(w, t, target, s, e, Next(Opening).1))
  {
  }

  lemma TakesGate(w: World, t: Tid, target: Target, s: SlotId, e: EntryId)
    requires Serving(w, target, s, e)
    ensures Takes(During(w, t, target, s, e, AtGate), Execution(t, Next(AtGate).0), During(w, t, target, s, e, Next(AtGate).1))
  {
  }

  lemma Begins(w: World, t: Tid, target: Target, s: SlotId, e: EntryId)
    requires Serving(w, target, s, e)
    ensures Takes(During(w, t, target, s, e, Beginning), Execution(t, Next(Beginning).0), During(w, t, target, s, e, Next(Beginning).1))
  {
    MayBegins(w, t, target, s, e);
  }

  lemma MayBegins(w: World, t: Tid, target: Target, s: SlotId, e: EntryId)
    requires Serving(w, target, s, e)
    ensures CanExecution(During(w, t, target, s, e, Beginning), t, BeginOp)
  {
  }

  lemma CallsBack(w: World, t: Tid, target: Target, s: SlotId, e: EntryId)
    requires Serving(w, target, s, e)
    ensures Takes(During(w, t, target, s, e, Operating), Execution(t, Next(Operating).0), During(w, t, target, s, e, Next(Operating).1))
  {
    MayCallsBack(w, t, target, s, e);
  }

  lemma MayCallsBack(w: World, t: Tid, target: Target, s: SlotId, e: EntryId)
    requires Serving(w, target, s, e)
    ensures CanExecution(During(w, t, target, s, e, Operating), t, Call)
  {
  }

  lemma ReturnsFromCallback(w: World, t: Tid, target: Target, s: SlotId, e: EntryId)
    requires Serving(w, target, s, e)
    ensures Takes(During(w, t, target, s, e, Calling), Execution(t, Next(Calling).0), During(w, t, target, s, e, Next(Calling).1))
  {
  }

  lemma Finishes(w: World, t: Tid, target: Target, s: SlotId, e: EntryId)
    requires Serving(w, target, s, e)
    ensures Takes(During(w, t, target, s, e, Finishing), Execution(t, Next(Finishing).0), During(w, t, target, s, e, Next(Finishing).1))
  {
    MayFinishes(w, t, target, s, e);
  }

  lemma MayFinishes(w: World, t: Tid, target: Target, s: SlotId, e: EntryId)
    requires Serving(w, target, s, e)
    ensures CanExecution(During(w, t, target, s, e, Finishing), t, Finish)
  {
  }

  lemma Sweeps(w: World, t: Tid, target: Target, s: SlotId, e: EntryId)
    requires Serving(w, target, s, e)
    ensures Takes(During(w, t, target, s, e, Sweeping), Execution(t, Next(Sweeping).0), During(w, t, target, s, e, Next(Sweeping).1))
  {
  }

  lemma GivesGate(w: World, t: Tid, target: Target, s: SlotId, e: EntryId)
    requires Serving(w, target, s, e)
    ensures Takes(During(w, t, target, s, e, Ungating), Execution(t, Next(Ungating).0), During(w, t, target, s, e, Next(Ungating).1))
  {
  }

  lemma Drops(w: World, t: Tid, target: Target, s: SlotId, e: EntryId)
    requires Serving(w, target, s, e)
    ensures Takes(During(w, t, target, s, e, Closing), Execution(t, Drop), During(w, t, target, s, e, Closed))
  {
  }

  lemma Returns(w: World, t: Tid, target: Target, s: SlotId, e: EntryId)
    requires Serving(w, target, s, e)
    ensures Takes(During(w, t, target, s, e, Closed), Execution(t, EndExecute(false)), Moved(w, t, Idle))
  {
    assert w.slots[s := w.slots[s]] == w.slots && w.entries[e := w.entries[e]] == w.entries;
  }

  /** From one place of an operation on. */
  lemma More(w: World, t: Tid, target: Target, s: SlotId, e: EntryId, w0: World, steps: seq<Step>, at: ExecAt) returns (more: seq<Step>)
    requires Serving(w, target, s, e) && at != Closed && at != Closing
    requires Leads(Takes, w0, steps, During(w, t, target, s, e, at))
    ensures Leads(Takes, w0, more, During(w, t, target, s, e, Next(at).1))
  {
    match at {
      case Opening => Opens(w, t, target, s, e);
      case AtGate => TakesGate(w, t, target, s, e);
      case Beginning => Begins(w, t, target, s, e);
      case Operating => CallsBack(w, t, target, s, e);
      case Calling => ReturnsFromCallback(w, t, target, s, e);
      case Finishing => Finishes(w, t, target, s, e);
      case Sweeping => Sweeps(w, t, target, s, e);
      case Ungating => GivesGate(w, t, target, s, e);
    }
    more := steps + [Execution(t, Next(at).0)];
    Extend(Takes, w0, steps, During(w, t, target, s, e, at), Execution(t, Next(at).0), During(w, t, target, s, e, Next(at).1));
  }

  /** The callback is reached, on the account's own owner. */
  lemma ExecuteReachesItsCallback(w: World, t: Tid, target: Target, s: SlotId, e: EntryId, unused: EntryId, b: Tid)
    returns (steps: seq<Step>, w': World)
    requires Serving(w, target, s, e) && PcOf(w, t).Idle? && Fresh(w, t, unused, b)
    ensures Leads(Takes, w, steps, w') && w' == During(w, t, target, s, e, Calling)
    ensures RunsOrdinary(PcOf(w', t)) && w'.entries[e].owner.value.callback == Some(t)
  {
    steps := Enters(w, t, target, s, e, unused, b);
    steps := More(w, t, target, s, e, w, steps, Opening);
    steps := More(w, t, target, s, e, w, steps, AtGate);
    steps := More(w, t, target, s, e, w, steps, Beginning);
    steps := More(w, t, target, s, e, w, steps, Operating);
    w' := During(w, t, target, s, e, Calling);
  }

  /** And when it returns, the registry is as if the call had never been. */
  lemma ExecuteLeavesNoTrace(w: World, t: Tid, target: Target, s: SlotId, e: EntryId) returns (steps: seq<Step>)
    requires Serving(w, target, s, e)
    ensures Leads(Takes, During(w, t, target, s, e, Calling), steps, Moved(w, t, Idle))
  {
    var called := During(w, t, target, s, e, Calling);
    steps := More(w, t, target, s, e, called, [], Calling);
    steps := More(w, t, target, s, e, called, steps, Finishing);
    steps := More(w, t, target, s, e, called, steps, Sweeping);
    steps := More(w, t, target, s, e, called, steps, Ungating);
    Drops(w, t, target, s, e);
    Returns(w, t, target, s, e);
    Extend(Takes, called, steps, During(w, t, target, s, e, Closing), Execution(t, Drop), During(w, t, target, s, e, Closed));
    steps := steps + [Execution(t, Drop)];
    Extend(Takes, called, steps, During(w, t, target, s, e, Closed), Execution(t, EndExecute(false)), Moved(w, t, Idle));
    steps := steps + [Execution(t, EndExecute(false))];
  }
}

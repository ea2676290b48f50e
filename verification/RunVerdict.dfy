/** The verdict over a run's deliveries (application/commands/delivery/reconcile.go). */
module RunVerdict {
  /** A delivery's persisted state; Foreign is one this consumer does not know. */
  datatype DeliveryStatus = Pending | Sending | Sent | Skipped | Failed | Unknown | Foreign

  datatype RunStatus = RunQueued | RunRunning | RunCompleted | RunCancelled | RunFailed

  predicate Open(state: DeliveryStatus) { state in {Pending, Sending, Foreign} }

  predicate Bad(state: DeliveryStatus) { state in {Failed, Unknown} }

  /** The verdict exists once no delivery is open, and is Failed exactly if some outcome is bad or uncertain. */
  ghost predicate IsVerdict(states: set<DeliveryStatus>, status: RunStatus, terminal: bool) {
    && (terminal <==> states != {} && forall s <- states :: !Open(s))
    && (terminal ==> status == if exists s :: s in states && Bad(s) then RunFailed else RunCompleted)
  }

  /** The loop of TerminalRunStatus, which may return in the middle. */
  method TerminalRunStatus(states: seq<DeliveryStatus>) returns (status: RunStatus, terminal: bool)
    ensures IsVerdict((set s | s in states), status, terminal)
  {
    ghost var all := set s | s in states;
    status := RunQueued;
    if |states| == 0 {
      return status, false;
    }
    var failed, unknown := false, false;
    for i := 0 to |states|
      invariant forall j | 0 <= j < i :: !Open(states[j])
      invariant failed || unknown <==> exists j :: 0 <= j < i && Bad(states[j])
    {
      assert states[i] in all;
      assert Open(states[i]) ==> !forall s <- all :: !Open(s);
      match states[i] {
        case Pending => return status, false;
        case Sending => return status, false;
        case Unknown => unknown := true;
        case Failed => failed := true;
        case Sent =>
        case Skipped =>
        case Foreign => return status, false;
      }
    }
    assert states[0] in all && forall s <- all :: !Open(s);
    if unknown || failed {
      ghost var j :| 0 <= j < |states| && Bad(states[j]);
      assert states[j] in all;
      return RunFailed, true;
    }
    return RunCompleted, true;
  }
}

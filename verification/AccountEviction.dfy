/**
 When idle eviction goes wrong: evictIdle reads the entry of an idle slot a
 second time, and an owner whose run ends in between leaves it none to tear down.
 */
module AccountEviction {
  import opened Options
  import opened Slots
  import opened AccountWorld
  import opened AccountSteps
  import opened AccountInvariant
  import opened AccountRely
  import opened AccountTheorems
  import opened Traces

  /** The slots an idle eviction has still to tear down. */
  function Evicted(pc: Pc): Retired {
    match pc
    case Reap(retired) => retired
    case ReapVictim(_, _, retired) => retired
    case ReapEach(retired) => retired
    case Down(_, _, _, NextRetired(rest)) => rest
    case _ => {}
  }

  predicate Found(pc: Pc) { !pc.Crashed? && forall item <- Evicted(pc) :: item.1.Some? }

  /** The second read finds no entry. */
  predicate FindsNothing(step: Step) { step.Stop? && step.stop.ReapClose? && !step.stop.seen }

  /** teardown of no entry, whose check "still current" then holds of an empty slot. */
  predicate TearsNothingDown(w: World, step: Step) {
    && step.Stop? && step.stop.ReapNext? && step.stop.item.1.None? && step.stop.item.0 in w.slots
    && w.slots[step.stop.item.0].core.current.None?
  }

  lemma StopFinds(w: World, t: Tid, step: StopStep)
    requires CanStopStep(w, t, step) && !step.ReapNext? && Found(PcOf(w, t)) && !FindsNothing(Step.Stop(t, step))
    ensures Found(PcOf(DoStopStep(w, t, step), t))
  {
  }

  lemma NextFinds(w: World, t: Tid, item: (SlotId, Option<EntryId>))
    requires CanReapNext(w, t, item)
    ensures var pc' := PcOf(DoReapNext(w, t, item), t);
            && (pc'.Crashed? <==> item.1.None? && w.slots[item.0].core.current.None?)
            && (!pc'.Crashed? ==> Evicted(pc') == Evicted(PcOf(w, t)) - {item})
  {
  }

  lemma DownFinds(w: World, t: Tid, step: DownStep)
    requires CanTeardown(w, t, step)
    ensures var pc' := PcOf(DoTeardown(w, t, step), t); !pc'.Crashed? && Evicted(pc') <= Evicted(PcOf(w, t))
  {
  }

  lemma AdmissionFinds(w: World, t: Tid, step: AdmissionStep)
    requires CanAdmission(w, t, step)
    ensures var pc' := PcOf(DoAdmission(w, t, step), t); !pc'.Crashed? && Evicted(pc') == {}
  {
  }

  lemma ExecutionFinds(w: World, t: Tid, step: ExecStep)
    requires CanExecution(w, t, step)
    ensures var pc' := PcOf(DoExecution(w, t, step), t); !pc'.Crashed? && Evicted(pc') == {}
  {
  }

  lemma LifeFinds(w: World, t: Tid, step: RunStep)
    requires CanLife(w, t, step)
    ensures var pc' := PcOf(DoLife(w, t, step), t); !pc'.Crashed? && Evicted(pc') == {}
  {
  }

  lemma RevocationFinds(w: World, t: Tid, step: RevokeStep)
    requires CanRevocation(w, t, step)
    ensures var pc' := PcOf(DoRevocation(w, t, step), t); !pc'.Crashed? && Evicted(pc') == {}
  {
  }

  lemma TearFinds(w: World, t: Tid, step: TearStep)
    requires CanTear(w, t, step)
    ensures var pc' := PcOf(DoTear(w, t, step), t); !pc'.Crashed? && Evicted(pc') == {}
  {
  }

  lemma FoundStays(w: World, step: Step)
    requires Can(w, step) && Found(PcOf(w, step.t)) && !FindsNothing(step)
    ensures Found(PcOf(Do(w, step), step.t))
  {
    match step
    case Admission(t, s) => AdmissionFinds(w, t, s);
    case Execution(t, s) => ExecutionFinds(w, t, s);
    case Life(t, s) => LifeFinds(w, t, s);
    case Teardown(t, s) => DownFinds(w, t, s);
    case Revocation(t, s) => RevocationFinds(w, t, s);
    case RevokeTeardown(t, s) => TearFinds(w, t, s);
    case Stop(t, s) => if s.ReapNext? { NextFinds(w, t, s.item); } else { StopFinds(w, t, s); }
  }

  lemma StopCrashesNot(w: World, t: Tid, step: StopStep)
    requires CanStopStep(w, t, step) && !step.ReapNext?
    ensures !PcOf(DoStopStep(w, t, step), t).Crashed?
  {
  }

  /** A goroutine crashes in no other way. */
  lemma CrashesExactlyWhen(w: World, step: Step)
    requires Can(w, step)
    ensures PcOf(Do(w, step), step.t).Crashed? <==> TearsNothingDown(w, step)
  {
    match step
    case Admission(t, s) => AdmissionFinds(w, t, s);
    case Execution(t, s) => ExecutionFinds(w, t, s);
    case Life(t, s) => LifeFinds(w, t, s);
    case Teardown(t, s) => DownFinds(w, t, s);
    case Revocation(t, s) => RevocationFinds(w, t, s);
    case RevokeTeardown(t, s) => TearFinds(w, t, s);
    case Stop(t, s) => if s.ReapNext? { NextFinds(w, t, s.item); } else { StopCrashesNot(w, t, s); }
  }

  ghost predicate TakesFinding(w: World, step: Step, w': World) { Takes(w, step, w') && !FindsNothing(step) }

  ghost predicate AllFound(w: World) { forall t <- w.threads :: Found(w.threads[t]) }

  lemma AllFoundStays(w: World, step: Step, w': World)
    requires Inv(w) && AllFound(w) && TakesFinding(w, step, w')
    ensures Inv(w') && AllFound(w')
  {
    StepKeeps(w, step);
    FoundStays(w, step);
    ProtocolOk(w, step);
    OthersFound(w, w', step.t);
  }

  lemma OthersFound(w: World, w': World, t: Tid)
    requires AllFound(w) && ThreadsStep(w, w', t) && Found(PcOf(w', t))
    ensures AllFound(w')
  {
  }

  /** As long as every second read finds the idle entry, no run crashes. */
  lemma NoCrashWhenFound(capacity: nat, steps: seq<Step>, w: World, t: Tid)
    requires Leads(TakesFinding, Initial(capacity), steps, w)
    ensures !PcOf(w, t).Crashed?
  {
    InitialInv(capacity);
    forall x, step, y | Inv(x) && AllFound(x) && TakesFinding(x, step, y) ensures Inv(y) && AllFound(y) {
      AllFoundStays(x, step, y);
    }
    Invariance(TakesFinding, step => true, x => Inv(x) && AllFound(x), Initial(capacity), steps, w);
  }

  /** And when one does not, the eviction's next two steps crash, unless a revoke or a teardown of the account delays it. */
  lemma NothingFoundCrashes(w: World, t: Tid, w': World)
    requires Takes(w, Step.Stop(t, ReapClose(false)), w')
    requires var s := PcOf(w, t).s; !RevokeBusy(w.slots[s]) && w.slots[s].teardownGate.None?
    ensures var closed := Do(w', Step.Stop(t, ReapEnd));
            var next := Step.Stop(t, ReapNext((PcOf(w, t).s, None)));
            Can(closed, next) && PcOf(Do(closed, next), t).Crashed?
  {
  }
}

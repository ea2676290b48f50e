# Verified models of cresora

Dafny models of the parts of cresora whose correctness depends on who races with whom:

- the **account owner registry** of `internal/transport/telegram/accountowner`, which owns one Telegram client per operator account: admission, counted handles, version fences, idle eviction, teardown, the privileged revoke and process shutdown;
- the **delivery tables** in PostgreSQL: claims, dispatch, outcomes, Queue, Stop, the reaper and the reconciler over shared rows;
- the **phone-authentication challenges** of `internal/application/operatoraccountauth`;
- the **Argon2id PHC string**, printer and strict parser, with its base64 and decimals;
- the **login rate limiter**;
- the **delivery worker** (lease arithmetic, slots and tasks) and the **operator accounts** (automaton, disconnect, startup recovery).

`dafny verify dfyconfig.toml` checks everything.

## How the models are built

The concurrent parts are transition systems. A step is one critical section, one SQL statement or transaction, or one call of foreign code; a goroutine between two steps is a program counter together with what it has read. `Traces.Leads` says that a sequence of steps leads from one state to another, and `Traces.Invariance` is the induction all safety results rest on. Every result named "over any run" quantifies over all interleavings of any number of goroutines.

What the code updates in place is also modelled in place: `FenceSet`, `AccountSlot`, `Handle`, `OneShotOwner`, `ReadinessTracker`, `Store`, `Registry`, `ChallengeRecord`, `LoginRateLimiter`, `ActiveTracker`, `Result` and `AccountEntity` are classes with the source's fields. Each method is proved equal to a function on values, and the transition systems take their steps from those same functions.

Invariants over every run say what never happens; the modules named after effects, calls and ends say what does: for each section, statement or call, exactly when it goes on and what it leaves behind, in terms of the state alone.

The registry protocol is proved by rely and guarantee. `AccountRely.StepOk` says what one step of one goroutine may do to the rest of the state, `AccountRely.StepKeepsInv` shows that any step of that form keeps the invariant of every other goroutine, and one lemma per group of steps shows that the steps have that form (`AccountTheorems.ProtocolOk`). A slot section that runs under the slot mutex alone may fall between two reads of a section that holds the registry mutex, so those sections are split.

## Where the code falls short of its promises

- **One owner per account.** revoke.go:272-276 takes a join that ran out of time for a finished one when the callback failed with the same deadline error. `AccountRuns.TwoOwnersOfOneAccount` is a run that ends with two running owners of one account. `AccountTheorems.MaskedExactlyWhen` gives the exact guard, `AccountTheorems.MaskedOwnerIsLost` shows that the guard always leaves a running owner nobody has installed, and `AccountTheorems.OneOwnerWhenJoined` proves the promise for every run that never takes it.
- **Idle eviction.** eviction.go:65-72 reads the entry of an idle slot a second time; if the owner's run ended in between, there is none, and teardown compares nil with nil and goes on to dereference it. `AccountRuns.EvictionMayFindNoEntry` is such a run; `AccountEviction.CrashesExactlyWhen`, `AccountEviction.NoCrashWhenFound` and `AccountEviction.NothingFoundCrashes` say exactly when it happens.
- **"Once" mailings.** Without a reaper that takes a row whose send is still in flight, a recipient gets at most one delivery (`DeliveryOnce.OnceWhenPatient`). With it, `DeliveryTwice.OnceFailsAfterReapInFlight` sends twice. The exact condition is on Queue: no send in flight to a recipient it is about to serve. Runs that meet it send once (`DeliveryOnce.OnceWhenQuiet`), and from every reachable state in which Queue does not meet it some continuation sends twice (`DeliveryTwice.UnquietQueueMaySendTwice`).
- **Ending an aborted authentication.** The WHERE clause of CompleteAbort (auth_store.go:407-417) also matches an account that owes a remote logout; only a CHECK constraint of the table refuses it (`Disconnects.OnlyTheConstraintKeepsIntents`).

## Model

| member | source | states |
|---|---|---|
| Fences.OldestIsUnique | internal/transport/telegram/accountowner/fence.go:73-84 | stamps are pairwise distinct, so the record evicted first does not depend on the order the map is ranged over |
| Fences.RecordOutcome | internal/transport/telegram/accountowner/fence.go:40-69 | a record is refused as stale exactly below the standing version, and for capacity exactly if it is new to a full table in which all are protected; a refusal changes nothing |
| Fences.RecordKeepsValid | internal/transport/telegram/accountowner/fence.go:40-69 | the table stays within its limit, with distinct stamps behind the clock |
| Fences.RecordEffect | internal/transport/telegram/accountowner/fence.go:40-69 | a recorded fence carries the version and the newest stamp and never loses protection; no other survivor changes, and the only record that may vanish is the oldest unprotected one of a full table |
| Fences.UnprotectEffect | internal/transport/telegram/accountowner/fence.go:86-103 | unprotecting drops the protection of exactly the named version and never removes a record, so the trim that follows does nothing |
| Fences.CalledEffect | internal/transport/telegram/accountowner/fence.go:40-103 | a surviving record's version never decreases, and a protected record survives and loses protection only by a call that names its version |
| Fences.ValidAfterCalls | internal/transport/telegram/accountowner/fence.go:11-103 | any sequence of calls keeps the table valid |
| Fences.ProtectedFenceOutlivesOthers | internal/transport/telegram/accountowner/fence.go:40-103 | a protected fence outlives any number of calls that do not unprotect its key and goes on blocking its versions |
| Fences.FenceSet.OldEvictableFence | internal/transport/telegram/accountowner/fence.go:73-84 | the loop finds the unique oldest unprotected record, or none if all are protected |
| Fences.FenceSet.RecordFence | internal/transport/telegram/accountowner/fence.go:40-69 | in place: the new table and the reported error are those of Record, whose effect the lemmas above state |
| Fences.FenceSet.UnprotectFence | internal/transport/telegram/accountowner/fence.go:86-93 | in place: unprotect, then trim |
| Fences.FenceSet.Trim | internal/transport/telegram/accountowner/fence.go:95-103 | the loop drops oldest unprotected records until the limit holds or none is left |
| Slots.AccountSlot.Reserve | internal/transport/telegram/accountowner/account_slot.go:89-99 | a handle is counted exactly if admission is open and the entry is still installed |
| Slots.AccountSlot.Close | internal/transport/telegram/accountowner/account_slot.go:101-109 | closing hands out the cancel function of the running operation at most once |
| Slots.AccountSlot.Begin | internal/transport/telegram/accountowner/account_slot.go:115-132 | an operation begins exactly if admissionError finds nothing, with the same error order; the drain signal opens with it |
| Slots.AccountSlot.Finish | internal/transport/telegram/accountowner/account_slot.go:134-146 | the operation is uncounted, and the drain signal closes exactly at zero |
| Slots.AccountSlot.Release | internal/transport/telegram/accountowner/runtime_entry.go:96-107 | the handle is uncounted, and the caller learns whether the slot may be removed |
| Slots.AccountSlot.RunEnded | internal/transport/telegram/accountowner/runtime_entry.go:119-134 | a run that ends uninstalls its entry unless a teardown owns the slot |
| Slots.AccountSlot.Uninstall | internal/transport/telegram/accountowner/shutdown.go:197-205 | a finished teardown uninstalls only its own entry, and reopens admission only then |
| Slots.AccountSlot.Reopen | internal/transport/telegram/accountowner/revoke.go:294-300 | a leaving revoke reopens an empty, drained slot |
| Handles.ReleasedExactlyOnce | internal/transport/telegram/accountowner/handle.go:27-77 | over every interleaving of Close and operations the registry reference is given back once if the handle was closed and all operations left, not at all otherwise, and operations enter exactly until Close |
| Handles.ConsistentAfter | internal/transport/telegram/accountowner/handle.go:27-77 | use count, released flag and number of releases agree after any interleaving, and closed is for ever |
| Handles.Handle.Enter | internal/transport/telegram/accountowner/handle.go:56-64 | in place: an operation is let in exactly while the handle is open |
| Handles.Handle.Leave | internal/transport/telegram/accountowner/handle.go:66-77 | in place: the last operation of a closed handle, and only it, releases |
| Handles.Handle.Shut | internal/transport/telegram/accountowner/handle.go:38-54 | in place: the first Close of an idle handle, and only it, releases |
| Owners.CheckPure | internal/transport/telegram/accountowner/owner_runtime.go:360-380 | the loop over joined causes decides the recursive predicate |
| Owners.PureLeaves | internal/transport/telegram/accountowner/owner_runtime.go:360-380 | an error is a pure cancellation exactly if no join in it is empty and the expected sentinel is all there is at the bottom of it |
| Owners.OnlyOwnCancellationIsDropped | internal/transport/telegram/accountowner/owner_runtime.go:346-358 | a run failure is dropped exactly if the run's own context ended and nothing else is at the bottom of the failure; any other is passed on unchanged |
| Owners.OneShotOwner.Start | internal/transport/telegram/accountowner/owner_runtime.go:102-112 | Run starts an owner once, and never after a Stop |
| Owners.OneShotOwner.Stop | internal/transport/telegram/accountowner/owner_runtime.go:128-159 | a stop before Run consumes the owner; a later one changes neither completion nor result |
| Owners.OneShotOwner.Complete | internal/transport/telegram/accountowner/owner_runtime.go:314-320 | completion records the result of the run |
| Owners.ReadinessTracker.Observe | internal/transport/telegram/accountowner/owner_runtime.go:413-431 | the current ready channel is closed exactly while ready, every earlier waiter is woken, and a lost connection gets a fresh ready channel |
| AccountAdmission.AdmissionOk | internal/transport/telegram/accountowner/admission.go:11-120 | every section of reserve and acquireRevoke obeys the protocol |
| AccountExec.ExecutionOk | internal/transport/telegram/accountowner/runtime_entry.go:47-107 | every section of an operation obeys the protocol |
| AccountLife.LifeOk | internal/transport/telegram/accountowner/registry.go:129-167 | every section of buildEntry and runEntry obeys the protocol |
| AccountDown.TeardownOk | internal/transport/telegram/accountowner/shutdown.go:151-219 | every section of an ordinary teardown obeys the protocol |
| AccountRevoke.RevocationOk | internal/transport/telegram/accountowner/revoke.go:20-245 | every section of a revoke up to its teardown, and its release, obeys the protocol |
| AccountTear.TearOk | internal/transport/telegram/accountowner/revoke.go:247-286 | every section of a revoke's teardown obeys the protocol |
| AccountStop.StopStepsOk | internal/transport/telegram/accountowner/shutdown.go:13-149 | every section of StopAccount, Stop and idle eviction obeys the protocol |
| AccountRely.StepKeepsInv | internal/transport/telegram/accountowner/registry.go:17-38 | a step that obeys the protocol keeps the invariant of the registry, of every slot, entry and of every other goroutine |
| AccountTheorems.ProtocolOk | internal/transport/telegram/accountowner/registry.go:83-127 | every step of every goroutine obeys the protocol |
| AccountTheorems.ReachableInv | internal/transport/telegram/accountowner/registry.go:57-79 | the invariant holds after any run |
| AccountTheorems.PrivilegedAlone | internal/transport/telegram/accountowner/revoke.go:178-245 | while a privileged revoke callback runs, no operation of that account is admitted or running |
| AccountTheorems.OneCallbackPerAccount | internal/transport/telegram/accountowner/runtime_entry.go:47-94 | at most one callback per account executes, ordinary or privileged |
| AccountTheorems.NoneBeginsBehindTheFence | internal/transport/telegram/accountowner/revoke.go:88-98 | from the fence of a revoke on, no step of anyone begins an operation of its account |
| AccountTheorems.NoOperationUntilRevokeLeaves | internal/transport/telegram/accountowner/revoke.go:37-39 | over any run from the callback to the revoke's release, the account has no operation, not even during the teardown |
| AccountTheorems.RunningOwnerIsInstalled | internal/transport/telegram/accountowner/admission.go:71-107 | an owner between the start and the return of Run belongs to the entry installed in its account's slot, unless a revoke took it for joined |
| AccountTheorems.OneOwnerPerAccount | internal/transport/telegram/accountowner/shutdown.go:151-205 | two such owners of one account are the same |
| AccountTheorems.MaskedExactlyWhen | internal/transport/telegram/accountowner/revoke.go:269-284 | a revoke goes on to uninstall an owner whose Run has not returned exactly if the build is known, the wait expired and the callback failed with the same deadline error |
| AccountTheorems.MaskedOwnerIsLost | internal/transport/telegram/accountowner/revoke.go:272-284 | whenever that happens, the next step leaves a running owner that no slot has installed |
| AccountTheorems.OneOwnerWhenJoined | internal/transport/telegram/accountowner/revoke.go:269-284 | over any run in which it never happens, an account has at most one running owner |
| AccountRuns.TwoOwnersOfOneAccount | internal/transport/telegram/accountowner/revoke.go:269-284 | a run from the empty registry to two running owners of one account |
| AccountRuns.EvictionMayFindNoEntry | internal/transport/telegram/accountowner/eviction.go:57-80 | a run in which idle eviction hands no entry to teardown and crashes |
| AccountEviction.CrashesExactlyWhen | internal/transport/telegram/accountowner/eviction.go:65-79 | a step crashes exactly if it tears down an eviction that read no entry while the slot still has none |
| AccountEviction.NoCrashWhenFound | internal/transport/telegram/accountowner/eviction.go:65-72 | over any run in which every second read finds the idle entry, no goroutine crashes |
| AccountEviction.NothingFoundCrashes | internal/transport/telegram/accountowner/eviction.go:65-79 | when it finds none and neither a revoke nor a teardown of the account is under way, the eviction's next two steps crash |
| AccountTheorems.FenceKeepsClosed | internal/transport/telegram/accountowner/fence.go:40-69 | while a fence covers the installed version, that slot's admission is closed |
| AccountTheorems.FencedVersionsStayOut | internal/transport/telegram/accountowner/admission.go:22-25 | no step opens a handle or begins an operation for a version a standing fence covers |
| AccountTheorems.SlotsCount | internal/transport/telegram/accountowner/account_slot.go:28-53 | handles counts the open handles, active is 0 or 1 and is 1 exactly if some goroutine is in an operation, the drain signal tells the truth, and revokeWaiters counts the waiting revokes |
| AccountTheorems.CountersNeverUnderflow | internal/transport/telegram/accountowner/account_slot.go:134-146 | the panics of finishOperation and releaseHandle cannot be reached |
| AccountTheorems.OnlyTabledSlotsAreLive | internal/transport/telegram/accountowner/shutdown.go:207-219 | the table never exceeds Capacity, and a slot outside it has no entry, handle, operation, revoke or waiter |
| AccountTheorems.TeardownStopsDrained | internal/transport/telegram/accountowner/shutdown.go:178-186 | an ordinary teardown stops only the installed owner, with admission closed and no operation left |
| AccountTheorems.RootEndsLast | internal/transport/telegram/accountowner/shutdown.go:68-127 | the root context ends only in a stopped registry whose slots are all empty; that stays so, and no owner runs any more but one a revoke took for joined |
| AccountCalls.CallBeginsExactly | internal/transport/telegram/accountowner/admission.go:142-186 | Execute is taken exactly for a valid authenticating or signed-in version, a revoke exactly for a disconnecting version above the first |
| AccountCalls.StopBeginsExactly | internal/transport/telegram/accountowner/admission.go:156-169 | StopAccount is taken exactly for a valid version that is not disconnected |
| AccountCalls.RecordCovers | internal/transport/telegram/accountowner/fence.go:40-69 | recording covers the version unless the key is new to a full table of protected records, and succeeds exactly if no newer version stands |
| AccountCalls.StopUnknownAccount | internal/transport/telegram/accountowner/shutdown.go:22-32 | StopAccount of an account without a slot leaves a fence that covers the version |
| AccountCalls.StopReadsAccount | internal/transport/telegram/accountowner/shutdown.go:22-34 | a stopped registry has nothing to do; an account with a slot is looked at under the mutex |
| AccountCalls.StopEmptyAccount | internal/transport/telegram/accountowner/shutdown.go:46-62 | StopAccount of an account without an entry leaves a fence that covers the version |
| AccountCalls.StopOtherTarget | internal/transport/telegram/accountowner/shutdown.go:34-45 | StopAccount of another version or status than the installed one changes nothing |
| AccountCalls.StopInstalledTarget | internal/transport/telegram/accountowner/shutdown.go:46-63 | StopAccount of the installed target leaves a fence that covers it, protected, with admission closed, and goes on to tear exactly that entry down, unless a newer fence stands or the table has no room |
| AccountCalls.StoppedVersionIsRefused | internal/transport/telegram/accountowner/shutdown.go:27-32 | after StopAccount of an account without a slot, no Execute at or below that version gets past its lookup |
| AccountCalls.LookupExactly | internal/transport/telegram/accountowner/admission.go:17-42 | a call is refused at its lookup exactly if the registry is stopped or, for Execute, a record covers its version |
| AccountCalls.FencedExecuteIsRefused | internal/transport/telegram/accountowner/admission.go:22-25 | an Execute whose version a record covers leaves everything as it was |
| AccountCalls.SlotMadeExactly | internal/transport/telegram/accountowner/admission.go:36-42 | an account gets a new, open and empty slot exactly while the table has room |
| AccountCalls.VictimIsIdle | internal/transport/telegram/accountowner/eviction.go:10-24 | room is made only in a full table, and only by an open slot with an entry and no handle or operation |
| AccountCalls.VictimIsClosed | internal/transport/telegram/accountowner/eviction.go:17-21 | the idle slot picked is closed, and its entry is torn down before the call is tried again |
| AccountCalls.AdmitOnEntry | internal/transport/telegram/accountowner/admission.go:49-70 | on an installed entry a handle is given out exactly if no revoke runs or waits, the slot is open and the target is exactly the installed one; otherwise nothing changes |
| AccountCalls.AdmitBehindEntry | internal/transport/telegram/accountowner/admission.go:71-87 | a newer version closes the older entry and goes on to tear it down, unless a revoke runs or waits |
| AccountCalls.AdmitOnEmpty | internal/transport/telegram/accountowner/admission.go:90-107 | on an empty slot an entry for the target is published, with one handle and a builder, exactly if no revoke runs or waits and the slot is open |
| AccountCalls.OperationBeginsExactly | internal/transport/telegram/accountowner/account_slot.go:115-132 | an operation behind its gate begins exactly if its admission still holds, and leaves no mark otherwise |
| AccountCalls.CallbackStartsExactly | internal/transport/telegram/accountowner/runtime_entry.go:47-94 | a callback may start exactly on the running, free owner of the entry that still admits it |
| AccountCalls.HandleOpensExactly | internal/transport/telegram/accountowner/registry.go:99-127 | a handle is opened exactly on a built entry with an owner whose admission still holds |
| AccountCalls.OperationGoesOn | internal/transport/telegram/accountowner/runtime_entry.go:47-107 | where an operation goes after each of its other sections, and that none of them uninstalls an entry or moves a fence |
| AccountCalls.SweepsExactly | internal/transport/telegram/accountowner/shutdown.go:207-219 | a sweep takes a slot out of the table exactly if it has no entry, handle, operation or revoke and is not stopping |
| AccountServes.ExecuteReachesItsCallback | internal/transport/telegram/accountowner/registry.go:83-127 | on every served account whose gate is free, an undisturbed Execute reaches its callback on that very owner |
| AccountServes.ExecuteLeavesNoTrace | internal/transport/telegram/accountowner/runtime_entry.go:47-107 | and when the callback returns, the call leaves the registry exactly as it found it |
| AccountEnds.BuildPublishesExactly | internal/transport/telegram/accountowner/registry.go:129-167 | a built client becomes the owner exactly if the registry is open, the entry is still installed and admission is open or a revoke wants it; a failed build uninstalls its entry |
| AccountEnds.RunExactly | internal/transport/telegram/accountowner/owner_runtime.go:102-126 | a run starts exactly if the owner was not consumed before, and its return completes the owner with its failure |
| AccountEnds.RunLeavesExactly | internal/transport/telegram/accountowner/runtime_entry.go:119-134 | a run that ended uninstalls its entry exactly if no teardown owns the slot, and leaves its failure behind |
| AccountEnds.TeardownEntersExactly | internal/transport/telegram/accountowner/shutdown.go:151-180 | a teardown waits for revokes and for drained operations, and leaves alone an entry that is not installed |
| AccountEnds.TeardownWaitsExactly | internal/transport/telegram/accountowner/shutdown.go:172-192 | after build and join, clean ends go on, context failures keep the entry, and other failures uninstall it all the same |
| AccountEnds.OwnerStopsExactly | internal/transport/telegram/accountowner/shutdown.go:181-186 | an owner that never ran is stopped for good, a running one is told to stop |
| AccountEnds.TeardownUninstallsExactly | internal/transport/telegram/accountowner/shutdown.go:197-202 | the torn-down entry leaves its slot and admission reopens; another entry stays |
| AccountEnds.TeardownUnprotectsExactly | internal/transport/telegram/accountowner/shutdown.go:203-203 | exactly the fence of the torn-down version loses its protection, and all fences go on standing |
| AccountEnds.TeardownReturnsExactly | internal/transport/telegram/accountowner/shutdown.go:160-195 | where the caller of a teardown goes on, by what it was and whether the teardown succeeded |
| AccountEnds.TeardownIsFinal | internal/transport/telegram/accountowner/shutdown.go:151-205 | over any run, when a teardown has succeeded its entry is installed nowhere and its owner does not run, unless a revoke took it for joined |
| AccountEnds.RevokeEntersExactly | internal/transport/telegram/accountowner/revoke.go:174-199 | a revoke whose turn has come runs unless the registry was stopped; a cancelled one only stops waiting |
| AccountEnds.RevokeReadsExactly | internal/transport/telegram/accountowner/revoke.go:67-72 | a revoke in a stopped registry leaves; another one reads the installed entry under the mutex |
| AccountEnds.RevokePreparesOnEntry | internal/transport/telegram/accountowner/revoke.go:70-99 | on an entry a revoke is prepared exactly if it is the signed-in version right before the revoked one and the fence can be recorded; then the fence stands, protected, and admission is closed; a private entry left behind goes first; otherwise nothing changes |
| AccountEnds.RevokePreparesOnEmpty | internal/transport/telegram/accountowner/revoke.go:88-99 | on an empty slot a revoke is prepared exactly if the fence can be recorded; then a private entry is installed behind it |
| AccountEnds.PrivilegedStartsExactly | internal/transport/telegram/accountowner/revoke.go:215-234 | the privileged callback starts exactly after build and drain, on a running owner without a callback |
| AccountEnds.PrivilegedGoesOn | internal/transport/telegram/accountowner/revoke.go:202-245 | where executeRevoke goes on, and that its callback is registered only while it runs |
| AccountEnds.PrivilegedOnItsOwner | internal/transport/telegram/accountowner/revoke.go:70-99 | over any run the privileged callback executes on the running owner of the version right before the revoked one, or on a private one of the revoked target |
| AccountEnds.RevokeTearsExactly | internal/transport/telegram/accountowner/revoke.go:253-271 | a revoke stops its owner whatever its waits said, and knows the build exactly if it was waited for and did not end with a context failure |
| AccountEnds.RevokeJoinsExactly | internal/transport/telegram/accountowner/revoke.go:272-281 | a joined owner is uninstalled exactly if the build is known and the run did not end with a context failure that was not the callback's own |
| AccountEnds.RevokeUninstallsExactly | internal/transport/telegram/accountowner/revoke.go:281-283 | the revoked entry leaves its slot and admission reopens; another entry stays |
| AccountEnds.RevokeUnprotectsExactly | internal/transport/telegram/accountowner/revoke.go:281-284 | exactly the fences of the revoked entry and of the revoked version lose their protection, and all fences go on standing |
| AccountEnds.RevokeTriesAgainExactly | internal/transport/telegram/accountowner/revoke.go:103-116 | a stale private entry that is gone makes way for another try; otherwise the revoke leaves |
| AccountEnds.RevokeLeavesExactly | internal/transport/telegram/accountowner/revoke.go:288-314 | a leaving revoke reopens an empty, drained slot and takes it out of the table exactly if nothing refers to it |
| AccountEnds.EvictionDoes | internal/transport/telegram/accountowner/eviction.go:57-80 | an eviction picks open slots with an entry and no handle or operation, and tears down each one it picked |
| AccountEnds.EvictionCloses | internal/transport/telegram/accountowner/eviction.go:64-74 | a picked slot is closed |
| AccountEnds.StopClosesAll | internal/transport/telegram/accountowner/shutdown.go:69-82 | over any run, once the stopping section is left, every installed slot of the table is closed |
| AccountEnds.StopBegins | internal/transport/telegram/accountowner/shutdown.go:69-74 | the first Stop visits every slot of the table, later ones go on to join |
| AccountEnds.StopVisits | internal/transport/telegram/accountowner/shutdown.go:74-82 | a visited slot is closed exactly if it has an entry |
| AccountEnds.StopScans | internal/transport/telegram/accountowner/shutdown.go:129-149 | a scan lists exactly the installed entries of the table |
| AccountEnds.StopTearsDown | internal/transport/telegram/accountowner/shutdown.go:88-127 | every listed entry is torn down; the root context ends only with every slot empty |
| RunVerdict.TerminalRunStatus | internal/application/commands/delivery/reconcile.go:62-89 | the loop returns a verdict exactly if there are states and none is open, and it is Failed exactly if one is failed or unknown |
| DeliveryInvariant.StepKeeps | migrations/20260801000000_current_schema.sql:356-476 | every statement and transaction keeps the invariant of rows, runs, mailings and sends in flight |
| DeliveryTheorems.SchemaHolds | migrations/20260801000000_current_schema.sql:356-476 | after any run every CHECK constraint, the foreign keys and both unique indexes of runs hold; draft and stopped mailings have no active run; an active mailing can always be stopped |
| DeliveryTheorems.OneSendPerToken | internal/infrastracture/storage/pg/deliveries/delivery.go:37-70 | a claim token admits at most one send over any run, and attempt_count is the number of admitted sends and never exceeds max_attempts |
| DeliveryTheorems.PushedExactlyWhenPending | internal/infrastracture/storage/pg/deliveries/delivery.go:261-280 | the two CASE expressions agree, NULL generation included: ready_at is pushed exactly when the row returns to pending |
| DeliveryTheorems.ReaperDecides | internal/infrastracture/storage/pg/reaper/reaper.go:85-172 | every expired row becomes pending if it may be retried and unknown otherwise, loses its lease and keeps attempts, start and idempotency key |
| DeliveryTheorems.SentForever | internal/infrastracture/storage/pg/deliveries/delivery.go:120-147 | over any run a sent row never changes again |
| DeliveryTheorems.LateSuccessWins | internal/infrastracture/storage/pg/deliveries/delivery.go:120-147 | whatever happened to its row, a success is recorded, and changes no row exactly if it was sent already |
| DeliveryTheorems.AlreadySentProofHolds | internal/infrastracture/storage/pg/deliveries/delivery.go:151-189 | the proof read after a success that changed no row holds, however much later it is read |
| DeliveryTheorems.StaleNegativesChangeNothing | internal/infrastracture/storage/pg/deliveries/delivery.go:288-316 | once a send has lost its row, its negative outcome changes no row after any run |
| DeliveryTheorems.TerminalRunForever | internal/infrastracture/storage/pg/reconciler/reconciler.go:216-278 | over any run a terminal run keeps its status and generation |
| DeliveryTheorems.NothingAdmittedAfterStop | internal/infrastracture/storage/pg/mailings/mailing.go:233-298 | after Stop, over any run, the cancelled run has no pending delivery, and none is claimed or admitted to send |
| DeliveryTheorems.CompletedForever | internal/infrastracture/storage/pg/reconciler/reconciler.go:252-305 | a Completed verdict is never undone: recomputed after any run it is Completed again |
| DeliveryOnce.OnceWhenQuiet | internal/infrastracture/storage/pg/mailings/mailing.go:96-151 | a recipient of a "once" mailing has at most one sent delivery over any run whose Queue never serves a recipient with a send in flight |
| DeliveryOnce.OnceWhenPatient | internal/infrastracture/storage/pg/mailings/mailing.go:96-151 | in particular over any run of workers, Stop and Queue in which the reaper takes no row whose send is in flight |
| DeliveryTwice.UnquietQueueMaySendTwice | internal/infrastracture/storage/pg/mailings/mailing.go:130-151 | from every reachable state in which Queue serves a recipient with a send in flight, some continuation sends both |
| DeliveryTwice.OnceFailsAfterReapInFlight | internal/infrastracture/storage/pg/reaper/reaper.go:130-146 | a run with the reaper that sends a recipient of a "once" mailing twice |
| DeliveryEffects.ClaimsExactly | internal/infrastracture/storage/pg/claims/claims.go:54-100 | a row is claimed exactly if it is due, has attempts left, lies in a live run and bears no lasting lease; it then bears the token, the generation and a lease until now plus the duration |
| DeliveryEffects.RenewsExactly | internal/infrastracture/storage/pg/claims/claim.go:79-107 | a lease is prolonged to now plus the duration exactly if it lasts and is of this token and generation in a live run |
| DeliveryEffects.ReleasesExactly | internal/infrastracture/storage/pg/claims/claim.go:134-153 | a released row is without lease and due in five seconds, if it is still pending and of this token |
| DeliveryEffects.AdmitsExactly | internal/infrastracture/storage/pg/deliveries/delivery.go:37-70 | a send is admitted exactly on a lasting lease with attempts left, and is the next attempt |
| DeliveryEffects.SucceedsExactly | internal/infrastracture/storage/pg/deliveries/delivery.go:120-147 | after any run a success makes the row sent now, without lease, reason or error, unless it was sent before |
| DeliveryEffects.RejectsExactly | internal/infrastracture/storage/pg/deliveries/delivery.go:199-299 | the full table of failed sends: unknown outside the live generation or for an unclassified outcome, failed for a permanent failure or a last attempt, pending otherwise, in five seconds or when the flood wait is over |
| DeliveryEffects.QuarantinesExactly | internal/infrastracture/storage/pg/deliveries/delivery.go:329-356 | a cancelled send leaves its diagnostic on the row it still owns, and nothing else |
| DeliveryEffects.StaleRejectsNothing | internal/infrastracture/storage/pg/deliveries/delivery.go:288-316 | the failure of a send that no longer owns its row changes nothing |
| DeliveryEffects.UnknownUntilSent | internal/infrastracture/storage/pg/deliveries/delivery.go:120-147 | over any run an unknown outcome stays unknown until a late success decides it |
| DeliveryEffects.UnknownBlocksQueue | internal/infrastracture/storage/pg/mailings/mailing.go:96-118 | over any run, as long as it is unknown, Queue refuses the mailing |
| DeliveryEffects.MayQueueExactly | internal/infrastracture/storage/pg/mailings/mailing.go:84-166 | Queue succeeds exactly for a draft or stopped mailing without open outcomes and with some recipient to serve |
| DeliveryEffects.QueuesExactly | internal/infrastracture/storage/pg/mailings/mailing.go:119-175 | Queue adds exactly one fresh pending delivery per recipient to be served, of the next run, and nothing else |
| DeliveryEffects.StopsExactly | internal/infrastracture/storage/pg/mailings/mailing.go:233-298 | Stop skips pending deliveries that were never tried, makes those that were unknown, leaves the others to their sends, and bumps the generation |
| DeliveryEffects.ReapsExactly | internal/infrastracture/storage/pg/reaper/reaper.go:85-172 | a sending row whose lease ended before the grace is due again after the delay if it may be retried, and unknown otherwise |
| DeliveryEffects.ReconcilesExactly | internal/infrastracture/storage/pg/reconciler/reconciler.go:216-301 | a live run whose deliveries are all over ends, and its mailing with it: both failed if some delivery failed or is unknown, both completed otherwise |
| DeliveryStore.Store.Claim | internal/infrastracture/storage/pg/claims/claims.go:54-100 | in place: the row is leased to the fresh token exactly if it is eligible, and nothing changes otherwise |
| DeliveryStore.Store.Renew | internal/infrastracture/storage/pg/claims/claim.go:34-112 | in place: the lease is extended exactly if token, expiry, generation and parents still hold |
| DeliveryStore.Store.Release | internal/infrastracture/storage/pg/claims/claim.go:130-158 | in place: a pending row still leased to the token is put back with a delay |
| DeliveryStore.Store.Admit | internal/infrastracture/storage/pg/deliveries/delivery.go:37-76 | in place: the send is admitted exactly under the stated conditions |
| DeliveryStore.Store.Succeed | internal/infrastracture/storage/pg/deliveries/delivery.go:120-189 | in place: the success is recorded if the row accepts it, and proved exactly if it was or the row is already sent by this or a later attempt |
| DeliveryStore.Store.Reject | internal/infrastracture/storage/pg/deliveries/delivery.go:193-321 | in place: a classified failure decides the row it still owns, as the table of RejectsExactly says |
| DeliveryStore.Store.Quarantine | internal/infrastracture/storage/pg/deliveries/delivery.go:323-363 | in place: a cancelled send leaves only a diagnostic on the row it still owns |
| DeliveryStore.Store.Reap | internal/infrastracture/storage/pg/reaper/reaper.go:85-172 | in place: one expired candidate is retried, given up as unknown, or left alone |
| DeliveryStore.Store.Stop | internal/infrastracture/storage/pg/mailings/mailing.go:190-303 | in place: Stop cancels the one active run and decides its pending deliveries, or reports why not and changes nothing |
| DeliveryStore.Store.Unresolved | internal/infrastracture/storage/pg/mailings/mailing.go:96-118 | the check finds a delivery whose outcome is open |
| DeliveryStore.Store.EligibleRecipients | internal/infrastracture/storage/pg/mailings/mailing.go:134-142 | the recipients selected are those not yet delivered to if the mailing is "once", all otherwise |
| DeliveryStore.Store.NewRows | internal/infrastracture/storage/pg/mailings/mailing.go:132-147 | one pending row per eligible recipient, and no other |
| DeliveryStore.Store.Queue | internal/infrastracture/storage/pg/mailings/mailing.go:60-180 | in place: Queue creates the next run and its deliveries, or reports why not and changes nothing |
| DeliveryStore.Store.ReadStates | internal/infrastracture/storage/pg/reconciler/reconciler.go:223-250 | the loop collects exactly the states of the run's deliveries |
| DeliveryStore.Store.Reconcile | internal/infrastracture/storage/pg/reconciler/reconciler.go:167-306 | in place: run and parent become terminal together exactly if generation, status pair and verdict allow |
| ChallengeState.InsertedConsistent | internal/application/operatoraccountauth/challenge_registry.go:130-166 | filling a free slot keeps the three maps consistent |
| ChallengeState.RemovedConsistent | internal/application/operatoraccountauth/challenge_registry.go:422-434 | removal takes the challenge out of all three maps |
| ChallengeState.BuriedConsistent | internal/application/operatoraccountauth/challenge_registry.go:399-420 | a terminal step trades one live ID for one tombstone |
| ChallengeInvariant.StepKeeps | internal/application/operatoraccountauth/challenge_registry.go:105-466 | every step of Start, Code, Password, Cancel, Status, expiry and Shutdown keeps the invariant |
| ChallengeTheorems.SlotsAgree | internal/application/operatoraccountauth/challenge_registry.go:105-168 | after any run an actor has at most one live challenge, found through each map, and no live ID is ended |
| ChallengeTheorems.WithinCapacity | internal/application/operatoraccountauth/challenge_registry.go:105-168 | live and ended challenges together never exceed the capacity, and the maps agree |
| ChallengeTheorems.BudgetsHold | internal/application/operatoraccountauth/challenge_operation.go:40-54 | over any run a request ID causes at most five SignIn and five Password calls, although Shutdown resets the counters |
| ChallengeTheorems.OnlyCallsCount | internal/application/operatoraccountauth/submission.go:14-110 | the provider is called only by an operation that reserved an attempt of that very request |
| ChallengeTheorems.ExpiryBounded | internal/application/operatoraccountauth/challenge_registry.go:105-216 | over any run an expiry never exceeds the one the challenge was created with |
| ChallengeTheorems.NoCallAfterProfile | internal/application/operatoraccountauth/submission.go:14-110 | once a profile is pending, no run lets the request call the provider again |
| ChallengeTheorems.NoSignInAfterPassword | internal/application/operatoraccountauth/submission.go:14-63 | once the password stage is reached, no run lets the request call SignIn again |
| ChallengeTheorems.EndIsNeverLost | internal/application/operatoraccountauth/challenge_operation.go:71-86 | an operation that completes, or aborts, finds its challenge still live, so its outcome is recorded |
| ChallengeTheorems.OutcomeIsReplayed | internal/application/operatoraccountauth/challenge_registry.go:267-334 | over any run, while the tombstone lasts and the registry is open, a retry is told the recorded outcome unchanged |
| ChallengeEffects.PreparesExactly | internal/application/operatoraccountauth/challenge_registry.go:119-167 | a challenge is created exactly if the registry is open, the actor has none and there is room beside the lasting outcomes; one for the same target is resumed with the earlier expiry |
| ChallengeEffects.PrepareForgets | internal/application/operatoraccountauth/challenge_registry.go:122-122 | Prepare forgets exactly the outcomes whose time has come |
| ChallengeEffects.CommitsExactly | internal/application/operatoraccountauth/challenge_registry.go:179-202 | a provider's hash is considered exactly for a live, unexpired challenge that has none, in an open registry |
| ChallengeEffects.HashIsTakenExactly | internal/application/operatoraccountauth/challenge_registry.go:197-214 | the challenge becomes ready exactly if there is a hash and it outlasts the earlier of the two expiries |
| ChallengeEffects.RollsBackExactly | internal/application/operatoraccountauth/challenge_registry.go:218-233 | a start that failed leaves no challenge |
| ChallengeEffects.FindsExactly | internal/application/operatoraccountauth/challenge_registry.go:279-299 | a request is taken up exactly by the actor of a live challenge, in an open registry |
| ChallengeEffects.LocksExactly | internal/application/operatoraccountauth/challenge_registry.go:301-302 | operations on one challenge run one at a time |
| ChallengeEffects.ChecksExactly | internal/application/operatoraccountauth/challenge_registry.go:309-322 | an operation is admitted exactly if its challenge is live, the registry open, the expiry ahead and a code or a profile waiting |
| ChallengeEffects.ActsExactly | internal/application/operatoraccountauth/submission.go:25-35 | Cancel aborts, a pending profile is finalized, and a submission goes on exactly in its own stage with fewer than five attempts of its kind |
| ChallengeEffects.CallsExactly | internal/application/operatoraccountauth/submission.go:36-46 | one call per reserved attempt, or an abort without a provider |
| ChallengeEffects.CallsBeforeExpiry | internal/application/operatoraccountauth/challenge_registry.go:315-318 | over any run every SignIn and Password call belongs to an operation that was admitted before the expiry its challenge was created with, of a live challenge in that stage and without a profile |
| ChallengeEffects.AnswersExactly | internal/application/operatoraccountauth/submission.go:47-58 | a profile is kept and finalized, a request for the password opens that stage, a fatal failure aborts, any other leaves the challenge as it was |
| ChallengeEffects.FinalizesExactly | internal/application/operatoraccountauth/submission.go:112-116 | an account is made durable only while its challenge has not expired |
| ChallengeEffects.EndsExactly | internal/application/operatoraccountauth/challenge_registry.go:399-420 | the end of a challenge clears its secrets and records its outcome for as long as the registry keeps outcomes |
| ChallengeEffects.EndFreesTheActor | internal/application/operatoraccountauth/challenge_registry.go:422-434 | the end of a challenge frees its actor and its target for another |
| ChallengeEffects.KeepsExactly | internal/application/operatoraccountauth/submission.go:117-120 | a durable step that failed leaves the challenge for another try |
| ChallengeEffects.StatusForgetsExactly | internal/application/operatoraccountauth/challenge_registry.go:242-250 | Status forgets exactly the outcomes whose time has come |
| ChallengeEffects.RemovesExactly | internal/application/operatoraccountauth/challenge_registry.go:340-356 | a removed challenge frees its actor and leaves no secrets and no outcome |
| ChallengeEffects.ShutsDownExactly | internal/application/operatoraccountauth/service.go:129-149 | Shutdown closes the registry, forgets every secret of the challenges it visits, and all outcomes |
| ChallengeRegistry.Registry.CloseAdmission | internal/application/operatoraccountauth/challenge_registry.go:55-59 | in place: only the closed flag is set |
| ChallengeRegistry.Registry.ClearTombstones | internal/application/operatoraccountauth/challenge_registry.go:95-99 | in place: only the tombstones are dropped |
| ChallengeRegistry.Registry.Cleanup | internal/application/operatoraccountauth/challenge_registry.go:436-442 | the loop drops exactly the expired tombstones, in any order |
| ChallengeRegistry.Registry.Prepare | internal/application/operatoraccountauth/challenge_registry.go:105-168 | in place: resume, refuse or fill a slot; maps stay consistent and within capacity |
| ChallengeRegistry.Registry.Remove | internal/application/operatoraccountauth/challenge_registry.go:422-434 | in place: a live challenge leaves all three maps |
| ChallengeRegistry.Registry.RemoveWithTombstone | internal/application/operatoraccountauth/challenge_registry.go:399-420 | in place: one tombstone for one live challenge, nothing for one that is gone |
| ChallengeRegistry.ChallengeRecord.ReserveCodeAttempt | internal/application/operatoraccountauth/challenge_operation.go:40-46 | in place: an attempt is counted exactly while fewer than five were |
| ChallengeRegistry.ChallengeRecord.ReservePasswordAttempt | internal/application/operatoraccountauth/challenge_operation.go:48-54 | in place: an attempt is counted exactly while fewer than five were |
| ChallengeRegistry.ChallengeRecord.SetPendingProfile | internal/application/operatoraccountauth/challenge_operation.go:56-61 | in place: a pending profile takes the place of the code hash |
| ChallengeRegistry.ChallengeRecord.ClearShutdownState | internal/application/operatoraccountauth/challenge_registry.go:359-385 | in place: shutdown leaves an empty stage and reset counters |
| Texts.SplitOfJoin | internal/application/operatorcredentials/password/password.go:218-219 | splitting what was joined gives back the parts |
| Texts.JoinOfSplit | internal/application/operatorcredentials/password/password.go:218-219 | joining what was split gives back the text, and no part contains the separator |
| Texts.ValueOfDecimal | internal/application/operatorcredentials/password/password.go:340-354 | a printed number reads back as itself, without leading zero |
| Texts.DecimalOfValue | internal/application/operatorcredentials/password/password.go:340-354 | digits that are accepted are the ones their value prints |
| Texts.DecimalIsPositional | internal/application/operatorcredentials/password/password.go:296-307 | a number is printed in base ten, its last digit the remainder |
| Base64.SymbolsAreTheAlphabet | internal/application/operatorcredentials/password/password.go:303-305 | the alphabet of table 1 of RFC 4648 |
| Base64.GroupsKeepTheirBits | internal/application/operatorcredentials/password/password.go:303-305 | every group of 24 bits is printed as four sextets, most significant first (section 4 of RFC 4648) |
| Base64.LastGroupIsFilled | internal/application/operatorcredentials/password/password.go:303-305 | a final group of 8 or 16 bits is filled up with zero bits |
| Base64.TestVectors | internal/application/operatorcredentials/password/password.go:303-305 | test vectors of section 10 of RFC 4648 |
| Base64.RoundTrip | internal/application/operatorcredentials/password/password.go:356-374 | unpadded base64 (section 4 of RFC 4648): decoding undoes encoding, and the lengths agree with EncodedLen and DecodedLen |
| Base64.LowBitsAreIgnored | internal/application/operatorcredentials/password/password.go:368-372 | decoding alone is not injective (section 3.5 of RFC 4648), which is why the parser encodes again |
| Phc.ParameterRoundTrip | internal/application/operatorcredentials/password/password.go:340-354 | a printed parameter is read back |
| Phc.ParameterIsPrinted | internal/application/operatorcredentials/password/password.go:340-354 | an accepted parameter is the one its value prints, and within its maximum |
| Phc.ParametersRoundTrip | internal/application/operatorcredentials/password/password.go:309-338 | printed cost parameters are read back |
| Phc.ParametersArePrinted | internal/application/operatorcredentials/password/password.go:309-338 | accepted cost parameters are the ones their values print, and valid |
| Phc.ComponentDecodesExactly | internal/application/operatorcredentials/password/password.go:356-374 | a component decodes to some bytes exactly if it is their encoding and their length is allowed |
| Phc.EncodedFits | internal/application/operatorcredentials/password/password.go:296-307 | a valid hash prints within the 512 bytes that the parser takes |
| Phc.ParseOfEncode | internal/application/operatorcredentials/password/password.go:214-307 | parsing what was printed gives back every parameter and byte |
| Phc.EncodeOfParse | internal/application/operatorcredentials/password/password.go:214-307 | every accepted string is the one its own value prints, and its parameters are valid |
| Phc.AcceptsExactlyThePrinted | internal/application/operatorcredentials/password/password.go:214-307 | the parser accepts exactly the image of the printer |
| Phc.OnlyForeignIsUnsupported | internal/application/operatorcredentials/password/password.go:214-231 | a string is unsupported exactly if it names another algorithm, or is a whole Argon2id string of another version |
| Phc.FitsExactly | internal/application/operatorcredentials/password/password.go:284-294 | what may be printed: the bounds in numbers |
| Phc.PrintsTheLayout | internal/application/operatorcredentials/password/password.go:296-307 | algorithm, version 19, costs in the order m, t, p, then salt and key (section 3.1 of RFC 9106) |
| Windows.TwiceTheLimit | internal/entrypoint/http/authentication/authentication.go:187-216 | a stream counted in windows that do not overlap holds at most twice the limit in any interval of a window's length |
| LoginLimiter.Bounded | internal/entrypoint/http/authentication/authentication.go:174-217 | over any attempts in order of time the table is bounded, and each identity and the process as a whole stay within the limit per window and twice the limit per interval |
| LoginLimiter.CleanupIsInvisible | internal/entrypoint/http/authentication/authentication.go:179-186 | unless the table is full, an attempt is answered as by a limiter that never deleted anything, and the two go on agreeing |
| LoginLimiter.AnswersAsIfNothingWereDeleted | internal/entrypoint/http/authentication/authentication.go:174-217 | so all answers agree as long as the table never fills |
| LoginLimiter.RefusalsAreExact | internal/entrypoint/http/authentication/authentication.go:187-216 | over any run an attempt is refused exactly if as many as the process may have passed in its open window, or the identity is new to a full table, or it has used up its own open window; all counted over what was let through |
| LoginLimiter.FirstAttemptIsLetIn | internal/entrypoint/http/authentication/authentication.go:204-216 | the first attempt of anyone is let in |
| LoginLimiter.ForgetsExactly | internal/entrypoint/http/authentication/authentication.go:179-186 | when cleaning up is due, exactly the identities not seen for a whole window are forgotten, and otherwise nobody is |
| LoginLimiter.SeenNow | internal/entrypoint/http/authentication/authentication.go:209-216 | an identity that found room is seen now, let in or not |
| LoginLimiter.LoginRateLimiter.constructor | internal/entrypoint/http/authentication/authentication.go:148-170 | every unusable setting is replaced by its default: one minute, 5 per identity, 300 in all, 4096 entries, cleaned every half minute |
| LoginLimiter.LoginRateLimiter.Cleanup | internal/entrypoint/http/authentication/authentication.go:179-186 | the loop deletes exactly the expired entries, in any order |
| LoginLimiter.LoginRateLimiter.Allow | internal/entrypoint/http/authentication/authentication.go:174-217 | in place: the answer and the new state are those of Answer, whose refusals are exact and whose acceptances are bounded by the lemmas above |
| Workers.SafetyIsExact | internal/entrypoint/background/deliveryworker/worker.go:67-82 | the 64-bit checks compute the exact sum, and refuse exactly the sums that overflow |
| Workers.ValidatesExactly | internal/entrypoint/background/deliveryworker/worker.go:86-116 | a configuration is accepted exactly if, in unbounded integers, its lease exceeds execution, finalization and margin, and the drain and cleanup times do not overflow |
| Workers.StepKeeps | internal/entrypoint/background/deliveryworker/worker.go:243-422 | every step of the coordinator and of the executions conserves slots, tasks and the tracker's count |
| Workers.TasksAreConserved | internal/entrypoint/background/deliveryworker/worker.go:243-422 | after any run a claimed task is in hand, or was released once unexecuted, or was executed once; an executed one is released exactly if it failed, and once |
| Workers.SlotsAreConserved | internal/entrypoint/background/deliveryworker/worker.go:259-422 | the slots taken are those of the coordinator and of the executions that have not given theirs back, at most four |
| Workers.DoneMeansDrained | internal/entrypoint/background/deliveryworker/worker.go:614-659 | the done channel is closed exactly when nothing is tracked; then, with the coordinator gone, no slot is taken and every task is accounted for |
| Workers.NothingStartsAfterStop | internal/entrypoint/background/deliveryworker/worker.go:362-376 | after the tracker was stopped, no run starts an execution |
| Workers.LaunchesExactly | internal/entrypoint/background/deliveryworker/worker.go:362-376 | a task in hand is executed exactly if it comes before the tracker stops, and is released otherwise |
| Workers.ExecutionEndsExactly | internal/entrypoint/background/deliveryworker/worker.go:388-422 | it is the failed execution whose task is released; every execution gives back one slot and one count |
| Workers.CoordinatesExactly | internal/entrypoint/background/deliveryworker/worker.go:259-358 | the coordinator takes slots up to four, and gives up a task it cannot start with one release |
| Workers.ActiveTracker.Add | internal/entrypoint/background/deliveryworker/worker.go:627-638 | in place: counted unless stopped; the done channel is renewed at the first |
| Workers.ActiveTracker.DoneOne | internal/entrypoint/background/deliveryworker/worker.go:640-647 | in place: the last one closes the done channel |
| Accounts.OperationKeeps | internal/domain/operatoraccount/account.go:132-263 | every accepted operation keeps the account valid, advances the version by one, makes the stated transition and stores exactly its arguments; a remote logout is owed exactly from leaving a signed-in state until that disconnect ends |
| Accounts.AcceptsExactly | internal/domain/operatoraccount/account.go:132-221 | who may go where, with which arguments |
| Accounts.ExhaustedExactlyWhen | internal/domain/operatoraccount/account.go:202-221 | an operation is refused for its version exactly if it is otherwise allowed and the version is the last |
| Accounts.VersionTellsChange | internal/domain/operatoraccount/account.go:132-221 | over any operations the account stays valid, and an unchanged version means an unchanged account |
| Accounts.AccountEntity.Move | internal/domain/operatoraccount/account.go:202-221 | in place: status and version move together or not at all |
| Accounts.AccountEntity.BeginAuthentication | internal/domain/operatoraccount/account.go:132-144 | in place, and nothing changes on failure |
| Accounts.AccountEntity.Activate | internal/domain/operatoraccount/account.go:146-159 | in place, and nothing changes on failure |
| Accounts.AccountEntity.RequireReauthentication | internal/domain/operatoraccount/account.go:161-176 | in place, and nothing changes on failure |
| Accounts.AccountEntity.BeginDisconnect | internal/domain/operatoraccount/account.go:178-190 | in place, and nothing changes on failure |
| Accounts.AccountEntity.MarkDisconnected | internal/domain/operatoraccount/account.go:192-200 | in place, and nothing changes on failure |
| Disconnects.IntentStep | internal/application/operatoraccounts/disconnect.go:114-150 | a step of anyone leaves a remote logout intent alone, or completes it after a converged revoke of its exact version |
| Disconnects.IntentStandsUntilRevoked | internal/application/operatoraccounts/disconnect.go:99-150 | over any run of commands, recoveries and authentications an intent stands until a revoke of exactly that version has converged |
| Disconnects.OnlyTheConstraintKeepsIntents | internal/infrastracture/storage/pg/operatoraccounts/auth_store.go:385-421 | of all accounts its WHERE clause matches, CompleteAbort changes exactly those that owe no remote logout, and it is the table's constraint that refuses the others |
| DisconnectEffects.LoadsExactly | internal/application/operatoraccounts/disconnect.go:79-96 | Disconnect begins for a signed-in account and resumes a standing intent; recovery takes up standing intents only |
| DisconnectEffects.WritesExactly | internal/infrastracture/storage/pg/operatoraccounts/store.go:188-249 | a write takes effect exactly if the account is still at the expected version in a state from which the next may come |
| DisconnectEffects.RevokesExactly | internal/application/operatoraccounts/disconnect.go:128-145 | only a converged revoke goes on to complete the disconnect |
| DisconnectEffects.ReloadsExactly | internal/application/operatoraccounts/recovery.go:91-116 | recovery completes exactly the intent it attempted, if it still stands |
| DisconnectEffects.StatementsExactly | internal/infrastracture/storage/pg/operatoraccounts/auth_store.go:299-421 | authentication moves an account exactly from the state and version it expects, and never one that owes a logout |
| DisconnectEffects.DisconnectCompletes | internal/application/operatoraccounts/disconnect.go:99-150 | undisturbed, a disconnect whose revoke converges takes every signed-in account two versions on, to disconnected |
| DisconnectEffects.RecoveryCompletes | internal/application/operatoraccounts/recovery.go:67-122 | undisturbed, recovery disconnects every standing intent whose revoke converges |
| Recovery.CompletionNeedsConvergence | internal/application/operatoraccounts/recovery.go:84-121 | a completion that recovery persists follows a converged revoke of the intent's exact version |
| Recovery.VerdictsAreExact | internal/application/operatoraccounts/recovery.go:67-148 | each verdict holds exactly on the stated replies, for pending kind by kind, and the remote runtime is called exactly for an intent that still stands |
| Recovery.Result.RecoverTarget | internal/application/operatoraccounts/recovery.go:67-122 | in place: exactly the counter of the verdict moves, or a failure is returned; what the verdict is, VerdictsAreExact says |
| Recovery.Recover | internal/application/operatoraccounts/recovery.go:28-61 | completed, pending, skipped and failed accounts, and those of each kind, are exactly the distinct accounts whose replies mean that; they add up to all of them, and each is revoked at most once |

## Left out

- Telegram clients, network calls, error mapping, HTTP handlers, templates, cookies, CLI, configuration, logging and telemetry: foreign or plumbing. A client's Run returns only after its callback loop has returned.
- Argon2, random numbers, clocks and UUIDs: the derived key is any byte string; time is a number that never goes back, and the rate limiter is asked after the zero time only; a fresh claim token, run or request ID is one not used before.
- Liveness and timing: a timeout or a cancelled context is a choice that is always open, and tickers and channel fairness are not modelled.
- Account owner registry: an operator and an account are one key; runDone, the wait for the reaper and lastUsed are over-approximated, so idling and makeCapacity may pick any idle slot at any time, and makeCapacity need not find one; panics of ordinary callbacks, and the unlocks of an unlocked mutex in shutdown.go:36 and 41, are plain returns; one goroutine uses a handle, as Registry.Execute does, and races on one handle are proved in Handles.
- Fences: the uint64 clock and versions do not wrap around.
- WaitReady, dispatch and Execute of the owner: the protocol takes a callback to start only while the owner runs and no other callback does.
- Delivery tables: isolation below one statement or transaction, the ORDER BY of claims and the batches of reaper and reconciler (any eligible row may be next), account routing and Revalidate, message texts, and edits or deletions of mailings, which keep their recipients and repeat mode; no code here moves a mailing to running or paused, but the steps allow for both.
- Challenges: phone normalization, provider error classification and the durable half of abort; an expired or aborted challenge may be removed by any goroutine, which allows more than the code does; Prepare and commit may compare an expiry that another goroutine has just lowered.
- PHC strings are sequences of bytes written as characters; Hash, Verify and NeedsRehash are not part of this model.
- Login rate limiter: canonical user names and addresses, so an identity is any string.
- Delivery worker: a panic of the coordinator itself, waitForChannelsUntil, cleanup deadlines and the collected failures.
- Accounts: profile fields, sessions and the lookup of an account by its owner.
- The dialog synchronization worker and store, web sessions and operator credentials beyond the PHC string: they would add weaker results of the same kinds.

/**
 One account slot (accountowner/account_slot.go): the admission flag, the open
 handles and the active operation of an operator account.

 Every method of AccountSlot is one section under the slot mutex.  The
 functions on Core say what the section does; the account-owner protocol takes
 its steps from the same functions.
 */
module Slots {
  import opened Options
  import opened Targets

  type EntryId = nat

  /** The fields guarded by the slot mutex; `drained` is "activeDone is closed". */
  datatype Core = Core(
    current: Option<EntryId>, closed: bool, stopping: bool, handles: nat, active: nat, drained: bool)

  const EMPTY := Core(None, false, false, 0, 0, true)

  /** closed and stopping move together, and the drain signal tells the truth. */
  predicate Valid(core: Core) {
    core.closed == core.stopping && (core.drained <==> core.active == 0)
  }

  predicate CanReserve(core: Core, entry: EntryId) {
    !core.closed && !core.stopping && core.current == Some(entry)
  }

  function ReserveHandle(core: Core): Core {
    core.(handles := core.handles + 1)
  }

  function ReleaseHandle(core: Core): Core
    requires core.handles > 0
  {
    core.(handles := core.handles - 1)
  }

  function CloseAdmission(core: Core): Core {
    core.(closed := true, stopping := true)
  }

  /** admissionError: an operation target against the slot and its entry. */
  function AdmissionError(core: Core, entry: EntryId, installed: Target, target: Target): Failure {
    if core.closed || core.stopping then AccountStopped
    else if core.current != Some(entry) then StaleAdmission
    else if installed.version != target.version || installed.key != target.key then StaleAdmission
    else if installed.status != target.status then InvalidAdmission
    else Success
  }

  function BeginOperation(core: Core): Core {
    core.(active := core.active + 1, drained := false)
  }

  function FinishOperation(core: Core): Core
    requires core.active > 0
  {
    core.(active := core.active - 1, drained := core.active == 1)
  }

  /** The slot part of runEntry: a finished run leaves unless a teardown owns it. */
  function ClearAfterRun(core: Core, entry: EntryId): Core {
    if core.current == Some(entry) && !core.stopping then core.(current := None) else core
  }

  /** The slot part of finishTeardown: uninstall the entry and reopen admission. */
  function FinishTeardown(core: Core, entry: EntryId): Core {
    if core.current == Some(entry) then core.(current := None, stopping := false, closed := false) else core
  }

  /** The slot part of releaseRevoke. */
  function ReopenIfEmpty(core: Core): Core {
    if core.current.None? && core.active == 0 then core.(closed := false, stopping := false) else core
  }

  predicate Removable(core: Core) {
    core.current.None? && core.handles == 0 && core.active == 0 && !core.stopping
  }

  /** idling, apart from the clock. */
  predicate Idling(core: Core) {
    core.current.Some? && !core.closed && !core.stopping && core.handles == 0 && core.active == 0
  }

  // --------------------------------------------------------------- one slot, in place

  class AccountSlot {
    var current: Option<EntryId>
    var closed: bool
    var stopping: bool
    var handles: nat
    var active: nat
    var activeDone: bool
    var activeCancel: Option<nat>

    ghost function State(): Core
      reads this
    {
      Core(current, closed, stopping, handles, active, activeDone)
    }

    constructor ()
      ensures State() == EMPTY && activeCancel.None?
    {
      current, closed, stopping, handles, active := None, false, false, 0, 0;
      activeDone, activeCancel := true, None;
    }

    method Reserve(entry: EntryId) returns (reserved: bool)
      modifies this
      ensures reserved <==> CanReserve(old(State()), entry)
      ensures reserved <==> !old(closed) && !old(stopping) && old(current) == Some(entry)
      ensures handles == old(handles) + if reserved then 1 else 0
      ensures State() == if reserved then ReserveHandle(old(State())) else old(State())
      ensures activeCancel == old(activeCancel)
    {
      if closed || stopping {
        return false;
      }
      if current != Some(entry) {
        return false;
      }
      handles := handles + 1;
      reserved := true;
    }

    /** Returns the cancel function of the operation it cuts off, at most once. */
    method Close() returns (cancel: Option<nat>)
      modifies this
      ensures State() == CloseAdmission(old(State())) && closed && stopping && current == old(current)
      ensures cancel == old(activeCancel) && activeCancel.None?
    {
      closed := true;
      stopping := true;
      cancel := activeCancel;
      activeCancel := None;
    }

    method Begin(entry: EntryId, installed: Target, target: Target, cancel: nat) returns (failure: Failure)
      requires Valid(State())
      modifies this
      ensures failure == AdmissionError(old(State()), entry, installed, target)
      ensures State() == if failure == Success then BeginOperation(old(State())) else old(State())
      ensures activeCancel == if failure == Success then Some(cancel) else old(activeCancel)
      ensures failure == Success <==> !old(closed) && !old(stopping) && old(current) == Some(entry) && installed == target
      ensures failure == AccountStopped <==> old(closed) || old(stopping)
      ensures active == old(active) + if failure == Success then 1 else 0
      ensures Valid(State())
    {
      if closed || stopping {
        return AccountStopped;
      }
      if current != Some(entry) {
        return StaleAdmission;
      }
      if installed.version != target.version || installed.key != target.key {
        return StaleAdmission;
      }
      if installed.status != target.status {
        return InvalidAdmission;
      }
      if active == 0 {
        activeDone := false;
      }
      active := active + 1;
      activeCancel := Some(cancel);
      failure := Success;
    }

    /** The source panics when no operation is active. */
    method Finish()
      requires Valid(State()) && active > 0
      modifies this
      ensures State() == FinishOperation(old(State())) && activeCancel.None?
      ensures active == old(active) - 1 && (activeDone <==> active == 0) && current == old(current) && handles == old(handles)
      ensures Valid(State())
    {
      active := active - 1;
      activeCancel := None;
      if active == 0 {
        activeDone := true;
      }
    }

    /** The source panics when no handle is open. */
    method Release() returns (removable: bool)
      requires handles > 0
      modifies this
      ensures State() == ReleaseHandle(old(State())) && activeCancel == old(activeCancel)
      ensures removable <==> Removable(State())
      ensures handles == old(handles) - 1 && (removable <==> current.None? && handles == 0 && active == 0 && !stopping)
    {
      handles := handles - 1;
      removable := current.None? && handles == 0 && active == 0 && !stopping;
    }

    method RunEnded(entry: EntryId)
      modifies this
      ensures State() == ClearAfterRun(old(State()), entry) && activeCancel == old(activeCancel)
      ensures current == if old(current) == Some(entry) && !old(stopping) then None else old(current)
    {
      if current == Some(entry) {
        if !stopping {
          current := None;
        }
      }
    }

    method Uninstall(entry: EntryId)
      modifies this
      ensures State() == FinishTeardown(old(State()), entry) && activeCancel == old(activeCancel)
      ensures if old(current) == Some(entry) then current.None? && !closed && !stopping
              else current == old(current) && closed == old(closed) && stopping == old(stopping)
    {
      if current == Some(entry) {
        current, stopping, closed := None, false, false;
      }
    }

    method Reopen()
      modifies this
      ensures State() == ReopenIfEmpty(old(State())) && activeCancel == old(activeCancel)
      ensures if old(current).None? && old(active) == 0 then !closed && !stopping
              else closed == old(closed) && stopping == old(stopping)
    {
      if current.None? && active == 0 {
        closed := false;
        stopping := false;
      }
    }
  }
}

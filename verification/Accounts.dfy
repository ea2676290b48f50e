/** The operator account automaton (domain/operatoraccount/account.go). */
module Accounts {
  import opened Targets

  const MAX_VERSION := 0xFFFF_FFFF_FFFF_FFFF

  datatype FailureCode = NoFailure | AuthExpired | SessionInvalid | AuthorizationRevoked | Unsupported

  /** Identity 0 is the zero identity; an expiry of 0 is the zero time. */
  datatype Account = Account(
    id: nat, status: Status, version: nat, failureCode: FailureCode, telegramUserId: int, authExpiresAt: nat,
    remoteLogoutRequired: bool)

  datatype Problem = InvalidTransition | InvalidFailureCode | InvalidIdentity | InvalidExpiry | VersionExhausted

  datatype Outcome = Ok(account: Account) | Err(problem: Problem)

  predicate ValidFailureCode(code: FailureCode) { code in {AuthExpired, SessionInvalid, AuthorizationRevoked} }

  /** validate */
  predicate Valid(a: Account) {
    && a.id != 0 && 0 < a.version <= MAX_VERSION && a.telegramUserId >= 0
    && (a.remoteLogoutRequired ==> a.status == Disconnecting)
    && (a.status in {Active, ReauthRequired} ==> a.telegramUserId > 0)
    && (a.status == Authenticating <==> a.authExpiresAt != 0)
    && (if a.status == ReauthRequired then ValidFailureCode(a.failureCode) else a.failureCode == NoFailure)
  }

  /** The lifecycle operations and their arguments. */
  datatype Operation =
    | BeginAuthentication(expiresAt: nat) | Activate(telegramUserId: int) | RequireReauthentication(code: FailureCode)
    | BeginDisconnect | MarkDisconnected

  function Next(op: Operation): Status {
    match op
    case BeginAuthentication(_) => Authenticating
    case Activate(_) => Active
    case RequireReauthentication(_) => ReauthRequired
    case BeginDisconnect => Disconnecting
    case MarkDisconnected => Disconnected
  }

  function Allowed(op: Operation): set<Status> {
    match op
    case BeginAuthentication(_) => {Disconnected, ReauthRequired}
    case Activate(_) => {Authenticating}
    case RequireReauthentication(_) => {Active}
    case BeginDisconnect => {Authenticating, Active, ReauthRequired}
    case MarkDisconnected => {Disconnecting}
  }

  /** move: the version advances before anything else changes. */
  function Moved(a: Account, op: Operation): Outcome {
    if a.status !in Allowed(op) then Err(InvalidTransition)
    else if a.version == MAX_VERSION then Err(VersionExhausted)
    else Ok(a.(version := a.version + 1, status := Next(op)))
  }

  function Refusals(a: Account, op: Operation): set<Problem> {
    match op
    case BeginAuthentication(expiresAt) => if expiresAt == 0 then {InvalidExpiry} else {}
    case Activate(id) => if id <= 0 then {InvalidIdentity} else {}
    case RequireReauthentication(code) =>
      if !ValidFailureCode(code) then {InvalidFailureCode} else if a.telegramUserId <= 0 then {InvalidIdentity} else {}
    case _ => {}
  }

  function Performed(a: Account, op: Operation): Outcome {
    if InvalidExpiry in Refusals(a, op) then Err(InvalidExpiry)
    else if InvalidFailureCode in Refusals(a, op) then Err(InvalidFailureCode)
    else if InvalidIdentity in Refusals(a, op) then Err(InvalidIdentity)
    else
      match Moved(a, op)
      case Err(problem) => Err(problem)
      case Ok(m) =>
        match op
        case BeginAuthentication(expiresAt) => Ok(m.(authExpiresAt := expiresAt, failureCode := NoFailure))
        case Activate(id) => Ok(m.(telegramUserId := id, authExpiresAt := 0, failureCode := NoFailure))
        case RequireReauthentication(code) => Ok(m.(authExpiresAt := 0, failureCode := code))
        case BeginDisconnect =>
          Ok(m.(authExpiresAt := 0, failureCode := NoFailure,
                remoteLogoutRequired := a.status == Active || a.status == ReauthRequired))
        case MarkDisconnected => Ok(m.(authExpiresAt := 0, failureCode := NoFailure, remoteLogoutRequired := false))
  }

  /**
   Every operation keeps the account valid, keeps its identity and advances its
   version by exactly one; a remote logout is owed from leaving a signed-in
   state until that disconnect ends.
   */
  lemma OperationKeeps(a: Account, op: Operation)
    requires Valid(a) && Performed(a, op).Ok?
    ensures var b := Performed(a, op).account;
            && Valid(b) && b.id == a.id && b.version == a.version + 1 && b.status == Next(op) && a.status in Allowed(op)
            && (b.remoteLogoutRequired <==> op == BeginDisconnect && a.status != Authenticating)
            && b.authExpiresAt == (if op.BeginAuthentication? then op.expiresAt else 0)
            && b.telegramUserId == (if op.Activate? then op.telegramUserId else a.telegramUserId)
            && b.failureCode == (if op.RequireReauthentication? then op.code else NoFailure)
  {
  }

  /** The automaton: who may go where, and which arguments are refused before anyone moves. */
  lemma AcceptsExactly(a: Account, op: Operation)
    ensures Performed(a, op).Ok? <==>
      && a.version != 0xFFFF_FFFF_FFFF_FFFF
      && match op
         case BeginAuthentication(expiresAt) => expiresAt != 0 && (a.status == Disconnected || a.status == ReauthRequired)
         case Activate(id) => id > 0 && a.status == Authenticating
         case RequireReauthentication(code) =>
           && (code == AuthExpired || code == SessionInvalid || code == AuthorizationRevoked)
           && a.telegramUserId > 0 && a.status == Active
         case BeginDisconnect => a.status == Authenticating || a.status == Active || a.status == ReauthRequired
         case MarkDisconnected => a.status == Disconnecting
  {
  }

  /** The last version is refused, and only it, to an operation that is otherwise allowed. */
  lemma ExhaustedExactlyWhen(a: Account, op: Operation)
    ensures Performed(a, op) == Err(VersionExhausted)
            <==> Refusals(a, op) == {} && a.status in Allowed(op) && a.version == MAX_VERSION
  {
  }

  function After(a: Account, ops: seq<Operation>): Account
    decreases ops
  {
    if ops == [] then a else After(if Performed(a, ops[0]).Ok? then Performed(a, ops[0]).account else a, ops[1..])
  }

  /** Over any operations, accepted or not, the version says whether anything changed. */
  lemma {:induction false} VersionTellsChange(a: Account, ops: seq<Operation>)
    requires Valid(a)
    decreases ops
    ensures Valid(After(a, ops)) && After(a, ops).id == a.id && a.version <= After(a, ops).version <= a.version + |ops|
    ensures After(a, ops).version == a.version ==> After(a, ops) == a
  {
    if ops != [] {
      if Performed(a, ops[0]).Ok? { OperationKeeps(a, ops[0]); }
      VersionTellsChange(if Performed(a, ops[0]).Ok? then Performed(a, ops[0]).account else a, ops[1..]);
    }
  }

  // ------------------------------------------------------------------------ in place

  datatype Error = NoProblem | Because(problem: Problem)

  class AccountEntity {
    const id: nat
    var status: Status
    var version: nat
    var failureCode: FailureCode
    var telegramUserId: int
    var authExpiresAt: nat
    var remoteLogoutRequired: bool

    ghost function Value(): Account
      reads this
    {
      Account(id, status, version, failureCode, telegramUserId, authExpiresAt, remoteLogoutRequired)
    }

    /** What an operation leaves and reports: on failure, nothing has changed. */
    ghost predicate Does(before: Account, op: Operation, error: Error)
      reads this
    {
      match Performed(before, op)
      case Ok(after) => error == NoProblem && Value() == after
      case Err(problem) => error == Because(problem) && Value() == before
    }

    constructor (id: nat)
      requires id != 0
      ensures Valid(Value()) && status == Disconnected && version == INITIAL_VERSION && this.id == id
    {
      this.id := id;
      status, version := Disconnected, INITIAL_VERSION;
      failureCode, telegramUserId, authExpiresAt, remoteLogoutRequired := NoFailure, 0, 0, false;
    }

    method Move(next: Status, allowed: set<Status>) returns (error: Error)
      modifies this`version, this`status
      ensures error == if old(status) !in allowed then Because(InvalidTransition)
                       else if old(version) == MAX_VERSION then Because(VersionExhausted) else NoProblem
      ensures Value() == if error == NoProblem then old(Value()).(status := next, version := old(version) + 1) else old(Value())
    {
      if status !in allowed {
        return Because(InvalidTransition);
      }
      if version == MAX_VERSION {
        return Because(VersionExhausted);
      }
      version := version + 1;
      status := next;
      error := NoProblem;
    }

    method BeginAuthentication(expiresAt: nat) returns (error: Error)
      modifies this
      ensures Does(old(Value()), Operation.BeginAuthentication(expiresAt), error)
    {
      if expiresAt == 0 {
        return Because(InvalidExpiry);
      }
      error := Move(Authenticating, {Disconnected, ReauthRequired});
      if error != NoProblem {
        return;
      }
      authExpiresAt := expiresAt;
      failureCode := NoFailure;
    }

    method Activate(telegramUserId: int) returns (error: Error)
      modifies this
      ensures Does(old(Value()), Operation.Activate(telegramUserId), error)
    {
      if telegramUserId <= 0 {
        return Because(InvalidIdentity);
      }
      error := Move(Active, {Authenticating});
      if error != NoProblem {
        return;
      }
      this.telegramUserId := telegramUserId;
      authExpiresAt := 0;
      failureCode := NoFailure;
    }

    method RequireReauthentication(code: FailureCode) returns (error: Error)
      modifies this
      ensures Does(old(Value()), Operation.RequireReauthentication(code), error)
    {
      if !ValidFailureCode(code) {
        return Because(InvalidFailureCode);
      }
      if telegramUserId <= 0 {
        return Because(InvalidIdentity);
      }
      error := Move(ReauthRequired, {Active});
      if error != NoProblem {
        return;
      }
      authExpiresAt := 0;
      failureCode := code;
    }

    method BeginDisconnect() returns (error: Error)
      modifies this
      ensures Does(old(Value()), Operation.BeginDisconnect, error)
    {
      var remoteIntent := status == Active || status == ReauthRequired;
      error := Move(Disconnecting, {Authenticating, Active, ReauthRequired});
      if error != NoProblem {
        return;
      }
      authExpiresAt := 0;
      failureCode := NoFailure;
      remoteLogoutRequired := remoteIntent;
    }

    method MarkDisconnected() returns (error: Error)
      modifies this
      ensures Does(old(Value()), Operation.MarkDisconnected, error)
    {
      error := Move(Disconnected, {Disconnecting});
      if error != NoProblem {
        return;
      }
      authExpiresAt := 0;
      failureCode := NoFailure;
      remoteLogoutRequired := false;
    }
  }
}

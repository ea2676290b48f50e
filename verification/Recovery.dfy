/** Startup recovery of remote logout intents (operatoraccounts/recovery.go). */
module Recovery {
  import opened Options
  import opened Targets
  import opened Accounts

  type Kind = nat

  /** The three answers of the remote runtime. */
  datatype Revoked = Converged | Failed(kind: Kind) | Invalid

  /** What the environment answers while one target is recovered. */
  datatype Replies = Replies(before: Option<Account>, revoked: Revoked, after: Option<Account>, persisted: bool)

  datatype Verdict = Completed | Pending(kind: Kind) | Skipped | Failure

  /** `revoked` says whether the remote runtime was called. */
  datatype Recovered = Recovered(verdict: Verdict, revoked: bool)

  predicate ValidRuntimeTarget(target: Target) {
    target.key != 0 && target.version != 0 && target.status == Disconnecting
  }

  /** validateRecoverySnapshot */
  predicate TrustedSnapshot(a: Account, target: Target) { a.id == target.key && a.version != 0 }

  predicate MatchesIntent(a: Account, target: Target) {
    a.id == target.key && a.status == Disconnecting && a.remoteLogoutRequired && a.version == target.version
  }

  /** recoverTarget: what each reply leads to. */
  function Recovering(target: Target, r: Replies): Recovered {
    if !ValidRuntimeTarget(target) || r.before.None? || !TrustedSnapshot(r.before.value, target) then Recovered(Failure, false)
    else if !MatchesIntent(r.before.value, target) then Recovered(Skipped, false)
    else if r.revoked.Invalid? || r.after.None? || !TrustedSnapshot(r.after.value, target) then Recovered(Failure, true)
    else if !MatchesIntent(r.after.value, target) then
      Recovered(if r.after.value.status == Disconnected then Completed else Skipped, true)
    else if r.revoked.Failed? then Recovered(Pending(r.revoked.kind), true)
    else if !Performed(r.after.value, MarkDisconnected).Ok? || !r.persisted then Recovered(Failure, true)
    else Recovered(Completed, true)
  }

  // --------------------------------------------------------- what each answer means

  /** A durable snapshot of the account, and one that still owes the remote logout at the listed version. */
  predicate Trusted(a: Option<Account>, target: Target) { a.Some? && a.value.id == target.key && a.value.version > 0 }

  predicate Owes(a: Option<Account>, target: Target) {
    Trusted(a, target) && a.value.status == Disconnecting && a.value.remoteLogoutRequired && a.value.version == target.version
  }

  predicate Listed(target: Target) { target.key > 0 && target.version > 0 && target.status == Disconnecting }

  /** The revoke was attempted, and the account could be read back. */
  predicate Attempted(target: Target, r: Replies) { Listed(target) && Owes(r.before, target) }

  predicate ReadBack(target: Target, r: Replies) { Attempted(target, r) && !r.revoked.Invalid? && Trusted(r.after, target) }

  /** When an account counts as what. */
  predicate Means(target: Target, r: Replies, verdict: Verdict) {
    match verdict
    case Pending(kind) => ReadBack(target, r) && Owes(r.after, target) && r.revoked == Failed(kind)
    case Completed =>
      && ReadBack(target, r)
      && if Owes(r.after, target) then r.revoked == Converged && r.persisted && r.after.value.version != MAX_VERSION
         else r.after.value.status == Disconnected
    case Skipped =>
      || (Listed(target) && Trusted(r.before, target) && !Owes(r.before, target))
      || (ReadBack(target, r) && !Owes(r.after, target) && r.after.value.status != Disconnected)
    case Failure =>
      || !Listed(target) || !Trusted(r.before, target) || (Attempted(target, r) && !ReadBack(target, r))
      || (ReadBack(target, r) && Owes(r.after, target) && r.revoked == Converged
          && !(r.persisted && r.after.value.version != MAX_VERSION))
  }

  /** Every verdict is reached exactly on these replies, and the remote runtime is called exactly for an intent that still stands. */
  lemma VerdictsAreExact(target: Target, r: Replies, verdict: Verdict)
    ensures Recovering(target, r).verdict == verdict <==> Means(target, r, verdict)
    ensures Recovering(target, r).revoked <==> Attempted(target, r)
  {
  }

  /** A completion that recovery itself persists follows a converged revoke of the intent's exact version. */
  lemma CompletionNeedsConvergence(target: Target, r: Replies)
    requires Recovering(target, r).verdict == Completed && r.after.Some? && r.after.value.status != Disconnected
    ensures r.revoked == Converged && r.persisted
    ensures r.before.Some? && MatchesIntent(r.before.value, target) && MatchesIntent(r.after.value, target)
    ensures Performed(r.after.value, MarkDisconnected).Ok?
    ensures Performed(r.after.value, MarkDisconnected).account.version == target.version + 1
  {
  }

  /** RecoveryResult */
  class Result {
    var attempted: nat
    var completed: nat
    var pending: nat
    var skipped: nat
    var pendingByKind: map<Kind, nat>
    ghost var kinds: seq<Kind>

    constructor ()
      ensures Counts() && attempted == completed == pending == skipped == 0
    {
      attempted, completed, pending, skipped, pendingByKind, kinds := 0, 0, 0, 0, map[], [];
    }

    function PendingOf(kind: Kind): nat
      reads this
    {
      if kind in pendingByKind then pendingByKind[kind] else 0
    }

    /** The per-kind counts are those of the pending accounts, so they add up to them. */
    ghost predicate Counts()
      reads this
    {
      pending == |kinds| && forall kind :: PendingOf(kind) == multiset(kinds)[kind]
    }

    method RecoverTarget(target: Target, r: Replies) returns (failed: bool, revoked: bool)
      requires Counts()
      modifies this
      ensures Counts()
      ensures var v := Recovering(target, r);
              && revoked == v.revoked && (failed <==> v.verdict == Failure)
              && attempted == old(attempted) + (if v.revoked then 1 else 0)
              && completed == old(completed) + (if v.verdict == Completed then 1 else 0)
              && pending == old(pending) + (if v.verdict.Pending? then 1 else 0)
              && skipped == old(skipped) + (if v.verdict == Skipped then 1 else 0)
              && forall kind :: PendingOf(kind) == old(PendingOf(kind)) + (if v.verdict == Pending(kind) then 1 else 0)
    {
      failed, revoked := false, false;
      if !ValidRuntimeTarget(target) || r.before.None? || !TrustedSnapshot(r.before.value, target) {
        return true, false;
      }
      if !MatchesIntent(r.before.value, target) {
        skipped := skipped + 1;
        return;
      }
      attempted := attempted + 1;
      revoked := true;
      if r.revoked.Invalid? || r.after.None? || !TrustedSnapshot(r.after.value, target) {
        return true, true;
      }
      var account := r.after.value;
      if !MatchesIntent(account, target) {
        if account.status == Disconnected {
          completed := completed + 1;
        } else {
          skipped := skipped + 1;
        }
        return;
      }
      if r.revoked.Failed? {
        var kind := r.revoked.kind;
        pending := pending + 1;
        pendingByKind := pendingByKind[kind := PendingOf(kind) + 1];
        kinds := kinds + [kind];
        return;
      }
      if !Performed(account, MarkDisconnected).Ok? || !r.persisted {
        return true, true;
      }
      completed := completed + 1;
    }
  }

  function DistinctAccounts(targets: seq<Target>): set<nat> { set t | t in targets :: t.key }

  lemma AccountsGrow(targets: seq<Target>, n: nat)
    requires n < |targets|
    ensures DistinctAccounts(targets[..n + 1]) == DistinctAccounts(targets[..n]) + {targets[n].key}
  {
    assert targets[..n + 1] == targets[..n] + [targets[n]];
  }

  /** The first listing of each account stands for it. */
  predicate IsFirst(targets: seq<Target>, i: nat)
    requires i < |targets|
  {
    targets[i].key !in DistinctAccounts(targets[..i])
  }

  predicate FirstMeans(targets: seq<Target>, replies: seq<Replies>, i: nat, verdict: Verdict) {
    i < |targets| && i < |replies| && IsFirst(targets, i) && Means(targets[i], replies[i], verdict)
  }

  predicate Pends(target: Target, r: Replies) { ReadBack(target, r) && Owes(r.after, target) && r.revoked.Failed? }

  predicate FirstPends(targets: seq<Target>, replies: seq<Replies>, i: nat) {
    i < |targets| && i < |replies| && IsFirst(targets, i) && Pends(targets[i], replies[i])
  }

  /** The distinct accounts among the first `n` listings whose replies mean `verdict`. */
  ghost function AccountsThatMean(targets: seq<Target>, replies: seq<Replies>, n: nat, verdict: Verdict): set<nat> {
    set i: nat | i < n && FirstMeans(targets, replies, i, verdict)
  }

  ghost function AccountsThatPend(targets: seq<Target>, replies: seq<Replies>, n: nat): set<nat> {
    set i: nat | i < n && FirstPends(targets, replies, i)
  }

  lemma Grown(before: set<nat>, after: set<nat>, n: nat, here: bool)
    requires n !in before && forall i :: i in after <==> i in before || (here && i == n)
    ensures |after| == |before| + if here then 1 else 0
  {
    assert after == if here then before + {n} else before;
  }

  lemma OneMore(targets: seq<Target>, replies: seq<Replies>, n: nat, verdict: Verdict)
    ensures |AccountsThatMean(targets, replies, n + 1, verdict)|
            == |AccountsThatMean(targets, replies, n, verdict)| + if FirstMeans(targets, replies, n, verdict) then 1 else 0
  {
    Grown(AccountsThatMean(targets, replies, n, verdict), AccountsThatMean(targets, replies, n + 1, verdict), n,
          FirstMeans(targets, replies, n, verdict));
  }

  lemma OneMorePends(targets: seq<Target>, replies: seq<Replies>, n: nat)
    ensures |AccountsThatPend(targets, replies, n + 1)|
            == |AccountsThatPend(targets, replies, n)| + if FirstPends(targets, replies, n) then 1 else 0
  {
    Grown(AccountsThatPend(targets, replies, n), AccountsThatPend(targets, replies, n + 1), n, FirstPends(targets, replies, n));
  }

  /** Every count, and the count of every kind, is the number of distinct accounts whose replies mean it. */
  ghost predicate CountsMean(result: Result, failures: nat, targets: seq<Target>, replies: seq<Replies>, n: nat)
    reads result
  {
    && result.completed == |AccountsThatMean(targets, replies, n, Completed)|
    && result.skipped == |AccountsThatMean(targets, replies, n, Skipped)|
    && failures == |AccountsThatMean(targets, replies, n, Failure)|
    && result.pending == |AccountsThatPend(targets, replies, n)|
    && forall kind :: result.PendingOf(kind) == |AccountsThatMean(targets, replies, n, Pending(kind))|
  }

  /** What the verdict on one more listing adds to each count. */
  lemma MoreMean(targets: seq<Target>, replies: seq<Replies>, n: nat)
    requires n < |targets| == |replies|
    ensures var verdict := Recovering(targets[n], replies[n]).verdict;
            && (forall v :: |AccountsThatMean(targets, replies, n + 1, v)| == |AccountsThatMean(targets, replies, n, v)|
                              + if IsFirst(targets, n) && verdict == v then 1 else 0)
            && |AccountsThatPend(targets, replies, n + 1)| == |AccountsThatPend(targets, replies, n)|
                 + if IsFirst(targets, n) && verdict.Pending? then 1 else 0
  {
    forall v
      ensures |AccountsThatMean(targets, replies, n + 1, v)| == |AccountsThatMean(targets, replies, n, v)|
                + if IsFirst(targets, n) && Recovering(targets[n], replies[n]).verdict == v then 1 else 0
    {
      OneMore(targets, replies, n, v);
      VerdictsAreExact(targets[n], replies[n], v);
    }
    OneMorePends(targets, replies, n);
  }

  /** Another listing of an account that was recovered changes no count. */
  lemma ListedAgain(result: Result, failures: nat, targets: seq<Target>, replies: seq<Replies>, n: nat)
    requires n < |targets| == |replies| && !IsFirst(targets, n) && CountsMean(result, failures, targets, replies, n)
    ensures CountsMean(result, failures, targets, replies, n + 1)
  {
    MoreMean(targets, replies, n);
  }

  /** The first listing of an account is recovered. */
  method RecoverFirst(result: Result, ghost failures: nat, targets: seq<Target>, replies: seq<Replies>, n: nat)
    returns (failed: bool, called: bool)
    requires n < |targets| == |replies| && IsFirst(targets, n)
    requires result.Counts() && CountsMean(result, failures, targets, replies, n)
    modifies result
    ensures result.Counts() && CountsMean(result, failures + if failed then 1 else 0, targets, replies, n + 1)
    ensures result.attempted == old(result.attempted) + (if called then 1 else 0)
    ensures result.completed + result.pending + result.skipped + (if failed then 1 else 0)
            == old(result.completed) + old(result.pending) + old(result.skipped) + 1
  {
    MoreMean(targets, replies, n);
    failed, called := result.RecoverTarget(targets[n], replies[n]);
  }

  /**
   Each distinct account is recovered once: it is counted exactly once, as what
   its replies mean, and revoked at most once.
   */
  method Recover(targets: seq<Target>, replies: seq<Replies>) returns (result: Result, failures: nat, revoked: seq<nat>)
    requires |replies| == |targets|
    ensures fresh(result) && result.Counts()
    ensures result.completed + result.pending + result.skipped + failures == |DistinctAccounts(targets)|
    ensures CountsMean(result, failures, targets, replies, |targets|)
    ensures result.attempted == |revoked|
    ensures forall i, j | 0 <= i < j < |revoked| :: revoked[i] != revoked[j]
    ensures forall account <- revoked :: account in DistinctAccounts(targets)
  {
    result := new Result();
    failures, revoked := 0, [];
    var seen: set<nat> := {};
    for i := 0 to |targets|
      invariant fresh(result) && result.Counts()
      invariant seen == DistinctAccounts(targets[..i])
      invariant result.completed + result.pending + result.skipped + failures == |seen|
      invariant CountsMean(result, failures, targets, replies, i)
      invariant result.attempted == |revoked|
      invariant forall a, b | 0 <= a < b < |revoked| :: revoked[a] != revoked[b]
      invariant forall account <- revoked :: account in seen
    {
      AccountsGrow(targets, i);
      if targets[i].key in seen {
        ListedAgain(result, failures, targets, replies, i);
        continue;
      }
      seen := seen + {targets[i].key};
      var failed, called := RecoverFirst(result, failures, targets, replies, i);
      if called {
        revoked := revoked + [targets[i].key];
      }
      if failed {
        failures := failures + 1;
      }
    }
    assert targets[..|targets|] == targets;
  }
}

/**
 Runtime targets and the failures the account runtime reports
 (accountowner/errors.go, admission.go:128-187, utils.go).
 */
module Targets {
  datatype Status = Authenticating | Active | ReauthRequired | Disconnected | Disconnecting

  /** An operator/account pair at one lifecycle version; version 0 and the zero identity are invalid. */
  datatype Target = Target(key: nat, version: nat, status: Status)

  const INITIAL_VERSION := 1

  /**
   The failures that decide a branch.  DeadlineExceeded stands for the bare
   sentinel when it is the failure of a revoke callback, and for any error that
   wraps it when it is the result of a run.
   */
  datatype Failure =
    | Success
    | RegistryStopped | AccountStopped | StaleAdmission | InvalidAdmission
    | RuntimeCapacity | FenceCapacity
    | OwnerStopped | Canceled | DeadlineExceeded | Other

  predicate IsContextFailure(failure: Failure) {
    failure == Canceled || failure == DeadlineExceeded
  }

  predicate ValidTarget(target: Target) {
    target.key != 0 && target.version != 0
  }

  /** validateAdmission: the lifecycle states that may own a runtime. */
  predicate MayExecute(target: Target) {
    ValidTarget(target) && target.status in {Authenticating, Active, ReauthRequired}
  }

  /** validateStopTarget. */
  predicate MayStop(target: Target) {
    ValidTarget(target) && target.status in {Authenticating, Active, ReauthRequired, Disconnecting}
  }

  /** validateRevokeTarget: a disconnecting version that has a predecessor. */
  predicate MayRevoke(target: Target) {
    ValidTarget(target) && target.status == Disconnecting && target.version > INITIAL_VERSION
  }
}

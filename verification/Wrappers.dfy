/** Optional values, the service's API errors and the results that carry them. */
module Wrappers {

  datatype Option<+T> = None | Some(value: T)
  {
    function GetOr(default: T): T {
      if Some? then value else default
    }
  }

  /** The error kinds that change control flow; messages and HTTP codes are not modelled. */
  datatype ApiError =
    | AccountBusy
    | AccountNotFound
    | AccountNotQuiescent
    | FeeTooHigh
    | IdempotencyKeyReused
    | IntentExpired
    | IntentNotFound
    | InvalidIntentState
    | InvalidSignature
    | InvalidSignedTransaction
    | ServiceNotReady
    | SignatureAlreadyAttached
    | SignedTransactionMismatch
    | SignerNotAuthorized
    | SimulationRejected
    | TransactionBuildInvalid
    | XrplUnavailable
    | DatabaseError  // a violated database constraint that no caller translates
    | UncaughtError  // an exception thrown by a library call outside any try block

  datatype Result<+T> = Success(value: T) | Failure(error: ApiError)
  {
    predicate IsFailure() {
      Failure?
    }

    function PropagateFailure<U>(): Result<U>
      requires Failure?
    {
      Failure(error)
    }

    function Extract(): T
      requires Success?
    {
      value
    }

    function GetOr(default: T): T {
      if Success? then value else default
    }
  }

  /** An arbitrary value: stands for whatever the network, the clock or the scheduler does. */
  method Pick<T(0)>() returns (x: T) {
    x := *;
  }

  lemma {:induction false} SubsetIsSmaller(a: set<nat>, b: set<nat>)
    requires a <= b
    ensures |a| <= |b|
    decreases |a|
  {
    if a != {} {
      var x :| x in a;
      SubsetIsSmaller(a - {x}, b - {x});
    }
  }
}

/** Result types shared by the modules. */
module Base {

  datatype Option<+T> = None | Some(value: T)

  /**
    What a call does: it returns a value, returns one of the pallets' errors without
    touching storage, hits a failed `expect` or an underflow, or never returns.
  */
  datatype Outcome<+T> = Ok(value: T) | Err(error: Error) | Panic | Diverge {
    predicate IsFailure() { !Ok? }
    function PropagateFailure<U>(): Outcome<U>
      requires IsFailure()
    {
      match this
      case Err(e) => Err(e)
      case Panic => Panic
      case Diverge => Diverge
    }
    function Extract(): T
      requires !IsFailure()
    {
      value
    }
  }

  datatype Error =
    // stake pool errors
    | WorkerNotRegistered | BenchmarkMissing | WorkerExists | WorkerDoesNotExist
    | WorkerInAnotherPool | UnauthorizedOperator | UnauthorizedPoolOwner | InadequateCapacity
    | StakeExceedsCapacity | PoolDoesNotExist | InsufficientContribution | InsufficientBalance
    | PoolStakeNotFound | InsufficientFreeStake | InvalidWithdrawalAmount
    | FailedToBindMinerAndWorker | InternalSubsidyPoolCannotWithdraw | PoolBankrupt
    | NoRewardToClaim | FeatureNotEnabled | WorkersExceedLimit
    // mining errors
    | BadSender | DuplicateBoundMiner | DuplicateBoundWorker | MinerNotFound | MinerNotBound
    | MinerNotReady | MinerNotMining | WorkerNotBound | CoolDownNotReady | InsufficientStake
    | TooMuchStake | BenchmarkTooLow | CannotStartWithExistingStake

  function Min(a: nat, b: nat): nat {
    if a <= b then a else b
  }

  /** A storage map read with a zero default. */
  function Get<K>(m: map<K, nat>, k: K): nat {
    if k in m then m[k] else 0
  }
}

/** Bounded machine integers and the fallible operations on them. A failed operation aborts the
    whole transaction, so a failure carries only the reason. */
module Checked {

  datatype Error =
    | MathOverflow
    | TypeCastFailed
    | Panic // an `assert!`, an `unwrap` or a checked built-in operator
    | PriceRangeViolation
    | InvalidPriceRange
    | InvalidMinimumLiquidity
    | InvalidFee
    | InvalidFeeRateLimiter
    | InvalidFeeScheduler
    | ExceedMaxFeeBps
    | InvalidPoolVersion
    | InvalidInput
    | UndeterminedError
    | InvalidParameters
    | AmountIsZero
    | ExceededSlippage
    | InsufficientLiquidity
    | SamePosition
    | InvalidVestingInfo
    | InvalidVestingAccount
    | UnsupportPositionHasVestingLock
    | InvalidSplitPositionParameters
    | PositionIsNotEmpty
    | InvalidRewardIndex
    | RewardInitialized
    | RewardUninitialized
    | InvalidRewardDuration
    | IdenticalRewardDuration
    | RewardCampaignInProgress
    | RewardNotEnded
    | MustWithdrawnIneligibleReward
    | RewardVaultFrozenSkipRequired
    | InvalidPagination
    | CrankWindowNotReached
    | InvalidPaginationSequence
    | InvestorAlreadyPaid
    | AccountNotFound // raised by the account loader

  datatype Result<+T> = Ok(value: T) | Err(error: Error) {
    predicate IsFailure() {
      Err?
    }

    function PropagateFailure<U>(): Result<U>
      requires Err?
    {
      Err(error)
    }

    function Extract(): T
      requires Ok?
    {
      value
    }
  }

  datatype Unit = Unit

  datatype Option<+T> = None | Some(value: T)

  /** The outcome of an instruction that moves tokens. `Unfunded` is the token program refusing a
      transfer that the paying vault does not cover. */
  datatype Outcome<+T> = Done(value: T) | Aborted(error: Error) | Unfunded {
    predicate IsFailure() {
      !Done?
    }

    function PropagateFailure<U>(): Outcome<U>
      requires !Done?
    {
      if Unfunded? then Unfunded else Aborted(error)
    }

    function Extract(): T
      requires Done?
    {
      value
    }
  }

  /** The outcome of the computing part of an instruction. */
  function Computed<T>(r: Result<T>): Outcome<T> {
    match r
    case Ok(value) => Done(value)
    case Err(error) => Aborted(error)
  }

  /** The `require!` macro. */
  function Require(condition: bool, error: Error): Result<Unit> {
    if condition then Ok(Unit) else Err(error)
  }

  const TWO_64: int := 0x1_0000_0000_0000_0000
  const TWO_128: int := 0x1_0000_0000_0000_0000_0000_0000_0000_0000
  const TWO_192: int := 0x1_0000_0000_0000_0000_0000_0000_0000_0000_0000_0000_0000_0000
  const TWO_256: int :=
    0x1_0000_0000_0000_0000_0000_0000_0000_0000_0000_0000_0000_0000_0000_0000_0000_0000

  const U64_MAX: int := TWO_64 - 1

  type U8 = x: int | 0 <= x < 0x100
  type U16 = x: int | 0 <= x < 0x1_0000
  type U32 = x: int | 0 <= x < 0x1_0000_0000
  type U64 = x: int | 0 <= x < TWO_64
  type U128 = x: int | 0 <= x < TWO_128
  type U256 = x: int | 0 <= x < TWO_256

  /** `checked_*` and `safe_*`: the exact result when the machine type can hold it. */
  function Fit64(x: int): Result<U64> {
    if 0 <= x < TWO_64 then Ok(x) else Err(MathOverflow)
  }

  function Fit128(x: int): Result<U128> {
    if 0 <= x < TWO_128 then Ok(x) else Err(MathOverflow)
  }

  function Fit256(x: int): Result<U256> {
    if 0 <= x < TWO_256 then Ok(x) else Err(MathOverflow)
  }

  /** `try_into` and `T::from_u128`: narrowing that fails instead of truncating. */
  function Cast64(x: int): Result<U64> {
    if 0 <= x < TWO_64 then Ok(x) else Err(TypeCastFailed)
  }

  function Cast128(x: int): Result<U128> {
    if 0 <= x < TWO_128 then Ok(x) else Err(TypeCastFailed)
  }

  /** A plain operator in a build with overflow checks. */
  function Plain64(x: int): Result<U64> {
    if 0 <= x < TWO_64 then Ok(x) else Err(Panic)
  }

  function Plain32(x: int): Result<U32> {
    if 0 <= x < 0x1_0000_0000 then Ok(x) else Err(Panic)
  }

  function Min(x: int, y: int): (m: int) {
    if x <= y then x else y
  }

  function Max(x: int, y: int): (m: int) {
    if x <= y then y else x
  }

  /** `saturating_sub` on an unsigned type. */
  function Monus(x: int, y: int): (d: nat) {
    if x >= y then x - y else 0
  }
}

/** The rate limiter: a base fee whose marginal rate rises by one increment for every reference
    amount bought, and its inverse. */
module RateLimiter {
  import opened Checked
  import opened Division
  import opened UtilsMath
  import opened Fees

  const MAX_BASIS_POINT: int := 10_000
  const MAX_FEE_BPS_V0: int := 5_000
  const MAX_RATE_LIMITER_DURATION_IN_SECONDS: int := 43_200
  const MAX_RATE_LIMITER_DURATION_IN_SLOTS: int := 108_000

  datatype ActivationType = Slot | Timestamp

  datatype Limiter = Limiter(
    cliffFeeNumerator: U64,
    feeIncrementBps: U16,
    maxLimiterDuration: U32,
    maxFeeBps: U32,
    referenceAmount: U64)

  /** `to_numerator` */
  function ToNumerator(bps: U32): Result<U64> {
    Cast64(FloorDiv(bps * FEE_DENOMINATOR, MAX_BASIS_POINT))
  }

  predicate IsZero(l: Limiter) {
    l.referenceAmount == 0 && l.maxLimiterDuration == 0 && l.maxFeeBps == 0 && l.feeIncrementBps == 0
  }

  predicate IsNonZero(l: Limiter) {
    l.referenceAmount != 0 && l.maxLimiterDuration != 0 && l.maxFeeBps != 0 && l.feeIncrementBps != 0
  }

  /** `is_rate_limiter_applied` */
  predicate IsApplied(l: Limiter, currentPoint: U64, activationPoint: U64, direction: TradeDirection) {
    && !IsZero(l)
    && direction.BtoA?
    && activationPoint <= currentPoint <= activationPoint + l.maxLimiterDuration
  }

  function MaxIndex(l: Limiter): Result<U64> {
    var maxFeeNumerator :- ToNumerator(l.maxFeeBps);
    var delta :- Fit64(maxFeeNumerator - l.cliffFeeNumerator);
    var increment :- ToNumerator(l.feeIncrementBps);
    if increment == 0 then Err(MathOverflow) else Ok(FloorDiv(delta, increment) as U64)
  }

  /** The sum of the rates of the first `a + 1` tiers (`numerator_1`). */
  function RatesOfTiers(c: nat, i: nat, a: nat): int {
    c + c * a + i * a * (a + 1) / 2
  }

  /** The closed form of the tiered fee, before division by the fee denominator: `c` is the cliff
      rate, `i` the increment, `x0` the reference amount, and the input is `x0 + a * x0 + b`. The
      source computes it in 256 bits, which it cannot overflow. */
  function ClosedForm(c: nat, i: nat, maxIndex: nat, top: nat, x0: nat, a: nat, b: nat): int {
    if a < maxIndex then
      x0 * RatesOfTiers(c, i, a) + b * (c + i * (a + 1))
    else
      x0 * RatesOfTiers(c, i, maxIndex) + ((a - maxIndex) * x0 + b) * top
  }

  /** Rounding the fee up to a token amount and back to a numerator. */
  function NumeratorFromFee(fee: int, input: U64): Result<U64> {
    var tradingFee :- Cast64((fee + FEE_DENOMINATOR - 1) / FEE_DENOMINATOR);
    MulDivU64(tradingFee, FEE_DENOMINATOR, input, Up)
  }

  /** `get_fee_numerator_from_included_fee_amount` */
  function NumeratorFromIncluded(l: Limiter, input: U64): Result<U64> {
    if input <= l.referenceAmount then
      Ok(l.cliffFeeNumerator)
    else
      var top :- ToNumerator(l.maxFeeBps);
      if l.referenceAmount == 0 then
        Err(Panic)
      else
        var maxIndex :- MaxIndex(l);
        var i :- ToNumerator(l.feeIncrementBps);
        var a := FloorDiv(input - l.referenceAmount, l.referenceAmount);
        var b := input - l.referenceAmount - a * l.referenceAmount;
        NumeratorFromFee(
          ClosedForm(l.cliffFeeNumerator, i, maxIndex, top, l.referenceAmount, a, b), input)
  }

  /** `FeeRateLimiter::get_excluded_fee_amount` */
  function ExcludedAmount(l: Limiter, included: U64): Result<U64> {
    var numerator :- NumeratorFromIncluded(l, included);
    var r :- ExcludedFee(numerator, included);
    Ok(r.amount)
  }

  datatype CheckedAmounts = CheckedAmounts(excluded: U64, included: U64, isOverflow: bool)

  /** `get_checked_amounts` */
  function GetCheckedAmounts(l: Limiter): Result<CheckedAmounts> {
    var maxIndex :- MaxIndex(l);
    var maxIndexInput := (maxIndex + 1) * l.referenceAmount;
    var isOverflow := maxIndexInput > U64_MAX;
    var included: U64 := if isOverflow then U64_MAX else maxIndexInput;
    var excluded :- ExcludedAmount(l, included);
    Ok(CheckedAmounts(excluded, included, isOverflow))
  }

  /** The coefficients of `x * t^2 - y * t + z = 0`, whose smaller root is the whole part of the
      input in the quadratic band. */
  datatype Quadratic = Quadratic(x: int, y: int, z: int) {
    function Discriminant(): int {
      y * y - 4 * x * z
    }
  }

  function QuadraticFor(l: Limiter, i: U64, excluded: U64): Quadratic {
    var d, c, x0 := FEE_DENOMINATOR as int, l.cliffFeeNumerator as int, l.referenceAmount as int;
    Quadratic(i, (2 * d + i - 2 * c) * x0, 2 * excluded * d * x0)
  }

  /** The smaller root, rounded. The source computes in wrapping 256 bit words; a wrapped value is
      reported here as a failure, and QuadraticBand shows that there is none. */
  function SmallerRoot(q: Quadratic): Result<nat> {
    if q.x <= 0 || q.Discriminant() < 0 then
      Err(Panic)
    else
      var s := FloorSqrt(q.Discriminant());
      if q.y < s then Err(Panic) else Ok(FloorDiv(q.y - s, 2 * q.x))
  }

  /** The whole part plus what it takes to leave the rest at the rate of the next tier. */
  function TotalFromRoot(l: Limiter, i: U64, root: nat, excluded: U64): Result<U64> {
    if l.referenceAmount == 0 then
      Err(MathOverflow)
    else
      var included :- Cast64(root);
      var first :- ExcludedAmount(l, included);
      var remaining :- Fit64(excluded - first);
      var rate :- Cast64(l.cliffFeeNumerator + i * FloorDiv(root, l.referenceAmount));
      AddRest(included, rate, remaining)
  }

  function AddRest(whole: U64, rate: U64, remaining: U64): Result<U64> {
    var rest :- IncludedFee(rate, remaining);
    Cast64(whole + rest.amount)
  }

  /** The total input found in the quadratic band. */
  function QuadraticTotal(l: Limiter, excluded: U64): Result<U64> {
    var i :- ToNumerator(l.feeIncrementBps);
    var root :- SmallerRoot(QuadraticFor(l, i, excluded));
    TotalFromRoot(l, i, root, excluded)
  }

  /** The total input beyond the last tier: the rest at the maximum rate. */
  function LinearTotal(l: Limiter, excluded: U64, checks: CheckedAmounts): Result<U64> {
    if checks.isOverflow then
      Err(MathOverflow)
    else
      var remaining :- Fit64(excluded - checks.excluded);
      var top :- ToNumerator(l.maxFeeBps);
      var rest :- IncludedFee(top, remaining);
      Fit64(rest.amount + checks.included)
  }

  /** The numerator whose charge on `included` leaves `excluded`, rounded up. */
  function NumeratorForTotal(l: Limiter, included: U64, excluded: U64): Result<U64> {
    var tradingFee :- Fit64(included - excluded);
    var numerator :- MulDivU64(tradingFee, FEE_DENOMINATOR, included, Up);
    var _ :- Require(numerator >= l.cliffFeeNumerator, UndeterminedError);
    Ok(numerator)
  }

  /** `get_fee_numerator_from_excluded_fee_amount` */
  function NumeratorFromExcluded(l: Limiter, excluded: U64): Result<U64> {
    var atReference :- ExcludedAmount(l, l.referenceAmount);
    if excluded <= atReference then
      Ok(l.cliffFeeNumerator)
    else
      var checks :- GetCheckedAmounts(l);
      if excluded == checks.excluded then
        NumeratorFromIncluded(l, checks.included)
      else
        var included :-
          if excluded < checks.excluded then QuadraticTotal(l, excluded)
          else LinearTotal(l, excluded, checks);
        NumeratorForTotal(l, included, excluded)
  }

  /** `FeeRateLimiter::validate` */
  function Validate(l: Limiter, collect: CollectFeeMode, activation: ActivationType): Result<Unit> {
    var _ :- Require(collect.OnlyB?, InvalidFeeRateLimiter);
    var top :- ToNumerator(l.maxFeeBps);
    var _ :- Require(MIN_FEE_NUMERATOR <= l.cliffFeeNumerator <= top, InvalidFeeRateLimiter);
    if IsZero(l) then
      Ok(Unit)
    else
      var _ :- Require(IsNonZero(l), InvalidFeeRateLimiter);
      var limit := match activation
                   case Slot => MAX_RATE_LIMITER_DURATION_IN_SLOTS
                   case Timestamp => MAX_RATE_LIMITER_DURATION_IN_SECONDS;
      var _ :- Require(l.maxLimiterDuration <= limit, InvalidFeeRateLimiter);
      var increment :- ToNumerator(l.feeIncrementBps);
      var _ :- Require(increment < FEE_DENOMINATOR, InvalidFeeRateLimiter);
      var _ :- Require(l.maxFeeBps <= MAX_FEE_BPS_V0, InvalidFeeRateLimiter);
      var least :- NumeratorFromIncluded(l, 0);
      var most :- NumeratorFromIncluded(l, U64_MAX);
      Require(least >= MIN_FEE_NUMERATOR && most <= MAX_FEE_NUMERATOR_V0, InvalidFeeRateLimiter)
  }
}

/** The three swap quotes: exact input, partial fill and exact output. */
module SwapQuotes {
  import opened Checked
  import opened UtilsMath
  import opened Curve
  import opened Fees
  import opened DynamicFee
  import opened PoolState
  import FeeScheduler
  import RateLimiter

  // ----- The fee rate -----

  function BaseNumeratorFromIncluded(
      p: PoolData, currentPoint: U64, direction: TradeDirection, included: U64): Result<U64>
  {
    match p.baseFee
    case Schedule(s) => FeeScheduler.BaseFeeNumerator(s, currentPoint, p.activationPoint)
    case Limit(l) =>
      if RateLimiter.IsApplied(l, currentPoint, p.activationPoint, direction)
      then RateLimiter.NumeratorFromIncluded(l, included)
      else Ok(l.cliffFeeNumerator)
  }

  function BaseNumeratorFromExcluded(
      p: PoolData, currentPoint: U64, direction: TradeDirection, excluded: U64): Result<U64>
  {
    match p.baseFee
    case Schedule(s) => FeeScheduler.BaseFeeNumerator(s, currentPoint, p.activationPoint)
    case Limit(l) =>
      if RateLimiter.IsApplied(l, currentPoint, p.activationPoint, direction)
      then RateLimiter.NumeratorFromExcluded(l, excluded)
      else Ok(l.cliffFeeNumerator)
  }

  /** `get_total_fee_numerator`: base plus variable fee, capped. */
  function TotalNumerator(p: PoolData, base: U64, cap: U64): (r: Result<U64>)
    ensures r.Ok? ==> r.value <= cap
  {
    var variable: U128 :- VariableFee(p.dynamicFee);
    var sum: U128 :- Fit128(variable + base);
    var total: U64 :- Cast64(sum);
    Ok(if total > cap then cap else total)
  }

  /** The trading fee numerator as a function of the amount it is charged on. It stands for the
      boxed fee handler, the variable fee and the cap together. */
  datatype TradingFee = TradingFee(fromIncluded: U64 -> Result<U64>, fromExcluded: U64 -> Result<U64>)

  /** `get_total_trading_fee_from_included_fee_amount` and `..._from_excluded_fee_amount`, for a
      pool version whose maximum fee is known. */
  function TradingFeeOf(
      p: PoolData, currentPoint: U64, direction: TradeDirection, cap: U64): (f: TradingFee)
    ensures Capped(f, cap)
  {
    TradingFee(
      (included: U64) =>
        var base := BaseNumeratorFromIncluded(p, currentPoint, direction, included);
        if base.Ok? then TotalNumerator(p, base.value, cap) else base,
      (excluded: U64) =>
        var base := BaseNumeratorFromExcluded(p, currentPoint, direction, excluded);
        if base.Ok? then TotalNumerator(p, base.value, cap) else base)
  }

  ghost predicate Capped(f: TradingFee, cap: U64) {
    forall x: U64 ::
      && (f.fromIncluded(x).Ok? ==> f.fromIncluded(x).value <= cap)
      && (f.fromExcluded(x).Ok? ==> f.fromExcluded(x).value <= cap)
  }

  /** An amount with the fee taken off or put on, and how the fee is split. */
  datatype Charged = Charged(amount: U64, fees: SplitFees)

  /** `get_fee_on_amount` */
  function ChargeIncluded(p: PoolData, m: FeeMode, numerator: U64, included: U64): Result<Charged> {
    var r :- ExcludedFee(numerator, included);
    var fees :- Split(p.shares, r.fee, m.hasReferral, p.hasPartner);
    Ok(Charged(r.amount, fees))
  }

  /** `get_included_fee_amount` followed by `split_fees`, at the rate for the excluded amount. */
  function ChargeExcluded(p: PoolData, m: FeeMode, f: TradingFee, excluded: U64): Result<Charged> {
    var numerator: U64 :- f.fromExcluded(excluded);
    var r :- IncludedFee(numerator, excluded);
    var fees :- Split(p.shares, r.fee, m.hasReferral, p.hasPartner);
    Ok(Charged(r.amount, fees))
  }

  // ----- Moving along the curve -----

  datatype FromInput = FromInput(outputAmount: U64, nextSqrtPrice: U128, amountLeft: U64)
  datatype FromOutput = FromOutput(inputAmount: U64, nextSqrtPrice: U128)

  /** `calculate_a_to_b_from_amount_in` and `calculate_b_to_a_from_amount_in` */
  function FromAmountIn(p: PoolData, direction: TradeDirection, amountIn: U64): Result<FromInput> {
    match direction
    case AtoB =>
      var next: U128 :- NextPriceFromInput(p.sqrtPrice, p.liquidity, amountIn, true);
      if next < p.sqrtMinPrice then Err(PriceRangeViolation)
      else
        var out: U64 :- DeltaB(next, p.sqrtPrice, p.liquidity, Down);
        Ok(FromInput(out, next, 0))
    case BtoA =>
      var next: U128 :- NextPriceFromInput(p.sqrtPrice, p.liquidity, amountIn, false);
      if next > p.sqrtMaxPrice then Err(PriceRangeViolation)
      else
        var out: U64 :- DeltaA(p.sqrtPrice, next, p.liquidity, Down);
        Ok(FromInput(out, next, 0))
  }

  /** The input that would move the price to the end of the range. */
  function MaxAmountIn(p: PoolData, direction: TradeDirection): Result<U64> {
    match direction
    case AtoB => DeltaA(p.sqrtMinPrice, p.sqrtPrice, p.liquidity, Up)
    case BtoA => DeltaB(p.sqrtPrice, p.sqrtMaxPrice, p.liquidity, Up)
  }

  /** `calculate_a_to_b_from_partial_amount_in` and `calculate_b_to_a_from_partial_amount_in` */
  function FromPartialAmountIn(p: PoolData, direction: TradeDirection, amountIn: U64): Result<FromInput> {
    var maxAmountIn: U64 :- MaxAmountIn(p, direction);
    match direction
    case AtoB =>
      var next: U128 :-
        if amountIn >= maxAmountIn then AtPrice(p.sqrtMinPrice)
        else NextPriceFromInput(p.sqrtPrice, p.liquidity, amountIn, true);
      var out: U64 :- DeltaB(next, p.sqrtPrice, p.liquidity, Down);
      Ok(FromInput(out, next, Monus(amountIn, maxAmountIn)))
    case BtoA =>
      var next: U128 :-
        if amountIn >= maxAmountIn then AtPrice(p.sqrtMaxPrice)
        else NextPriceFromInput(p.sqrtPrice, p.liquidity, amountIn, false);
      var out: U64 :- DeltaA(p.sqrtPrice, next, p.liquidity, Down);
      Ok(FromInput(out, next, Monus(amountIn, maxAmountIn)))
  }

  function AtPrice(price: U128): Result<U128> {
    Ok(price)
  }

  /** `calculate_a_to_b_from_amount_out` and `calculate_b_to_a_from_amount_out` */
  function FromAmountOut(p: PoolData, direction: TradeDirection, amountOut: U64): Result<FromOutput> {
    match direction
    case AtoB =>
      var next: U128 :- NextPriceFromOutput(p.sqrtPrice, p.liquidity, amountOut, true);
      if next < p.sqrtMinPrice then Err(PriceRangeViolation)
      else
        var amountIn: U64 :- DeltaA(next, p.sqrtPrice, p.liquidity, Up);
        Ok(FromOutput(amountIn, next))
    case BtoA =>
      var next: U128 :- NextPriceFromOutput(p.sqrtPrice, p.liquidity, amountOut, false);
      if next > p.sqrtMaxPrice then Err(PriceRangeViolation)
      else
        var amountIn: U64 :- DeltaB(p.sqrtPrice, next, p.liquidity, Up);
        Ok(FromOutput(amountIn, next))
  }

  // ----- The quotes -----

  /** Takes the fee off the input when the mode says so. */
  function InputAfterFee(p: PoolData, m: FeeMode, numerator: U64, amountIn: U64): Result<Charged> {
    if m.feesOnInput then ChargeIncluded(p, m, numerator, amountIn) else Ok(Charged(amountIn, NO_FEES))
  }

  /** Takes the fee off the output when the mode says so; otherwise the fees are those of the input. */
  function OutputAfterFee(
      p: PoolData, m: FeeMode, numerator: U64, amountOut: U64, inputFees: SplitFees): Result<Charged>
  {
    if m.feesOnInput then Ok(Charged(amountOut, inputFees)) else ChargeIncluded(p, m, numerator, amountOut)
  }

  /** `get_swap_result_from_exact_input` */
  function ExactInput(
      p: PoolData, f: TradingFee, amountIn: U64, m: FeeMode, direction: TradeDirection)
    : Result<SwapResult>
  {
    var numerator: U64 :- f.fromIncluded(amountIn);
    var input :- InputAfterFee(p, m, numerator, amountIn);
    var move :- FromAmountIn(p, direction, input.amount);
    var output :- OutputAfterFee(p, m, numerator, move.outputAmount, input.fees);
    Ok(SwapResult(
      amountIn, input.amount, move.amountLeft, output.amount, move.nextSqrtPrice, output.fees))
  }

  /** The input a partial fill really consumes, before and after the fee charged on it. */
  datatype Consumed = Consumed(included: U64, excluded: U64, fees: SplitFees)

  function ConsumedInput(
      p: PoolData, f: TradingFee, m: FeeMode, amountIn: U64, input: Charged, amountLeft: U64)
    : Result<Consumed>
  {
    if amountLeft > 0 then
      var consumed: U64 :- Fit64(input.amount - amountLeft);
      if m.feesOnInput then
        var r :- ChargeExcluded(p, m, f, consumed);
        Ok(Consumed(r.amount, consumed, r.fees))
      else
        Ok(Consumed(consumed, consumed, input.fees))
    else
      Ok(Consumed(amountIn, input.amount, input.fees))
  }

  /** `get_swap_result_from_partial_input` */
  function PartialInput(
      p: PoolData, f: TradingFee, amountIn: U64, m: FeeMode, direction: TradeDirection)
    : Result<SwapResult>
  {
    var numerator: U64 :- f.fromIncluded(amountIn);
    var input :- InputAfterFee(p, m, numerator, amountIn);
    var move :- FromPartialAmountIn(p, direction, input.amount);
    var consumed :- ConsumedInput(p, f, m, amountIn, input, move.amountLeft);
    var output :- OutputAfterFee(p, m, numerator, move.outputAmount, consumed.fees);
    Ok(SwapResult(
      consumed.included, consumed.excluded, move.amountLeft, output.amount, move.nextSqrtPrice,
      output.fees))
  }

  /** Puts the fee on an amount when the mode says so. */
  function ChargeIf(p: PoolData, m: FeeMode, f: TradingFee, charge: bool, amount: U64, fees: SplitFees)
    : Result<Charged>
  {
    if charge then ChargeExcluded(p, m, f, amount) else Ok(Charged(amount, fees))
  }

  /** `get_swap_result_from_exact_output` */
  function ExactOutput(
      p: PoolData, f: TradingFee, amountOut: U64, m: FeeMode, direction: TradeDirection)
    : Result<SwapResult>
  {
    var output :- ChargeIf(p, m, f, !m.feesOnInput, amountOut, NO_FEES);
    var move :- FromAmountOut(p, direction, output.amount);
    var input :- ChargeIf(p, m, f, m.feesOnInput, move.inputAmount, output.fees);
    Ok(SwapResult(
      input.amount, move.inputAmount, 0, amountOut, move.nextSqrtPrice, input.fees))
  }

  datatype SwapMode = ExactIn | PartialFill | ExactOut

  /** The quote of a swap mode, before the slippage checks. */
  function Quote(
      p: PoolData, f: TradingFee, mode: SwapMode, amount: U64, m: FeeMode, direction: TradeDirection)
    : Result<SwapResult>
  {
    match mode
    case ExactIn => ExactInput(p, f, amount, m, direction)
    case PartialFill => PartialInput(p, f, amount, m, direction)
    case ExactOut => ExactOutput(p, f, amount, m, direction)
  }
}

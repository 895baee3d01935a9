/** What every quote guarantees: the price stays in range, the curve is never paid less than the
    exact amount nor gives more, and the fee is split without loss. */
module SwapProofs {
  import opened Checked
  import opened UtilsMath
  import opened Curve
  import opened Fees
  import opened PoolState
  import opened SwapQuotes

  ghost predicate InRange(p: PoolData) {
    0 < p.sqrtMinPrice <= p.sqrtPrice <= p.sqrtMaxPrice
  }

  /** A move of the price, paid with `amountIn` and releasing `amountOut`, both rounded against the
      trader, that ends inside the price range. */
  ghost predicate FairMove(p: PoolData, direction: TradeDirection, amountIn: int, amountOut: int, next: int) {
    match direction
    case AtoB =>
      && p.sqrtMinPrice <= next <= p.sqrtPrice
      && CoversA(p.liquidity, next, p.sqrtPrice, amountIn)
      && WithinB(p.liquidity, next, p.sqrtPrice, amountOut)
    case BtoA =>
      && p.sqrtPrice <= next <= p.sqrtMaxPrice
      && CoversB(p.liquidity, p.sqrtPrice, next, amountIn)
      && WithinA(p.liquidity, p.sqrtPrice, next, amountOut)
  }

  lemma FromAmountInFair(p: PoolData, direction: TradeDirection, amountIn: U64)
    requires InRange(p) && FromAmountIn(p, direction, amountIn).Ok?
    ensures var move := FromAmountIn(p, direction, amountIn).value;
            move.amountLeft == 0
            && FairMove(p, direction, amountIn, move.outputAmount, move.nextSqrtPrice)
  {
    var move := FromAmountIn(p, direction, amountIn).value;
    var next := move.nextSqrtPrice;
    match direction
    case AtoB =>
      PriceAfterInputA(p.sqrtPrice, p.liquidity, amountIn, next);
      DeltaBRounding(next, p.sqrtPrice, p.liquidity, Down, move.outputAmount);
    case BtoA =>
      PriceAfterInputB(p.sqrtPrice, p.liquidity, amountIn, next);
      DeltaARounding(p.sqrtPrice, next, p.liquidity, Down, move.outputAmount);
  }

  lemma FromAmountOutFair(p: PoolData, direction: TradeDirection, amountOut: U64)
    requires InRange(p) && FromAmountOut(p, direction, amountOut).Ok?
    ensures var move := FromAmountOut(p, direction, amountOut).value;
            FairMove(p, direction, move.inputAmount, amountOut, move.nextSqrtPrice)
  {
    var move := FromAmountOut(p, direction, amountOut).value;
    var next := move.nextSqrtPrice;
    match direction
    case AtoB =>
      PriceAfterOutputB(p.sqrtPrice, p.liquidity, amountOut, next);
      DeltaARounding(next, p.sqrtPrice, p.liquidity, Up, move.inputAmount);
    case BtoA =>
      PriceAfterOutputA(p.sqrtPrice, p.liquidity, amountOut, next);
      DeltaBRounding(p.sqrtPrice, next, p.liquidity, Up, move.inputAmount);
  }

  /** Below the largest useful input the price cannot leave the range, although nothing checks it. */
  lemma PartialNeedsNoCheck(p: PoolData, direction: TradeDirection, amountIn: U64)
    requires InRange(p) && MaxAmountIn(p, direction).Ok? && amountIn < MaxAmountIn(p, direction).value
    ensures FromPartialAmountIn(p, direction, amountIn) == FromAmountIn(p, direction, amountIn)
  {
    match direction
    case AtoB =>
      DeltaARounding(p.sqrtMinPrice, p.sqrtPrice, p.liquidity, Up, amountIn);
      var next := NextPriceFromInput(p.sqrtPrice, p.liquidity, amountIn, true);
      if next.Ok? {
        PriceAfterInputA(p.sqrtPrice, p.liquidity, amountIn, p.sqrtMinPrice);
      }
    case BtoA =>
      DeltaBRounding(p.sqrtPrice, p.sqrtMaxPrice, p.liquidity, Up, amountIn);
      var next := NextPriceFromInput(p.sqrtPrice, p.liquidity, amountIn, false);
      if next.Ok? {
        PriceAfterInputB(p.sqrtPrice, p.liquidity, amountIn, p.sqrtMaxPrice);
      }
  }

  /** A partial fill consumes at most the offered input and moves the price at most to the end of
      the range. */
  lemma FromPartialFair(p: PoolData, direction: TradeDirection, amountIn: U64)
    requires InRange(p) && FromPartialAmountIn(p, direction, amountIn).Ok?
    ensures var move := FromPartialAmountIn(p, direction, amountIn).value;
            && move.amountLeft <= amountIn
            && FairMove(
                 p, direction, amountIn - move.amountLeft, move.outputAmount, move.nextSqrtPrice)
  {
    var maxAmountIn := MaxAmountIn(p, direction).value;
    var move := FromPartialAmountIn(p, direction, amountIn).value;
    if amountIn < maxAmountIn {
      PartialNeedsNoCheck(p, direction, amountIn);
      FromAmountInFair(p, direction, amountIn);
    } else {
      match direction
      case AtoB =>
        DeltaARounding(p.sqrtMinPrice, p.sqrtPrice, p.liquidity, Up, maxAmountIn);
        DeltaBRounding(p.sqrtMinPrice, p.sqrtPrice, p.liquidity, Down, move.outputAmount);
      case BtoA =>
        DeltaBRounding(p.sqrtPrice, p.sqrtMaxPrice, p.liquidity, Up, maxAmountIn);
        DeltaARounding(p.sqrtPrice, p.sqrtMaxPrice, p.liquidity, Down, move.outputAmount);
    }
  }

  // ----- Quotes as a whole -----

  ghost function FeeTotal(f: SplitFees): nat {
    f.trading + f.protocol + f.referral + f.partner
  }

  /** The part of the fee that stays in the vault for liquidity providers, protocol and partner. */
  ghost function FeeKept(f: SplitFees): nat {
    f.trading + f.protocol + f.partner
  }

  /** What the trader pays is the curve input plus an input fee; what the trader gets is the curve
      output less an output fee; and the curve move is fair. */
  ghost predicate FairSwap(p: PoolData, m: FeeMode, direction: TradeDirection, r: SwapResult) {
    var curveIn := r.includedFeeInputAmount - (if m.feesOnInput then FeeTotal(r.fees) else 0);
    var curveOut := r.outputAmount + (if m.feesOnInput then 0 else FeeTotal(r.fees));
    && curveIn == r.excludedFeeInputAmount
    && FairMove(p, direction, curveIn, curveOut, r.nextSqrtPrice)
    && (!m.hasReferral ==> r.fees.referral == 0)
  }

  lemma ChargeIncludedSplits(p: PoolData, m: FeeMode, numerator: U64, included: U64)
    requires ChargeIncluded(p, m, numerator, included).Ok?
    ensures var r := ChargeIncluded(p, m, numerator, included).value;
            r.amount + FeeTotal(r.fees) == included && (!m.hasReferral ==> r.fees.referral == 0)
  {
    var r := ExcludedFee(numerator, included).value;
    SplitConserves(p.shares, r.fee, m.hasReferral, p.hasPartner);
  }

  lemma ChargeExcludedSplits(p: PoolData, m: FeeMode, f: TradingFee, excluded: U64)
    requires ChargeExcluded(p, m, f, excluded).Ok?
    ensures var r := ChargeExcluded(p, m, f, excluded).value;
            r.amount == excluded + FeeTotal(r.fees) && (!m.hasReferral ==> r.fees.referral == 0)
  {
    var r := IncludedFee(f.fromExcluded(excluded).value, excluded).value;
    SplitConserves(p.shares, r.fee, m.hasReferral, p.hasPartner);
  }

  lemma InputSplits(p: PoolData, m: FeeMode, numerator: U64, amountIn: U64)
    requires InputAfterFee(p, m, numerator, amountIn).Ok?
    ensures var r := InputAfterFee(p, m, numerator, amountIn).value;
            && r.amount + FeeTotal(r.fees) == amountIn
            && (!m.feesOnInput ==> FeeTotal(r.fees) == 0)
            && (!m.hasReferral ==> r.fees.referral == 0)
  {
    if m.feesOnInput {
      ChargeIncludedSplits(p, m, numerator, amountIn);
    }
  }

  lemma OutputSplits(p: PoolData, m: FeeMode, numerator: U64, amountOut: U64, inputFees: SplitFees)
    requires OutputAfterFee(p, m, numerator, amountOut, inputFees).Ok?
    ensures var r := OutputAfterFee(p, m, numerator, amountOut, inputFees).value;
            if m.feesOnInput then r == Charged(amountOut, inputFees)
            else r.amount + FeeTotal(r.fees) == amountOut && (!m.hasReferral ==> r.fees.referral == 0)
  {
    if !m.feesOnInput {
      ChargeIncludedSplits(p, m, numerator, amountOut);
    }
  }

  /** The pieces of a quote fit together. */
  ghost predicate Assembled(
      m: FeeMode, paid: int, curveIn: int, inputFees: SplitFees, curveOut: int, output: Charged)
  {
    && paid == curveIn + FeeTotal(inputFees)
    && (!m.hasReferral ==> inputFees.referral == 0 && output.fees.referral == 0)
    && (if m.feesOnInput then output == Charged(output.amount, inputFees) && output.amount == curveOut
        else FeeTotal(inputFees) == 0 && output.amount + FeeTotal(output.fees) == curveOut)
  }

  lemma AssembleFair(
      p: PoolData, m: FeeMode, direction: TradeDirection, r: SwapResult, inputFees: SplitFees,
      curveOut: U64)
    requires Assembled(
               m, r.includedFeeInputAmount, r.excludedFeeInputAmount, inputFees, curveOut,
               Charged(r.outputAmount, r.fees))
    requires FairMove(p, direction, r.excludedFeeInputAmount, curveOut, r.nextSqrtPrice)
    ensures FairSwap(p, m, direction, r)
  {
  }

  lemma ExactInputParts(p: PoolData, f: TradingFee, amountIn: U64, m: FeeMode, direction: TradeDirection)
    returns (input: Charged, move: FromInput)
    requires ExactInput(p, f, amountIn, m, direction).Ok?
    ensures FromAmountIn(p, direction, input.amount) == Ok(move)
    ensures var r := ExactInput(p, f, amountIn, m, direction).value;
            && r.includedFeeInputAmount == amountIn
            && r.excludedFeeInputAmount == input.amount && r.nextSqrtPrice == move.nextSqrtPrice
            && Assembled(
                 m, amountIn, input.amount, input.fees, move.outputAmount,
                 Charged(r.outputAmount, r.fees))
  {
    hide FromAmountIn, InputAfterFee, OutputAfterFee;
    var numerator := f.fromIncluded(amountIn).value;
    InputSplits(p, m, numerator, amountIn);
    input := InputAfterFee(p, m, numerator, amountIn).value;
    move := FromAmountIn(p, direction, input.amount).value;
    OutputSplits(p, m, numerator, move.outputAmount, input.fees);
  }

  lemma ExactInputFair(p: PoolData, f: TradingFee, amountIn: U64, m: FeeMode, direction: TradeDirection)
    requires InRange(p) && ExactInput(p, f, amountIn, m, direction).Ok?
    ensures FairSwap(p, m, direction, ExactInput(p, f, amountIn, m, direction).value)
  {
    var r := ExactInput(p, f, amountIn, m, direction).value;
    var input, move := ExactInputParts(p, f, amountIn, m, direction);
    FromAmountInFair(p, direction, input.amount);
    AssembleFair(p, m, direction, r, input.fees, move.outputAmount);
  }

  lemma ConsumedSplits(
      p: PoolData, f: TradingFee, m: FeeMode, amountIn: U64, input: Charged, amountLeft: U64)
    requires amountLeft <= input.amount && input.amount + FeeTotal(input.fees) == amountIn
    requires !m.hasReferral ==> input.fees.referral == 0
    requires ConsumedInput(p, f, m, amountIn, input, amountLeft).Ok?
    ensures var r := ConsumedInput(p, f, m, amountIn, input, amountLeft).value;
            && r.excluded == input.amount - amountLeft
            && (m.feesOnInput ==> r.included == r.excluded + FeeTotal(r.fees))
            && (!m.feesOnInput && FeeTotal(input.fees) == 0 ==> r.included == r.excluded)
            && (!m.feesOnInput ==> r.fees == input.fees)
            && (!m.hasReferral ==> r.fees.referral == 0)
  {
    if amountLeft > 0 && m.feesOnInput {
      ChargeExcludedSplits(p, m, f, input.amount - amountLeft);
    }
  }

  lemma LeftAtMostOffered(p: PoolData, direction: TradeDirection, amountIn: U64)
    requires FromPartialAmountIn(p, direction, amountIn).Ok?
    ensures FromPartialAmountIn(p, direction, amountIn).value.amountLeft <= amountIn
  {
  }

  lemma PartialInputParts(p: PoolData, f: TradingFee, amountIn: U64, m: FeeMode, direction: TradeDirection)
    returns (input: Charged, move: FromInput, consumed: Consumed)
    requires PartialInput(p, f, amountIn, m, direction).Ok?
    ensures FromPartialAmountIn(p, direction, input.amount) == Ok(move)
    ensures consumed.excluded == input.amount - move.amountLeft
    ensures var r := PartialInput(p, f, amountIn, m, direction).value;
            && r.includedFeeInputAmount == consumed.included
            && r.excludedFeeInputAmount == consumed.excluded && r.nextSqrtPrice == move.nextSqrtPrice
            && Assembled(
                 m, consumed.included, consumed.excluded, consumed.fees, move.outputAmount,
                 Charged(r.outputAmount, r.fees))
  {
    hide InputAfterFee, OutputAfterFee, FromPartialAmountIn, ConsumedInput;
    var numerator := f.fromIncluded(amountIn).value;
    input := InputAfterFee(p, m, numerator, amountIn).value;
    move := FromPartialAmountIn(p, direction, input.amount).value;
    consumed := ConsumedInput(p, f, m, amountIn, input, move.amountLeft).value;
    var output := OutputAfterFee(p, m, numerator, move.outputAmount, consumed.fees).value;
    PartialAssembled(p, f, amountIn, m, direction, numerator, input, move, consumed, output);
  }

  lemma PartialAssembled(
      p: PoolData, f: TradingFee, amountIn: U64, m: FeeMode, direction: TradeDirection, numerator: U64,
      input: Charged, move: FromInput, consumed: Consumed, output: Charged)
    requires InputAfterFee(p, m, numerator, amountIn) == Ok(input)
    requires FromPartialAmountIn(p, direction, input.amount) == Ok(move)
    requires ConsumedInput(p, f, m, amountIn, input, move.amountLeft) == Ok(consumed)
    requires OutputAfterFee(p, m, numerator, move.outputAmount, consumed.fees) == Ok(output)
    ensures consumed.excluded == input.amount - move.amountLeft
    ensures Assembled(
              m, consumed.included, consumed.excluded, consumed.fees, move.outputAmount, output)
  {
    hide InputAfterFee, OutputAfterFee, FromPartialAmountIn, ConsumedInput;
    InputSplits(p, m, numerator, amountIn);
    LeftAtMostOffered(p, direction, input.amount);
    ConsumedSplits(p, f, m, amountIn, input, move.amountLeft);
    OutputSplits(p, m, numerator, move.outputAmount, consumed.fees);
  }

  lemma PartialInputFair(p: PoolData, f: TradingFee, amountIn: U64, m: FeeMode, direction: TradeDirection)
    requires InRange(p) && PartialInput(p, f, amountIn, m, direction).Ok?
    ensures FairSwap(p, m, direction, PartialInput(p, f, amountIn, m, direction).value)
  {
    var r := PartialInput(p, f, amountIn, m, direction).value;
    var input, move, consumed := PartialInputParts(p, f, amountIn, m, direction);
    FromPartialFair(p, direction, input.amount);
    AssembleFair(p, m, direction, r, consumed.fees, move.outputAmount);
  }

  lemma ExactOutputFair(p: PoolData, f: TradingFee, amountOut: U64, m: FeeMode, direction: TradeDirection)
    requires InRange(p) && ExactOutput(p, f, amountOut, m, direction).Ok?
    ensures FairSwap(p, m, direction, ExactOutput(p, f, amountOut, m, direction).value)
  {
    if m.feesOnInput {
      FromAmountOutFair(p, direction, amountOut);
      ChargeExcludedSplits(p, m, f, FromAmountOut(p, direction, amountOut).value.inputAmount);
    } else {
      ChargeExcludedSplits(p, m, f, amountOut);
      FromAmountOutFair(p, direction, ChargeExcluded(p, m, f, amountOut).value.amount);
    }
  }

  /** Every quote of every mode, direction and fee mode is fair and ends inside the price range,
      whatever the fee rate. */
  lemma QuoteFair(
      p: PoolData, f: TradingFee, mode: SwapMode, amount: U64, m: FeeMode, direction: TradeDirection)
    requires InRange(p) && Quote(p, f, mode, amount, m, direction).Ok?
    ensures var r := Quote(p, f, mode, amount, m, direction).value;
            FairSwap(p, m, direction, r) && InRange(p.(sqrtPrice := r.nextSqrtPrice))
  {
    match mode
    case ExactIn => ExactInputFair(p, f, amount, m, direction);
    case PartialFill => PartialInputFair(p, f, amount, m, direction);
    case ExactOut => ExactOutputFair(p, f, amount, m, direction);
  }

  /** A partial fill whose input after fees stays below the largest useful input is the exact-input
      quote. */
  lemma PartialAgreesWithExact(
      p: PoolData, f: TradingFee, amountIn: U64, m: FeeMode, direction: TradeDirection, input: Charged)
    requires InRange(p) && f.fromIncluded(amountIn).Ok? && MaxAmountIn(p, direction).Ok?
    requires InputAfterFee(p, m, f.fromIncluded(amountIn).value, amountIn) == Ok(input)
    requires input.amount < MaxAmountIn(p, direction).value
    ensures PartialInput(p, f, amountIn, m, direction) == ExactInput(p, f, amountIn, m, direction)
  {
    PartialNeedsNoCheck(p, direction, input.amount);
    if FromAmountIn(p, direction, input.amount).Ok? {
      FromAmountInFair(p, direction, input.amount);
    }
  }
}

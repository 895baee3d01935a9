/** What a quote comes to: the exact move of the curve, to the unit, and the fee at the rate of the
    moment, on the side it is charged on. */
module QuoteValues {
  import opened Checked
  import opened UtilsMath
  import opened Curve
  import opened Fees
  import opened PoolState
  import opened SwapQuotes
  import opened SwapProofs

  // ----- The move of the curve -----

  /** `amountOut` is the most the curve releases for the move to `next`. */
  ghost predicate ReleasesExactly(p: PoolData, direction: TradeDirection, next: nat, amountOut: int) {
    forall k: int {:trigger WithinB(p.liquidity, next, p.sqrtPrice, k)}
                  {:trigger WithinA(p.liquidity, p.sqrtPrice, next, k)} ::
      k <= amountOut <==> if direction.AtoB? then WithinB(p.liquidity, next, p.sqrtPrice, k)
                          else WithinA(p.liquidity, p.sqrtPrice, next, k)
  }

  /** `amountIn` is the least that covers the move to `next`. */
  ghost predicate CostsExactly(p: PoolData, direction: TradeDirection, next: nat, amountIn: int) {
    forall k: int {:trigger CoversA(p.liquidity, next, p.sqrtPrice, k)}
                  {:trigger CoversB(p.liquidity, p.sqrtPrice, next, k)} ::
      amountIn <= k <==> if direction.AtoB? then CoversA(p.liquidity, next, p.sqrtPrice, k)
                         else CoversB(p.liquidity, p.sqrtPrice, next, k)
  }

  /** `next` is as far as `amountIn` moves the price: it covers the move to a target exactly when the
      target is not beyond `next`. */
  ghost predicate MovesExactly(p: PoolData, direction: TradeDirection, next: nat, amountIn: int) {
    forall target: nat {:trigger CoversA(p.liquidity, target, p.sqrtPrice, amountIn)}
                       {:trigger CoversB(p.liquidity, p.sqrtPrice, target, amountIn)} ::
      if direction.AtoB? then next <= target <==> CoversA(p.liquidity, target, p.sqrtPrice, amountIn)
      else target <= next <==> CoversB(p.liquidity, p.sqrtPrice, target, amountIn)
  }

  lemma FromAmountInExact(p: PoolData, direction: TradeDirection, amountIn: U64)
    requires InRange(p) && FromAmountIn(p, direction, amountIn).Ok?
    ensures var move := FromAmountIn(p, direction, amountIn).value;
            && MovesExactly(p, direction, move.nextSqrtPrice, amountIn)
            && ReleasesExactly(p, direction, move.nextSqrtPrice, move.outputAmount)
            && move.amountLeft == 0
  {
    hide DeltaA, DeltaB, WithinA, WithinB, CoversA, CoversB;
    var move := FromAmountIn(p, direction, amountIn).value;
    var next := move.nextSqrtPrice;
    match direction
    case AtoB =>
      forall target: nat
        ensures next <= target <==> CoversA(p.liquidity, target, p.sqrtPrice, amountIn)
      {
        PriceAfterInputA(p.sqrtPrice, p.liquidity, amountIn, target);
      }
      forall k: int ensures k <= move.outputAmount <==> WithinB(p.liquidity, next, p.sqrtPrice, k) {
        DeltaBRounding(next, p.sqrtPrice, p.liquidity, Down, k);
      }
    case BtoA =>
      forall target: nat
        ensures target <= next <==> CoversB(p.liquidity, p.sqrtPrice, target, amountIn)
      {
        PriceAfterInputB(p.sqrtPrice, p.liquidity, amountIn, target);
      }
      forall k: int ensures k <= move.outputAmount <==> WithinA(p.liquidity, p.sqrtPrice, next, k) {
        DeltaARounding(p.sqrtPrice, next, p.liquidity, Down, k);
      }
  }

  /** `next` is the first price at which the curve has released `amountOut`. */
  ghost predicate ReachesExactly(p: PoolData, direction: TradeDirection, next: nat, amountOut: int) {
    forall target: nat {:trigger WithinB(p.liquidity, target, p.sqrtPrice, amountOut)}
                       {:trigger WithinA(p.liquidity, p.sqrtPrice, target, amountOut)} ::
      if direction.AtoB? then target <= next <==> WithinB(p.liquidity, target, p.sqrtPrice, amountOut)
      else next <= target <==> WithinA(p.liquidity, p.sqrtPrice, target, amountOut)
  }

  lemma FromAmountOutExact(p: PoolData, direction: TradeDirection, amountOut: U64)
    requires InRange(p) && FromAmountOut(p, direction, amountOut).Ok?
    ensures var move := FromAmountOut(p, direction, amountOut).value;
            && ReachesExactly(p, direction, move.nextSqrtPrice, amountOut)
            && CostsExactly(p, direction, move.nextSqrtPrice, move.inputAmount)
  {
    hide DeltaA, DeltaB, WithinA, WithinB, CoversA, CoversB;
    var move := FromAmountOut(p, direction, amountOut).value;
    var next := move.nextSqrtPrice;
    match direction
    case AtoB =>
      forall target: nat
        ensures target <= next <==> WithinB(p.liquidity, target, p.sqrtPrice, amountOut)
      {
        PriceAfterOutputB(p.sqrtPrice, p.liquidity, amountOut, target);
      }
      forall k: int ensures move.inputAmount <= k <==> CoversA(p.liquidity, next, p.sqrtPrice, k) {
        DeltaARounding(next, p.sqrtPrice, p.liquidity, Up, k);
      }
    case BtoA =>
      forall target: nat
        ensures next <= target <==> WithinA(p.liquidity, p.sqrtPrice, target, amountOut)
      {
        PriceAfterOutputA(p.sqrtPrice, p.liquidity, amountOut, target);
      }
      forall k: int ensures move.inputAmount <= k <==> CoversB(p.liquidity, p.sqrtPrice, next, k) {
        DeltaBRounding(p.sqrtPrice, next, p.liquidity, Up, k);
      }
  }

  function EndOfRange(p: PoolData, direction: TradeDirection): U128 {
    if direction.AtoB? then p.sqrtMinPrice else p.sqrtMaxPrice
  }

  lemma MaxAmountInExact(p: PoolData, direction: TradeDirection)
    requires MaxAmountIn(p, direction).Ok?
    ensures CostsExactly(p, direction, EndOfRange(p, direction), MaxAmountIn(p, direction).value)
  {
    hide DeltaA, DeltaB, CoversA, CoversB;
    var most := MaxAmountIn(p, direction).value;
    match direction
    case AtoB =>
      forall k: int ensures most <= k <==> CoversA(p.liquidity, p.sqrtMinPrice, p.sqrtPrice, k) {
        DeltaARounding(p.sqrtMinPrice, p.sqrtPrice, p.liquidity, Up, k);
      }
    case BtoA =>
      forall k: int ensures most <= k <==> CoversB(p.liquidity, p.sqrtPrice, p.sqrtMaxPrice, k) {
        DeltaBRounding(p.sqrtPrice, p.sqrtMaxPrice, p.liquidity, Up, k);
      }
  }

  /** A partial fill goes as far as the offer reaches: to the end of the range if the offer covers that,
      consuming the least that does and leaving the rest, and otherwise as an exact input does. */
  lemma FromPartialExact(p: PoolData, direction: TradeDirection, amountIn: U64)
    requires InRange(p) && FromPartialAmountIn(p, direction, amountIn).Ok?
    ensures MaxAmountIn(p, direction).Ok?
    ensures var move := FromPartialAmountIn(p, direction, amountIn).value;
            var most := MaxAmountIn(p, direction).value;
            var next := move.nextSqrtPrice;
            && CostsExactly(p, direction, EndOfRange(p, direction), most)
            && ReleasesExactly(p, direction, next, move.outputAmount)
            && (if amountIn < most then move.amountLeft == 0 && MovesExactly(p, direction, next, amountIn)
                else next == EndOfRange(p, direction) && amountIn - move.amountLeft == most)
  {
    hide DeltaA, DeltaB, WithinA, WithinB, CostsExactly, MovesExactly;
    MaxAmountInExact(p, direction);
    var move := FromPartialAmountIn(p, direction, amountIn).value;
    if amountIn < MaxAmountIn(p, direction).value {
      PartialNeedsNoCheck(p, direction, amountIn);
      FromAmountInExact(p, direction, amountIn);
    } else {
      match direction
      case AtoB =>
        forall k: int
          ensures k <= move.outputAmount <==> WithinB(p.liquidity, p.sqrtMinPrice, p.sqrtPrice, k)
        {
          DeltaBRounding(p.sqrtMinPrice, p.sqrtPrice, p.liquidity, Down, k);
        }
      case BtoA =>
        forall k: int
          ensures k <= move.outputAmount <==> WithinA(p.liquidity, p.sqrtPrice, p.sqrtMaxPrice, k)
        {
          DeltaARounding(p.sqrtPrice, p.sqrtMaxPrice, p.liquidity, Down, k);
        }
    }
  }

  // ----- The fee -----

  /** `fee` is the rate's share of `gross`, rounded up. */
  ghost predicate TakenOff(fee: int, gross: nat, numerator: nat) {
    (fee - 1) * FEE_DENOMINATOR < gross * numerator <= fee * FEE_DENOMINATOR
  }

  /** `gross` is the least amount of which, the rate taken off, `net` is left. */
  ghost predicate PutOn(gross: int, net: nat, numerator: nat) {
    (gross - 1) * (FEE_DENOMINATOR - numerator) < net * FEE_DENOMINATOR
    <= gross * (FEE_DENOMINATOR - numerator)
  }

  lemma ChargeIncludedIs(p: PoolData, m: FeeMode, numerator: U64, included: U64)
    requires ChargeIncluded(p, m, numerator, included).Ok?
    ensures var r := ChargeIncluded(p, m, numerator, included).value;
            && r.amount == included - FeeTotal(r.fees) && TakenOff(FeeTotal(r.fees), included, numerator)
            && Split(p.shares, FeeTotal(r.fees), m.hasReferral, p.hasPartner) == Ok(r.fees)
  {
    hide Split;
    SplitConserves(
      p.shares, ExcludedFee(numerator, included).value.fee, m.hasReferral, p.hasPartner);
  }

  lemma ChargeExcludedIs(p: PoolData, m: FeeMode, f: TradingFee, excluded: U64)
    requires ChargeExcluded(p, m, f, excluded).Ok?
    ensures f.fromExcluded(excluded).Ok?
    ensures var r := ChargeExcluded(p, m, f, excluded).value;
            && r.amount == excluded + FeeTotal(r.fees)
            && PutOn(r.amount, excluded, f.fromExcluded(excluded).value)
            && Split(p.shares, FeeTotal(r.fees), m.hasReferral, p.hasPartner) == Ok(r.fees)
  {
    hide Split;
    SplitConserves(
      p.shares, IncludedFee(f.fromExcluded(excluded).value, excluded).value.fee, m.hasReferral,
      p.hasPartner);
  }

  /** What a quote charges and gives for what was asked. With fees on the input, the rate is taken off
      what is paid; with fees on the output, off what the curve gives. Where the amount after the fee is
      the one that is known, in an exact output and in the part that a partial fill consumes, the fee is
      put on it instead, at the rate for that amount. */
  ghost predicate PricedAs(
      f: TradingFee, mode: SwapMode, amount: U64, m: FeeMode, r: SwapResult)
  {
    var fee := FeeTotal(r.fees);
    match mode
    case ExactOut =>
      && r.outputAmount == amount
      && var net := if m.feesOnInput then r.excludedFeeInputAmount else amount;
         && f.fromExcluded(net).Ok? && PutOn(net + fee, net, f.fromExcluded(net).value)
    case _ =>
      && f.fromIncluded(amount).Ok?
      && var n := f.fromIncluded(amount).value;
         if !m.feesOnInput then
           TakenOff(fee, r.outputAmount + fee, n)
           && (r.amountLeft == 0 ==> r.includedFeeInputAmount == amount)
         else if r.amountLeft == 0 then
           r.includedFeeInputAmount == amount && TakenOff(fee, amount, n)
         else
           f.fromExcluded(r.excludedFeeInputAmount).Ok?
           && PutOn(
                r.includedFeeInputAmount, r.excludedFeeInputAmount,
                f.fromExcluded(r.excludedFeeInputAmount).value)
  }

  /** What the trader pays and gets around the curve, and how the fee is divided. */
  ghost predicate Divided(p: PoolData, m: FeeMode, r: SwapResult) {
    && r.includedFeeInputAmount == r.excludedFeeInputAmount + (if m.feesOnInput then FeeTotal(r.fees) else 0)
    && FeeTotal(r.fees) <= U64_MAX
    && Split(p.shares, FeeTotal(r.fees), m.hasReferral, p.hasPartner) == Ok(r.fees)
  }

  lemma ExactInputPriced(
      p: PoolData, f: TradingFee, amountIn: U64, m: FeeMode, direction: TradeDirection)
    requires ExactInput(p, f, amountIn, m, direction).Ok?
    ensures var r := ExactInput(p, f, amountIn, m, direction).value;
            && PricedAs(f, ExactIn, amountIn, m, r) && Divided(p, m, r) && r.amountLeft == 0
            && FromAmountIn(p, direction, r.excludedFeeInputAmount)
               == Ok(FromInput(
                       r.outputAmount + (if m.feesOnInput then 0 else FeeTotal(r.fees)), r.nextSqrtPrice, 0))
  {
    hide DeltaA, DeltaB, NextPriceFromInput, ChargeIncluded, Split, TakenOff, PutOn;
    var numerator := f.fromIncluded(amountIn).value;
    if m.feesOnInput {
      ChargeIncludedIs(p, m, numerator, amountIn);
    } else {
      ChargeIncludedIs(p, m, numerator, FromAmountIn(p, direction, amountIn).value.outputAmount);
    }
  }

  lemma ExactOutputPriced(
      p: PoolData, f: TradingFee, amountOut: U64, m: FeeMode, direction: TradeDirection)
    requires ExactOutput(p, f, amountOut, m, direction).Ok?
    ensures var r := ExactOutput(p, f, amountOut, m, direction).value;
            && PricedAs(f, ExactOut, amountOut, m, r) && Divided(p, m, r) && r.amountLeft == 0
            && var released := amountOut + (if m.feesOnInput then 0 else FeeTotal(r.fees));
               && released <= U64_MAX
               && FromAmountOut(p, direction, released)
                  == Ok(FromOutput(r.excludedFeeInputAmount, r.nextSqrtPrice))
  {
    hide FromAmountOut, ChargeExcluded, Split, TakenOff, PutOn;
    if m.feesOnInput {
      ChargeExcludedIs(p, m, f, FromAmountOut(p, direction, amountOut).value.inputAmount);
    } else {
      ChargeExcludedIs(p, m, f, amountOut);
    }
  }

  lemma PartialInputPriced(
      p: PoolData, f: TradingFee, amountIn: U64, m: FeeMode, direction: TradeDirection)
    returns (offered: U64)
    requires PartialInput(p, f, amountIn, m, direction).Ok?
    ensures var r := PartialInput(p, f, amountIn, m, direction).value;
            && PricedAs(f, PartialFill, amountIn, m, r) && Divided(p, m, r)
            && offered == r.excludedFeeInputAmount + r.amountLeft
            && (if m.feesOnInput
                then f.fromIncluded(amountIn).Ok?
                     && TakenOff(amountIn - offered, amountIn, f.fromIncluded(amountIn).value)
                else offered == amountIn)
            && FromPartialAmountIn(p, direction, offered)
               == Ok(FromInput(
                       r.outputAmount + (if m.feesOnInput then 0 else FeeTotal(r.fees)), r.nextSqrtPrice,
                       r.amountLeft))
  {
    hide FromPartialAmountIn, ChargeIncluded, ChargeExcluded, Split, TakenOff, PutOn;
    var numerator := f.fromIncluded(amountIn).value;
    var input := InputAfterFee(p, m, numerator, amountIn).value;
    offered := input.amount;
    var move := FromPartialAmountIn(p, direction, offered).value;
    LeftAtMostOffered(p, direction, offered);
    if m.feesOnInput {
      ChargeIncludedIs(p, m, numerator, amountIn);
      if move.amountLeft > 0 {
        ChargeExcludedIs(p, m, f, offered - move.amountLeft);
      }
    } else {
      ChargeIncludedIs(p, m, numerator, move.outputAmount);
    }
  }
}

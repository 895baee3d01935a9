/** Exact-input and exact-output quotes undo each other, fees included, whenever the fee rate does not
    depend on the amount. */
module SwapAdjoint {
  import opened Checked
  import opened Division
  import opened UtilsMath
  import opened Curve
  import opened Fees
  import opened PoolState
  import opened SwapQuotes
  import opened SwapProofs
  import RateLimiter

  // ----- When the curve functions are defined -----

  /** A known cover bounds the amount that is asked for. */
  lemma DeltaADefined(lower: U128, upper: U128, liquidity: U128, k: U64)
    requires 0 < lower <= upper && CoversA(liquidity, lower, upper, k)
    ensures DeltaA(lower, upper, liquidity, Up).Ok? && DeltaA(lower, upper, liquidity, Up).value <= k
  {
    MulStrict(0, lower, upper);
    Magnitude(liquidity, upper - lower);
    CeilAtMost(liquidity * (upper - lower), lower * upper, k);
  }

  lemma Magnitude(x: nat, y: nat)
    ensures 0 <= x * y
  {
  }

  lemma DeltaBDefined(lower: U128, upper: U128, liquidity: U128, k: U64)
    requires lower <= upper && CoversB(liquidity, lower, upper, k)
    ensures DeltaB(lower, upper, liquidity, Up).Ok? && DeltaB(lower, upper, liquidity, Up).value <= k
  {
    CeilAtMost(liquidity * (upper - lower), TWO_128, k);
  }

  lemma PriceAfterOutputBDefined(price: U128, liquidity: U128, amount: U64, target: U128)
    requires liquidity > 0 && target <= price && WithinB(liquidity, target, price, amount)
    ensures NextPriceFromAmountOutB(price, liquidity, amount).Ok?
    ensures target <= NextPriceFromAmountOutB(price, liquidity, amount).value <= price
  {
    CeilAtMost(amount * TWO_128, liquidity, price - target);
  }

  /** The liquidity left after `amount` of token A has gone is positive. */
  lemma LiquidityLeft(l: int, s: int, t: int, k: int)
    requires 0 < l && 0 < s <= t && 0 <= k && k * (s * t) <= l * (t - s)
    ensures 0 < l - k * s <= l && l * s <= t * (l - k * s)
  {
    assert t * (l - k * s) == l * t - k * (s * t);
    assert l * (t - s) == l * t - l * s;
    MulStrict(0, l, s);
    if l - k * s <= 0 {
      MulMono(l - k * s, 0, t);
    }
    Magnitude(k, s);
  }

  lemma PriceAfterOutputADefined(price: U128, liquidity: U128, amount: U64, target: U128)
    requires 0 < price <= target && liquidity > 0 && WithinA(liquidity, price, target, amount)
    ensures NextPriceFromAmountOutA(price, liquidity, amount).Ok?
    ensures price <= NextPriceFromAmountOutA(price, liquidity, amount).value <= target
  {
    if amount > 0 {
      LiquidityLeft(liquidity, price, target, amount);
      Magnitude(liquidity, price);
      CeilAtMost(liquidity * price, liquidity - amount * price, target);
      OutputADefined(price, liquidity, amount, target);
    }
    if NextPriceFromAmountOutA(price, liquidity, amount).Ok? {
      PriceAfterOutputA(price, liquidity, amount, target);
    }
  }

  lemma OutputADefined(price: U128, liquidity: U128, amount: U64, target: U128)
    requires 0 < liquidity - amount * price <= liquidity
    requires 0 <= liquidity * price
    requires CeilDiv(liquidity * price, liquidity - amount * price) <= target
    ensures NextPriceFromAmountOutA(price, liquidity, amount).Ok?
  {
  }

  // ----- The curve alone -----

  lemma WithinAFurther(l: nat, s: nat, t: nat, u: nat, k: nat)
    requires 0 < s <= t <= u && WithinA(l, s, t, k)
    ensures WithinA(l, s, u, k)
  {
    assert l * (t - s) - k * (s * t) == (l - k * s) * t - l * s;
    assert l * (u - s) - k * (s * u) == (l - k * s) * u - l * s;
    Magnitude(l, s);
    if l - k * s < 0 {
      MulStrict(l - k * s, 0, t);
    }
    MulMono(t, u, l - k * s);
  }

  lemma WithinBFurther(l: nat, s: nat, t: nat, u: nat, k: nat)
    requires s <= t <= u && WithinB(l, t, u, k)
    ensures WithinB(l, s, u, k)
  {
    MulMono(u - t, u - s, l);
  }

  lemma CoversAShorter(l: nat, s: nat, t: nat, u: nat, k: nat)
    requires 0 < s <= t <= u && CoversA(l, s, u, k)
    ensures CoversA(l, t, u, k)
  {
    MulMono(s, t, u);
    MulMono(s * u, t * u, k);
    MulMono(u - t, u - s, l);
  }

  lemma CoversBShorter(l: nat, s: nat, t: nat, u: nat, k: nat)
    requires s <= t <= u && CoversB(l, s, u, k)
    ensures CoversB(l, s, t, k)
  {
    MulMono(t - s, u - s, l);
  }

  /** Offering at least what an output costs yields at least that output. */
  lemma OutputThenInput(p: PoolData, direction: TradeDirection, amountOut: U64, offered: U64)
    requires InRange(p) && FromAmountOut(p, direction, amountOut).Ok?
    requires FromAmountOut(p, direction, amountOut).value.inputAmount <= offered
    requires FromAmountIn(p, direction, offered).Ok?
    ensures amountOut <= FromAmountIn(p, direction, offered).value.outputAmount
  {
    var there := FromAmountOut(p, direction, amountOut).value;
    var back := FromAmountIn(p, direction, offered).value;
    var s, near, far := p.sqrtPrice, there.nextSqrtPrice, back.nextSqrtPrice;
    FromAmountOutFair(p, direction, amountOut);
    FromAmountInFair(p, direction, offered);
    match direction
    case AtoB =>
      MoreCoversA(p.liquidity, near, s, there.inputAmount, offered);
      PriceAfterInputA(s, p.liquidity, offered, near);
      WithinBFurther(p.liquidity, far, near, s, amountOut);
      DeltaBRounding(far, s, p.liquidity, Down, amountOut);
    case BtoA =>
      PriceAfterInputB(s, p.liquidity, offered, near);
      WithinAFurther(p.liquidity, s, near, far, amountOut);
      DeltaARounding(s, far, p.liquidity, Down, amountOut);
  }

  lemma MoreCoversA(l: nat, s: nat, t: nat, k: int, m: int)
    requires CoversA(l, s, t, k) && k <= m
    ensures CoversA(l, s, t, m)
  {
    Magnitude(s, t);
    MulMono(k, m, s * t);
  }

  /** Asking for at most what an input yields is always possible and costs at most that input. */
  lemma InputThenOutput(p: PoolData, direction: TradeDirection, amountIn: U64, wanted: U64)
    requires InRange(p) && FromAmountIn(p, direction, amountIn).Ok?
    requires wanted <= FromAmountIn(p, direction, amountIn).value.outputAmount
    ensures FromAmountOut(p, direction, wanted).Ok?
    ensures FromAmountOut(p, direction, wanted).value.inputAmount <= amountIn
  {
    var there := FromAmountIn(p, direction, amountIn).value;
    var s, far := p.sqrtPrice, there.nextSqrtPrice;
    FromAmountInFair(p, direction, amountIn);
    match direction
    case AtoB =>
      DeltaBRounding(far, s, p.liquidity, Down, wanted);
      PriceAfterOutputBDefined(s, p.liquidity, wanted, far);
      var near := NextPriceFromAmountOutB(s, p.liquidity, wanted).value;
      CoversAShorter(p.liquidity, far, near, s, amountIn);
      DeltaADefined(near, s, p.liquidity, amountIn);
    case BtoA =>
      DeltaARounding(s, far, p.liquidity, Down, wanted);
      PriceAfterOutputADefined(s, p.liquidity, wanted, far);
      var near := NextPriceFromAmountOutA(s, p.liquidity, wanted).value;
      CoversBShorter(p.liquidity, s, near, far, amountIn);
      DeltaBDefined(s, near, p.liquidity, amountIn);
  }

  // ----- With fees -----

  /** The fee rate is the same whatever the amount. */
  ghost predicate Flat(f: TradingFee, n: U64) {
    && n < FEE_DENOMINATOR
    && (forall x: U64 :: f.fromIncluded(x) == Ok(n))
    && (forall x: U64 :: f.fromExcluded(x) == Ok(n))
  }

  /** A fee schedule, or a rate limiter that does not apply, gives such a rate. */
  lemma FlatRate(p: PoolData, currentPoint: U64, direction: TradeDirection, cap: U64)
    requires cap < FEE_DENOMINATOR
    requires p.baseFee.Limit? ==>
               !RateLimiter.IsApplied(p.baseFee.limiter, currentPoint, p.activationPoint, direction)
    ensures var f := TradingFeeOf(p, currentPoint, direction, cap);
            f.fromIncluded(0).Ok? ==> Flat(f, f.fromIncluded(0).value)
  {
  }

  /** Taking the fee off keeps at least `kept` exactly when the amount is at least what putting the
      fee on `kept` asks for, and putting it on then succeeds. */
  lemma ChargesAdjoint(p: PoolData, m: FeeMode, f: TradingFee, n: U64, included: U64, kept: U64)
    requires Flat(f, n) && ArePercents(p.shares)
    ensures ChargeIncluded(p, m, n, included).Ok?
    ensures kept <= ChargeIncluded(p, m, n, included).value.amount
            <==> ChargeExcluded(p, m, f, kept).Ok? && ChargeExcluded(p, m, f, kept).value.amount <= included
  {
    hide Split, FloorDiv, CeilDiv;
    ExcludedFeeIsFloor(n, included);
    SplitConserves(p.shares, ExcludedFee(n, included).value.fee, m.hasReferral, p.hasPartner);
    FeeAdjoint(n, included, kept);
    IncludedFeeIsCeil(n, kept);
    if IncludedFee(n, kept).Ok? {
      SplitConserves(p.shares, IncludedFee(n, kept).value.fee, m.hasReferral, p.hasPartner);
    }
  }

  /** Feeding the input of an exact-output quote to the exact-input quote yields at least the output
      asked for, as long as that swap is possible at all. */
  lemma ExactOutThenIn(p: PoolData, f: TradingFee, n: U64, amountOut: U64, m: FeeMode, direction: TradeDirection)
    requires InRange(p) && ArePercents(p.shares) && Flat(f, n)
    requires ExactOutput(p, f, amountOut, m, direction).Ok?
    requires ExactInput(
               p, f, ExactOutput(p, f, amountOut, m, direction).value.includedFeeInputAmount, m,
               direction).Ok?
    ensures var paid := ExactOutput(p, f, amountOut, m, direction).value.includedFeeInputAmount;
            amountOut <= ExactInput(p, f, paid, m, direction).value.outputAmount
  {
    hide FromAmountIn, FromAmountOut, ChargeIncluded, ChargeExcluded;
    var paid := ExactOutput(p, f, amountOut, m, direction).value.includedFeeInputAmount;
    var curveOut := ChargeIf(p, m, f, !m.feesOnInput, amountOut, NO_FEES).value.amount;
    var curveIn := InputAfterFee(p, m, n, paid).value.amount;
    if m.feesOnInput {
      ChargesAdjoint(p, m, f, n, paid, FromAmountOut(p, direction, curveOut).value.inputAmount);
    }
    OutputThenInput(p, direction, curveOut, curveIn);
    if !m.feesOnInput {
      ChargesAdjoint(p, m, f, n, FromAmountIn(p, direction, curveIn).value.outputAmount, amountOut);
    }
  }

  /** Asking for the output of an exact-input quote is always possible and costs at most the original
      input. */
  lemma ExactInThenOut(p: PoolData, f: TradingFee, n: U64, amountIn: U64, m: FeeMode, direction: TradeDirection)
    requires InRange(p) && ArePercents(p.shares) && Flat(f, n)
    requires ExactInput(p, f, amountIn, m, direction).Ok?
    ensures var got := ExactInput(p, f, amountIn, m, direction).value.outputAmount;
            && ExactOutput(p, f, got, m, direction).Ok?
            && ExactOutput(p, f, got, m, direction).value.includedFeeInputAmount <= amountIn
  {
    hide FromAmountIn, FromAmountOut, ChargeIncluded, ChargeExcluded;
    var got := ExactInput(p, f, amountIn, m, direction).value.outputAmount;
    var curveIn := InputAfterFee(p, m, n, amountIn).value.amount;
    var released := FromAmountIn(p, direction, curveIn).value.outputAmount;
    if !m.feesOnInput {
      ChargesAdjoint(p, m, f, n, released, got);
    }
    var curveOut := ChargeIf(p, m, f, !m.feesOnInput, got, NO_FEES).value.amount;
    InputThenOutput(p, direction, curveIn, curveOut);
    if m.feesOnInput {
      ChargesAdjoint(p, m, f, n, amountIn, FromAmountOut(p, direction, curveOut).value.inputAmount);
    }
  }

  /** A partial fill never charges more than the input offered. */
  lemma PartialChargesAtMostOffered(
      p: PoolData, f: TradingFee, n: U64, amountIn: U64, m: FeeMode, direction: TradeDirection)
    requires ArePercents(p.shares) && Flat(f, n)
    requires PartialInput(p, f, amountIn, m, direction).Ok?
    ensures PartialInput(p, f, amountIn, m, direction).value.includedFeeInputAmount <= amountIn
  {
    hide FromPartialAmountIn, ChargeIncluded, ChargeExcluded, OutputAfterFee;
    var input := InputAfterFee(p, m, n, amountIn).value;
    var move := FromPartialAmountIn(p, direction, input.amount).value;
    LeftAtMostOffered(p, direction, input.amount);
    if m.feesOnInput {
      ChargesAdjoint(p, m, f, n, amountIn, input.amount - move.amountLeft);
    }
  }
}

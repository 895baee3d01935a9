/** What rate a swap is charged: the base fee of the moment, the fee for volatility on top, and the cap. */
module TradingFees {
  import opened Checked
  import opened Division
  import opened Fees
  import opened DynamicFee
  import opened PoolState
  import opened SwapQuotes
  import opened FeeScheduler
  import opened RateLimiter
  import opened TieredFee
  import opened RateLimiterProofs

  // ----- The fee for volatility -----

  /** The square of the accumulator times the control, scaled down and rounded up; zero without a
      dynamic fee. */
  ghost predicate ChargesVolatility(d: DynamicFeeData, v: int) {
    var weight := d.volatilityAccumulator * d.binStep * (d.volatilityAccumulator * d.binStep);
    if d.initialized then
      (v - 1) * VARIABLE_FEE_SCALE < weight * d.variableFeeControl <= v * VARIABLE_FEE_SCALE
    else
      v == 0
  }

  lemma VariableFeeIs(d: DynamicFeeData, v: int)
    requires VariableFee(d).Ok?
    ensures ChargesVolatility(d, v) <==> v == VariableFee(d).value
  {
  }

  /** Whichever way it is looked up, the rate is the base fee and the fee for volatility, up to the cap. */
  lemma TradingFeeIs(
      p: PoolData, currentPoint: U64, direction: TradeDirection, cap: U64, amount: U64, v: int)
    requires ChargesVolatility(p.dynamicFee, v)
    ensures var f := TradingFeeOf(p, currentPoint, direction, cap);
            && (f.fromIncluded(amount).Ok? ==>
                  var base := BaseNumeratorFromIncluded(p, currentPoint, direction, amount);
                  base.Ok? && f.fromIncluded(amount).value == Min(cap, base.value + v))
            && (f.fromExcluded(amount).Ok? ==>
                  var base := BaseNumeratorFromExcluded(p, currentPoint, direction, amount);
                  base.Ok? && f.fromExcluded(amount).value == Min(cap, base.value + v))
  {
    hide VariableFee, ChargesVolatility, BaseFeeNumerator, NumeratorFromIncluded, NumeratorFromExcluded;
    if VariableFee(p.dynamicFee).Ok? {
      VariableFeeIs(p.dynamicFee, v);
    }
  }

  // ----- The base fee -----

  /** The limiter charges its tiers on token B coming in, from activation on and for as long as it is
      set to; at any other time, and in the other direction, the cliff fee. */
  lemma LimiterFee(p: PoolData, currentPoint: U64, direction: TradeDirection, included: U64)
    requires p.baseFee.Limit? && Sound(TiersOf(p.baseFee.limiter)) && IsNonZero(p.baseFee.limiter)
    ensures var l := p.baseFee.limiter;
            var applies := direction.BtoA? && p.activationPoint <= currentPoint
                           && currentPoint - p.activationPoint <= l.maxLimiterDuration;
            var r := BaseNumeratorFromIncluded(p, currentPoint, direction, included);
            && (!applies || included <= l.referenceAmount ==> r == Ok(l.cliffFeeNumerator))
            && (applies && included > l.referenceAmount ==>
                  r == Ok(CeilDiv(TierFee(l, included) * FEE_DENOMINATOR, included)))
            && (!applies ==>
                  BaseNumeratorFromExcluded(p, currentPoint, direction, included) == Ok(l.cliffFeeNumerator))
  {
    hide TierFee, CeilDiv, NumeratorFromExcluded;
    if included > p.baseFee.limiter.referenceAmount {
      NumeratorValue(p.baseFee.limiter, included);
    }
  }

  /** A pool with a schedule charges it, whatever the amount and the direction. */
  lemma ScheduleFee(
      p: PoolData, currentPoint: U64, direction: TradeDirection, amount: U64, k: nat)
    requires p.baseFee.Schedule? && FeeScheduler.Validate(p.baseFee.scheduler).Ok?
    requires PeriodsPassed(p.baseFee.scheduler, currentPoint, p.activationPoint, k)
    ensures var s := p.baseFee.scheduler;
            var included := BaseNumeratorFromIncluded(p, currentPoint, direction, amount);
            var excluded := BaseNumeratorFromExcluded(p, currentPoint, direction, amount);
            && included.Ok? && excluded == included
            && (if s.numberOfPeriod == 0 then included.value == s.cliffFeeNumerator
                else FeeAfter(s, k, included.value))
  {
    hide BaseFeeNumerator, FeeAfter, FeeScheduler.Validate;
    ScheduledFee(p.baseFee.scheduler, currentPoint, p.activationPoint, k);
  }
}

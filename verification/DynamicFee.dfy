/** The volatility dependent part of the fee. */
module DynamicFee {
  import opened Checked
  import opened Division
  import opened UtilsMath
  import opened Curve

  const BASIS_POINT_MAX: U64 := 10_000
  const BIN_STEP_BPS_DEFAULT: U16 := 1
  const BIN_STEP_BPS_U128_DEFAULT: U128 := 1_844_674_407_370_955
  const U24_MAX: U32 := 0xff_ffff
  const VARIABLE_FEE_SCALE: int := 100_000_000_000

  datatype DynamicFeeData = DynamicFeeData(
    initialized: bool,
    maxVolatilityAccumulator: U32,
    variableFeeControl: U32,
    binStep: U16,
    filterPeriod: U16,
    decayPeriod: U16,
    reductionFactor: U16,
    lastUpdateTimestamp: U64,
    binStepU128: U128,
    sqrtPriceReference: U128,
    volatilityAccumulator: U128,
    volatilityReference: U128)

  /** `DynamicFeeParameters::validate` */
  predicate ValidParameters(d: DynamicFeeData) {
    && d.binStep == BIN_STEP_BPS_DEFAULT
    && d.binStepU128 == BIN_STEP_BPS_U128_DEFAULT
    && d.filterPeriod < d.decayPeriod
    && d.reductionFactor <= BASIS_POINT_MAX
    && d.variableFeeControl <= U24_MAX
    && d.maxVolatilityAccumulator <= U24_MAX
  }

  /** `get_delta_bin_id` */
  function DeltaBinId(binStep: U128, priceA: U128, priceB: U128): Result<U128> {
    var upper := if priceA > priceB then priceA else priceB;
    var lower := if priceA > priceB then priceB else priceA;
    var ratio: U128 :- ShlDivCast128(upper, lower);
    var excess: U128 :- Fit128(ratio - TWO_64);
    if binStep == 0 then Err(MathOverflow) else Fit128(FloorDiv(excess, binStep) * 2)
  }

  function VolatilityAfter(d: DynamicFeeData, sqrtPrice: U128): Result<U128> {
    var delta: U128 :- DeltaBinId(d.binStepU128, sqrtPrice, d.sqrtPriceReference);
    var scaled: U128 :- Fit128(delta * BASIS_POINT_MAX);
    var sum: U128 :- Fit128(d.volatilityReference + scaled);
    Ok(if sum <= d.maxVolatilityAccumulator then sum else d.maxVolatilityAccumulator as U128)
  }

  function DecayedVolatility(d: DynamicFeeData): Result<U128> {
    var product: U128 :- Fit128(d.volatilityAccumulator * d.reductionFactor);
    Ok(FloorDiv(product, BASIS_POINT_MAX) as U128)
  }

  /** `update_references` */
  function ReferencesAfter(d: DynamicFeeData, sqrtPrice: U128, now: U64): Result<DynamicFeeData> {
    var elapsed := Monus(now, d.lastUpdateTimestamp);
    if elapsed < d.filterPeriod then
      Ok(d)
    else if elapsed < d.decayPeriod then
      var decayed :- DecayedVolatility(d);
      Ok(d.(sqrtPriceReference := sqrtPrice, volatilityReference := decayed))
    else
      Ok(d.(sqrtPriceReference := sqrtPrice, volatilityReference := 0))
  }

  /** `update_pre_swap` */
  function PreSwap(d: DynamicFeeData, sqrtPrice: U128, now: U64): Result<DynamicFeeData> {
    if d.initialized then ReferencesAfter(d, sqrtPrice, now) else Ok(d)
  }

  /** `update_post_swap` */
  function PostSwap(d: DynamicFeeData, oldPrice: U128, newPrice: U128, now: U64): Result<DynamicFeeData> {
    if d.initialized then
      var accumulator :- VolatilityAfter(d, newPrice);
      var crossed :- DeltaBinId(d.binStepU128, oldPrice, newPrice);
      var d' := d.(volatilityAccumulator := accumulator);
      Ok(if crossed > 0 then d'.(lastUpdateTimestamp := now) else d')
    else
      Ok(d)
  }

  /** `get_variable_fee` */
  function VariableFee(d: DynamicFeeData): Result<U128> {
    if d.initialized then
      var vfa: U128 :- Fit128(d.volatilityAccumulator * d.binStep);
      if vfa * vfa >= TWO_128 then
        Err(Panic)
      else
        var fee: U128 :- Fit128(vfa * vfa * d.variableFeeControl);
        var rounded: U128 :- Fit128(fee + (VARIABLE_FEE_SCALE - 1));
        Ok(FloorDiv(rounded, VARIABLE_FEE_SCALE) as U128)
    else
      Ok(0)
  }

  // ----- What every run keeps -----

  ghost predicate InGlobalRange(price: int) {
    MIN_SQRT_PRICE <= price <= MAX_SQRT_PRICE
  }

  /** Until the first swap that goes through, the reference price is unset and no time is recorded. */
  ghost predicate Bounded(d: DynamicFeeData) {
    d.initialized ==>
      && ValidParameters(d)
      && d.volatilityAccumulator <= d.maxVolatilityAccumulator
      && d.volatilityReference <= d.maxVolatilityAccumulator
      && (d.sqrtPriceReference == 0 || InGlobalRange(d.sqrtPriceReference))
      && (d.sqrtPriceReference == 0 ==> d.lastUpdateTimestamp == 0)
  }

  const MAX_RATIO: int := TWO_128 - 1

  /** Between any two prices of the global range the ratio fits Q64.64, just barely. */
  lemma RatioFits(upper: U128, lower: U128)
    requires InGlobalRange(upper) && InGlobalRange(lower) && lower <= upper
    ensures TWO_64 <= FloorDiv(upper * TWO_64, lower) <= MAX_RATIO
  {
    MulMono(lower, upper, TWO_64);
    FloorAtLeast(upper * TWO_64, lower, TWO_64);
    MulMono(MIN_SQRT_PRICE, lower, TWO_128);
    FloorBelow(upper * TWO_64, lower, TWO_128);
  }

  lemma DeltaBinIdFits(priceA: U128, priceB: U128)
    requires InGlobalRange(priceA) && InGlobalRange(priceB)
    ensures DeltaBinId(BIN_STEP_BPS_U128_DEFAULT, priceA, priceB).Ok?
    ensures DeltaBinId(BIN_STEP_BPS_U128_DEFAULT, priceA, priceB).value * BASIS_POINT_MAX + U24_MAX
            < TWO_128
  {
    if priceA > priceB {
      RatioFits(priceA, priceB);
    } else {
      RatioFits(priceB, priceA);
    }
  }

  lemma PreSwapBounded(d: DynamicFeeData, sqrtPrice: U128, now: U64)
    requires Bounded(d) && InGlobalRange(sqrtPrice)
    ensures PreSwap(d, sqrtPrice, now).Ok? && Bounded(PreSwap(d, sqrtPrice, now).value)
  {
    if d.initialized {
      MulMono(d.reductionFactor, BASIS_POINT_MAX, d.volatilityAccumulator);
      FloorBelow(
        d.volatilityAccumulator * d.reductionFactor, BASIS_POINT_MAX, d.volatilityAccumulator + 1);
    }
  }

  /** After a swap the update succeeds exactly when a reference price has been set, and keeps the
      accumulator at most its maximum. */
  lemma PostSwapBounded(d: DynamicFeeData, oldPrice: U128, newPrice: U128, now: U64)
    requires Bounded(d) && InGlobalRange(oldPrice) && InGlobalRange(newPrice)
    ensures PostSwap(d, oldPrice, newPrice, now).Ok? <==> (d.initialized ==> d.sqrtPriceReference != 0)
    ensures PostSwap(d, oldPrice, newPrice, now).Ok? ==>
              Bounded(PostSwap(d, oldPrice, newPrice, now).value)
  {
    if d.initialized {
      DeltaBinIdFits(oldPrice, newPrice);
      if d.sqrtPriceReference != 0 {
        DeltaBinIdFits(newPrice, d.sqrtPriceReference);
      }
    }
  }

  /** The `unwrap` never panics and the variable fee stays far below 128 bits. */
  lemma VariableFeeBounded(d: DynamicFeeData)
    requires Bounded(d)
    ensures VariableFee(d).Ok? && VariableFee(d).value < TWO_64
  {
    if d.initialized {
      var v: int := d.volatilityAccumulator;
      assert d.volatilityAccumulator * d.binStep == v;
      SquareMono(v, U24_MAX);
      MulMono(v * v, U24_MAX * U24_MAX, d.variableFeeControl);
      MulMono(0, v * v, d.variableFeeControl);
      SquareMono(0, v);
      FloorBelow(v * v * d.variableFeeControl + (VARIABLE_FEE_SCALE - 1), VARIABLE_FEE_SCALE, TWO_64);
    }
  }

  /** The dynamic part of one whole swap. A pool with no reference price has never recorded a time, so
      the filter period counts from the epoch: the swap is aborted exactly when it comes within that
      period of the epoch and no reference price is known, and never on a clock past it. */
  lemma SwapUpdatesDefined(d: DynamicFeeData, oldPrice: U128, newPrice: U128, now: U64)
    requires Bounded(d) && InGlobalRange(oldPrice) && InGlobalRange(newPrice)
    ensures PreSwap(d, oldPrice, now).Ok?
    ensures PostSwap(PreSwap(d, oldPrice, now).value, oldPrice, newPrice, now).Ok?
            <==> (d.initialized && now < d.filterPeriod ==> d.sqrtPriceReference != 0)
    ensures now >= 0xffff ==> PostSwap(PreSwap(d, oldPrice, now).value, oldPrice, newPrice, now).Ok?
  {
    PreSwapBounded(d, oldPrice, now);
    PostSwapBounded(PreSwap(d, oldPrice, now).value, oldPrice, newPrice, now);
  }

  // ----- What the volatility measures -----

  /** The ratio of two prices, in Q64.64 rounded down, is `k` whole bins above one. */
  ghost predicate BinsApart(binStep: nat, upper: nat, lower: nat, k: nat) {
    (TWO_64 + k * binStep) * lower <= upper * TWO_64 < (TWO_64 + (k + 1) * binStep) * lower
  }

  /** Between prices in either order the distance is two for every whole bin. */
  lemma BinDistance(binStep: U128, priceA: U128, priceB: U128, k: nat)
    requires DeltaBinId(binStep, priceA, priceB).Ok?
    requires BinsApart(
               binStep, if priceA > priceB then priceA else priceB,
               if priceA > priceB then priceB else priceA, k)
    ensures DeltaBinId(binStep, priceA, priceB).value == 2 * k
  {
    var upper, lower := if priceA > priceB then priceA else priceB, if priceA > priceB then priceB else priceA;
    var ratio := FloorDiv(upper * TWO_64, lower);
    FloorAtLeast(upper * TWO_64, lower, TWO_64 + k * binStep);
    FloorBelow(upper * TWO_64, lower, TWO_64 + (k + 1) * binStep);
    FloorAtLeast(ratio - TWO_64, binStep, k);
    FloorBelow(ratio - TWO_64, binStep, k + 1);
  }

  /** After a swap the accumulator is the reference and 20000 for every whole bin between the reference
      price and the new one, up to its maximum; the time is recorded if the swap crossed a bin, and
      nothing else changes. */
  lemma PostSwapMeasures(
      d: DynamicFeeData, oldPrice: U128, newPrice: U128, now: U64, moved: nat, crossed: nat)
    requires PostSwap(d, oldPrice, newPrice, now).Ok?
    requires d.initialized ==>
               && BinsApart(
                    d.binStepU128, if newPrice > d.sqrtPriceReference then newPrice else d.sqrtPriceReference,
                    if newPrice > d.sqrtPriceReference then d.sqrtPriceReference else newPrice, moved)
               && BinsApart(
                    d.binStepU128, if oldPrice > newPrice then oldPrice else newPrice,
                    if oldPrice > newPrice then newPrice else oldPrice, crossed)
    ensures PostSwap(d, oldPrice, newPrice, now).value
            == if !d.initialized then d
               else d.(
                 volatilityAccumulator :=
                   Min(d.volatilityReference + 20_000 * moved, d.maxVolatilityAccumulator),
                 lastUpdateTimestamp := if crossed > 0 then now else d.lastUpdateTimestamp)
  {
    hide DeltaBinId, BinsApart;
    if d.initialized {
      BinDistance(d.binStepU128, newPrice, d.sqrtPriceReference, moved);
      BinDistance(d.binStepU128, oldPrice, newPrice, crossed);
    }
  }

  /** Before a swap the references follow the time since the last one that crossed a bin: within the
      filter period they stay; within the decay period the price is taken over and the volatility
      reduced, rounded down; after that the volatility is forgotten. */
  lemma PreSwapDecays(d: DynamicFeeData, sqrtPrice: U128, now: U64)
    requires PreSwap(d, sqrtPrice, now).Ok?
    ensures var d' := PreSwap(d, sqrtPrice, now).value;
            var elapsed := if d.lastUpdateTimestamp <= now then now - d.lastUpdateTimestamp else 0;
            if !d.initialized || elapsed < d.filterPeriod then
              d' == d
            else
              && d' == d.(sqrtPriceReference := sqrtPrice, volatilityReference := d'.volatilityReference)
              && (if elapsed < d.decayPeriod then
                    d'.volatilityReference * BASIS_POINT_MAX
                    <= d.volatilityAccumulator * d.reductionFactor
                    < (d'.volatilityReference + 1) * BASIS_POINT_MAX
                  else
                    d'.volatilityReference == 0)
  {
  }

  // ----- The struct as the program updates it -----

  class DynamicFeeStruct {
    var initialized: bool
    var maxVolatilityAccumulator: U32
    var variableFeeControl: U32
    var binStep: U16
    var filterPeriod: U16
    var decayPeriod: U16
    var reductionFactor: U16
    var lastUpdateTimestamp: U64
    var binStepU128: U128
    var sqrtPriceReference: U128
    var volatilityAccumulator: U128
    var volatilityReference: U128

    function View(): DynamicFeeData
      reads this
    {
      DynamicFeeData(
        initialized, maxVolatilityAccumulator, variableFeeControl, binStep, filterPeriod,
        decayPeriod, reductionFactor, lastUpdateTimestamp, binStepU128, sqrtPriceReference,
        volatilityAccumulator, volatilityReference)
    }

    constructor (d: DynamicFeeData)
      ensures View() == d
    {
      initialized := d.initialized;
      maxVolatilityAccumulator := d.maxVolatilityAccumulator;
      variableFeeControl := d.variableFeeControl;
      binStep := d.binStep;
      filterPeriod := d.filterPeriod;
      decayPeriod := d.decayPeriod;
      reductionFactor := d.reductionFactor;
      lastUpdateTimestamp := d.lastUpdateTimestamp;
      binStepU128 := d.binStepU128;
      sqrtPriceReference := d.sqrtPriceReference;
      volatilityAccumulator := d.volatilityAccumulator;
      volatilityReference := d.volatilityReference;
    }

    method UpdateVolatilityAccumulator(sqrtPrice: U128) returns (r: Result<Unit>)
      modifies this`volatilityAccumulator
      ensures match VolatilityAfter(old(View()), sqrtPrice)
              case Err(error) => r == Err(error)
              case Ok(v) => r.Ok? && View() == old(View()).(volatilityAccumulator := v)
    {
      var deltaPrice: U128 :- DeltaBinId(binStepU128, sqrtPrice, sqrtPriceReference);
      var scaled: U128 :- Fit128(deltaPrice * BASIS_POINT_MAX);
      var sum: U128 :- Fit128(volatilityReference + scaled);
      volatilityAccumulator := Min(sum, maxVolatilityAccumulator);
      return Ok(Unit);
    }

    method UpdateReferences(sqrtPriceCurrent: U128, currentTimestamp: U64) returns (r: Result<Unit>)
      modifies this`sqrtPriceReference, this`volatilityReference
      ensures match ReferencesAfter(old(View()), sqrtPriceCurrent, currentTimestamp)
              case Err(error) => r == Err(error)
              case Ok(d) => r.Ok? && View() == d
    {
      var elapsed := Monus(currentTimestamp, lastUpdateTimestamp);
      if elapsed >= filterPeriod {
        sqrtPriceReference := sqrtPriceCurrent;
        if elapsed < decayPeriod {
          var product: U128 :- Fit128(volatilityAccumulator * reductionFactor);
          volatilityReference := FloorDiv(product, BASIS_POINT_MAX);
        } else {
          volatilityReference := 0;
        }
      }
      return Ok(Unit);
    }
  }
}

/** The time based base fee: linear or exponential decay from a cliff. */
module FeeScheduler {
  import opened Checked
  import opened Division
  import opened FeeMath
  import opened FeeMathBounds
  import opened Fees

  datatype Mode = Linear | Exponential

  datatype Scheduler = Scheduler(
    cliffFeeNumerator: U64,
    numberOfPeriod: U16,
    periodFrequency: U64,
    reductionFactor: U64,
    mode: Mode)

  function FeeByPeriod(s: Scheduler, period: U64): Result<U64> {
    var period: U16 := if period <= s.numberOfPeriod then period else s.numberOfPeriod;
    match s.mode
    case Linear =>
      var reduction :- Fit64(s.reductionFactor * period);
      Fit64(s.cliffFeeNumerator - reduction)
    case Exponential =>
      FeeInPeriod(s.cliffFeeNumerator, s.reductionFactor, period)
  }

  function BaseFeeNumerator(s: Scheduler, currentPoint: U64, activationPoint: U64): Result<U64> {
    if s.periodFrequency == 0 then
      Ok(s.cliffFeeNumerator)
    else if currentPoint < activationPoint then
      // the alpha vault is buying
      FeeByPeriod(s, s.numberOfPeriod)
    else
      var period := (currentPoint - activationPoint) / s.periodFrequency;
      FeeByPeriod(s, if period <= s.numberOfPeriod then period else s.numberOfPeriod)
  }

  function Validate(s: Scheduler): Result<Unit> {
    var unused := s.numberOfPeriod == 0 && s.periodFrequency == 0 && s.reductionFactor == 0;
    var used := s.numberOfPeriod != 0 && s.periodFrequency != 0 && s.reductionFactor != 0;
    var _ :- Require(unused || used, InvalidFeeScheduler);
    var minFeeNumerator :- FeeByPeriod(s, s.numberOfPeriod);
    var maxFeeNumerator := s.cliffFeeNumerator;
    var _ :- Require(minFeeNumerator < FEE_DENOMINATOR, InvalidFee);
    var _ :- Require(maxFeeNumerator < FEE_DENOMINATOR, InvalidFee);
    Require(
      minFeeNumerator >= MIN_FEE_NUMERATOR && maxFeeNumerator <= MAX_FEE_NUMERATOR_V0,
      ExceedMaxFeeBps)
  }

  lemma LinearInRange(s: Scheduler, period: U16)
    requires s.mode.Linear? && FeeByPeriod(s, s.numberOfPeriod).Ok? && period <= s.numberOfPeriod
    ensures FeeByPeriod(s, period).Ok?
    ensures FeeByPeriod(s, s.numberOfPeriod).value <= FeeByPeriod(s, period).value
    ensures FeeByPeriod(s, period).value <= s.cliffFeeNumerator
  {
    MulMono(period, s.numberOfPeriod, s.reductionFactor);
  }

  lemma QuotientOrder(c: nat, bn: nat, sn: int, bm: nat, sm: int, q: nat)
    requires sn > 0 && sm > 0 && bm * sn <= bn * sm && q * sm <= c * bm
    ensures q * sn <= c * bn
  {
    MulMono(q * sm, c * bm, sn);
    MulMono(bm * sn, bn * sm, c);
    assert (q * sm) * sn == (q * sn) * sm;
    assert (c * bm) * sn == c * (bm * sn);
    assert c * (bn * sm) == (c * bn) * sm;
    CancelLe(q * sn, c * bn, sm);
  }

  /** A later decayed fee is never above an earlier one. */
  lemma DecayedFeeDecreases(cliff: U64, base: nat, n: nat, m: nat)
    requires base <= TWO_64 && n <= m
    ensures DecayedFee(cliff, base, m) <= DecayedFee(cliff, base, n)
  {
    var bn, sn, bm, sm := Exact(base, n), Exact(TWO_64, n), Exact(base, m), Exact(TWO_64, m);
    var q := DecayedFee(cliff, base, m);
    ExactDecreases(base, TWO_64, n, m);
    QuotientOrder(cliff, bn, sn, bm, sm, q);
    FloorAtLeast(cliff * bn, sn, q);
  }

  lemma NegligiblePower(s: int, c: nat, n: nat, e: nat, p: int)
    requires p > 0 && s * e <= n * p && c * n <= s && s > 0
    ensures c * e <= p
  {
    MulMono(s * e, n * p, c);
    assert (s * e) * c == (c * e) * s;
    assert (n * p) * c == (c * n) * p;
    MulMono(c * n, s, p);
    CancelLe(c * e, p, s);
  }

  lemma NegligibleFee(cliff: U64, base: nat, n: U16)
    requires cliff <= MAX_FEE_NUMERATOR_V0 && Approx(0, n, base, n)
    ensures DecayedFee(cliff, base, n) < 2
  {
    var e, p := Exact(base, n), Exact(TWO_64, n);
    MulMono(n, 0x1_0000, cliff);
    NegligiblePower(TWO_64, cliff, n, e, p);
    FloorBelow(cliff * e, p, 2);
  }

  /** If the ladder gave up at an early period, the fee of the last period would be below any valid
      minimum. */
  lemma EarlyPeriodsDefined(cliff: U64, reductionFactor: U64, n: U16, m: U16)
    requires cliff <= MAX_FEE_NUMERATOR_V0 && 0 < reductionFactor <= BASIS_POINT_MAX && n <= m
    requires FeeInPeriod(cliff, reductionFactor, m).Ok?
    requires FeeInPeriod(cliff, reductionFactor, m).value >= MIN_FEE_NUMERATOR
    ensures FeeInPeriod(cliff, reductionFactor, n).Ok?
  {
    var base := DecayBase(reductionFactor);
    FeeInPeriodExact(cliff, reductionFactor, n);
    FeeInPeriodExact(cliff, reductionFactor, m);
    if FeeInPeriod(cliff, reductionFactor, n).Err? {
      DecayedFeeDecreases(cliff, base, n, m);
      NegligibleFee(cliff, base, n);
    }
  }

  /** A validated schedule quotes a fee at every moment, never above the cliff fee and never more
      than one unit below its own minimum. */
  lemma ValidatedScheduleInRange(s: Scheduler, currentPoint: U64, activationPoint: U64)
    requires Validate(s).Ok?
    ensures BaseFeeNumerator(s, currentPoint, activationPoint).Ok?
    ensures var fee := BaseFeeNumerator(s, currentPoint, activationPoint).value;
            && FeeByPeriod(s, s.numberOfPeriod).value - 1 <= fee <= s.cliffFeeNumerator
            && (s.mode.Linear? ==> FeeByPeriod(s, s.numberOfPeriod).value <= fee)
  {
    var elapsed := currentPoint - activationPoint;
    var period: U16 :=
      if s.periodFrequency == 0 || elapsed < 0 || elapsed / s.periodFrequency >= s.numberOfPeriod
      then s.numberOfPeriod
      else elapsed / s.periodFrequency;
    if s.mode.Linear? {
      LinearInRange(s, period);
      LinearInRange(s, s.numberOfPeriod);
    } else if s.reductionFactor > 0 {
      var base := DecayBase(s.reductionFactor);
      var last := s.numberOfPeriod;
      assert s.reductionFactor <= BASIS_POINT_MAX;
      EarlyPeriodsDefined(s.cliffFeeNumerator, s.reductionFactor, period, last);
      FeeInPeriodExact(s.cliffFeeNumerator, s.reductionFactor, period);
      FeeInPeriodExact(s.cliffFeeNumerator, s.reductionFactor, last);
      DecayedFeeDecreases(s.cliffFeeNumerator, base, period, last);
    }
  }

  /** `fee` is what the schedule promises after `k` periods: `k` reductions off the cliff fee, or the
      cliff fee decayed `k` times, rounded down or one less. */
  ghost predicate FeeAfter(s: Scheduler, k: nat, fee: int) {
    match s.mode
    case Linear => fee == s.cliffFeeNumerator - k * s.reductionFactor
    case Exponential =>
      s.reductionFactor <= BASIS_POINT_MAX
      && var decayed := DecayedFee(s.cliffFeeNumerator, DecayBase(s.reductionFactor), k);
         fee <= decayed <= fee + 1
  }

  /** `k` periods have passed since activation, or more than there are. Before activation the schedule
      counts as over. */
  ghost predicate PeriodsPassed(s: Scheduler, currentPoint: int, activationPoint: int, k: nat) {
    if currentPoint < activationPoint then
      k == s.numberOfPeriod
    else
      && k <= s.numberOfPeriod && activationPoint + k * s.periodFrequency <= currentPoint
      && (k < s.numberOfPeriod ==> currentPoint < activationPoint + (k + 1) * s.periodFrequency)
  }

  lemma FeeByPeriodIs(s: Scheduler, k: U16)
    requires Validate(s).Ok? && s.reductionFactor > 0 && k <= s.numberOfPeriod
    requires FeeByPeriod(s, k).Ok?
    ensures FeeAfter(s, k, FeeByPeriod(s, k).value)
  {
    if s.mode.Exponential? {
      FeeInPeriodExact(s.cliffFeeNumerator, s.reductionFactor, k);
      FeeInPeriodExact(s.cliffFeeNumerator, s.reductionFactor, s.numberOfPeriod);
    }
  }

  lemma QuotientFound(a: nat, d: nat, k: nat, n: nat)
    requires 0 < d && k <= n && k * d <= a && (k < n ==> a < (k + 1) * d)
    ensures Min(a / d, n) == k
  {
    assert a / d == FloorDiv(a, d);
    FloorAtLeast(a, d, k);
    if k < n {
      FloorBelow(a, d, k + 1);
    }
  }

  /** So a validated schedule stays between the least and the largest fee of the program, the least less
      one unit in the exponential mode. */
  lemma ScheduleWithinLimits(s: Scheduler, currentPoint: U64, activationPoint: U64)
    requires Validate(s).Ok?
    ensures BaseFeeNumerator(s, currentPoint, activationPoint).Ok?
    ensures MIN_FEE_NUMERATOR - (if s.mode.Linear? then 0 else 1)
            <= BaseFeeNumerator(s, currentPoint, activationPoint).value <= MAX_FEE_NUMERATOR_V0
  {
    hide FeeByPeriod, BaseFeeNumerator;
    ValidatedScheduleInRange(s, currentPoint, activationPoint);
  }

  /** At every moment a validated schedule charges what it promises after the periods that have passed;
      a schedule without periods charges the cliff fee. */
  lemma ScheduledFee(s: Scheduler, currentPoint: U64, activationPoint: U64, k: nat)
    requires Validate(s).Ok? && PeriodsPassed(s, currentPoint, activationPoint, k)
    ensures BaseFeeNumerator(s, currentPoint, activationPoint).Ok?
    ensures var fee := BaseFeeNumerator(s, currentPoint, activationPoint).value;
            if s.numberOfPeriod == 0 then fee == s.cliffFeeNumerator else FeeAfter(s, k, fee)
  {
    hide FeeByPeriod, FeeAfter;
    ValidatedScheduleInRange(s, currentPoint, activationPoint);
    UsedOrNot(s);
    if s.numberOfPeriod > 0 {
      if activationPoint <= currentPoint {
        QuotientFound(currentPoint - activationPoint, s.periodFrequency, k, s.numberOfPeriod);
      }
      FeeByPeriodIs(s, k);
    }
  }

  lemma UsedOrNot(s: Scheduler)
    requires Validate(s).Ok?
    ensures s.numberOfPeriod == 0 || s.periodFrequency == 0 || s.reductionFactor == 0 ==>
              s.numberOfPeriod == 0 && s.periodFrequency == 0 && s.reductionFactor == 0
  {
    hide FeeByPeriod;
  }
}

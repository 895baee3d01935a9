/** The rate limiter charges the tiered fee up to a bounded rounding, and its inverse is well
    defined over the whole quadratic band. */
module RateLimiterProofs {
  import opened Checked
  import opened Division
  import opened UtilsMath
  import opened Fees
  import opened RateLimiter
  import opened TieredFee

  const RATE_PER_BPS: int := 100_000

  ghost function TiersOf(l: Limiter): Tiers {
    Tiers(
      l.cliffFeeNumerator, RATE_PER_BPS * l.feeIncrementBps, RATE_PER_BPS * l.maxFeeBps,
      l.referenceAmount)
  }

  lemma ToNumeratorValue(bps: U32)
    ensures ToNumerator(bps) == Ok(RATE_PER_BPS * bps)
  {
    QuotientIs(bps * FEE_DENOMINATOR, MAX_BASIS_POINT, RATE_PER_BPS * bps);
  }

  /** Validation accepts only limiters whose tiers make sense; in particular an all-zero limiter is
      refused, because its cliff fee would exceed its maximum. */
  lemma ValidatedIsSound(l: Limiter, collect: CollectFeeMode, activation: ActivationType)
    requires Validate(l, collect, activation).Ok?
    ensures collect.OnlyB? && IsNonZero(l) && Sound(TiersOf(l))
    ensures l.maxLimiterDuration
            <= if activation.Slot? then MAX_RATE_LIMITER_DURATION_IN_SLOTS
               else MAX_RATE_LIMITER_DURATION_IN_SECONDS
  {
    ToNumeratorValue(l.maxFeeBps);
    ToNumeratorValue(l.feeIncrementBps);
  }

  lemma MaxIndexIsLastTier(l: Limiter)
    requires Sound(TiersOf(l))
    ensures MaxIndex(l) == Ok(LastTier(TiersOf(l)))
  {
    ToNumeratorValue(l.maxFeeBps);
    ToNumeratorValue(l.feeIncrementBps);
  }

  /** The tiered fee of an input: the sum of the marginal rates, rounded up once. */
  ghost function TierFee(l: Limiter, input: nat): nat
    requires Sound(TiersOf(l))
  {
    CeilDiv(TierSum(TiersOf(l), input), FEE_DENOMINATOR)
  }

  lemma TierFeeBounds(l: Limiter, input: nat)
    requires Sound(TiersOf(l))
    ensures TierFee(l, input) <= CeilDiv(input, 2) <= input
  {
    var t, d := TiersOf(l), FEE_DENOMINATOR as int;
    SumBounds(t, input);
    MulMono(t.top, MAX_FEE_NUMERATOR_V0, input);
    CeilAtMost(TierSum(t, input), d, CeilDiv(input, 2));
    CeilAtMost(input, 2, input);
  }

  lemma NumeratorUsesSum(l: Limiter, input: U64)
    requires Sound(TiersOf(l)) && l.referenceAmount < input
    ensures NumeratorFromIncluded(l, input) == NumeratorFromFee(TierSum(TiersOf(l), input), input)
  {
    var x0 := l.referenceAmount as int;
    ToNumeratorValue(l.maxFeeBps);
    ToNumeratorValue(l.feeIncrementBps);
    MaxIndexIsLastTier(l);
    var a := FloorDiv(input - x0, x0);
    assert (a + 1) * x0 == a * x0 + x0;
    ClosedFormIsSum(TiersOf(l), input, a, input - x0 - a * x0);
  }

  /** Above the reference amount the numerator is the tiered fee over the input, rounded up; it is
      always defined and at most 100%. */
  lemma NumeratorValue(l: Limiter, input: U64)
    requires Sound(TiersOf(l)) && l.referenceAmount < input
    ensures NumeratorFromIncluded(l, input)
            == Ok(CeilDiv(TierFee(l, input) * FEE_DENOMINATOR, input))
    ensures CeilDiv(TierFee(l, input) * FEE_DENOMINATOR, input) <= FEE_DENOMINATOR
  {
    NumeratorUsesSum(l, input);
    TierFeeBounds(l, input);
    ShareAtMostAll(TierFee(l, input), input);
  }

  lemma ShareAtMostAll(fee: nat, input: nat)
    requires 0 < input && fee <= input
    ensures CeilDiv(fee * FEE_DENOMINATOR, input) <= FEE_DENOMINATOR
  {
    MulMono(fee, input, FEE_DENOMINATOR);
    CeilAtMost(fee * FEE_DENOMINATOR, input, FEE_DENOMINATOR);
  }

  /** Rounding the fee to a numerator and charging that numerator. */
  lemma Requantise(fee: nat, d: int, n: int, numerator: nat)
    requires d > 0 && n > 0 && numerator == CeilDiv(fee * d, n)
    ensures fee <= CeilDiv(n * numerator, d) <= fee + CeilDiv(n - 1, d)
  {
    var extra := CeilDiv(n - 1, d);
    assert numerator * n == n * numerator;
    CancelLe(fee, CeilDiv(n * numerator, d), d);
    assert (fee + extra) * d == fee * d + extra * d;
    CeilAtMost(n * numerator, d, fee + extra);
  }

  /** The fee actually charged lies between the tiered fee and the tiered fee plus the rounding of
      the numerator; what is left is always defined. */
  lemma ChargedFee(l: Limiter, input: U64)
    requires Sound(TiersOf(l)) && input > 0
    ensures NumeratorFromIncluded(l, input).Ok?
    ensures ExcludedFee(NumeratorFromIncluded(l, input).value, input).Ok?
    ensures var charged := ExcludedFee(NumeratorFromIncluded(l, input).value, input).value.fee;
            TierFee(l, input) <= charged <= TierFee(l, input) + CeilDiv(input - 1, FEE_DENOMINATOR)
  {
    if input <= l.referenceAmount {
      SumBounds(TiersOf(l), input);
      ExcludedFeeIsFloor(l.cliffFeeNumerator, input);
    } else {
      NumeratorValue(l, input);
      var numerator := NumeratorFromIncluded(l, input).value;
      ExcludedFeeIsFloor(numerator, input);
      Requantise(TierFee(l, input), FEE_DENOMINATOR, input, numerator);
    }
  }

  // ----- The quadratic band -----

  /** `t * (y - i * t)`, the parabola the inverse solves: twice the reference amount times what a
      fee interpolated between tier ends would leave of `t`. */
  ghost function Parabola(y: int, i: int, t: int): int {
    t * (y - i * t)
  }

  /** Completing the square. */
  lemma ParabolaSquare(y: int, i: int, t: int)
    ensures 4 * i * Parabola(y, i, t) == y * y - (y - 2 * i * t) * (y - 2 * i * t)
  {
    assert 4 * i * (t * (y - i * t)) == 2 * y * (2 * i * t) - (2 * i * t) * (2 * i * t);
  }

  lemma SquareOrder(x: int, y: int)
    requires 0 <= x && 0 <= y
    ensures x <= y ==> x * x <= y * y
    ensures x < y ==> x * x < y * y
  {
    if x <= y {
      SquareMono(x, y);
    }
    if x < y {
      MulMono(x, y, x);
      MulStrict(x, y, y);
    }
  }

  /** A floor root compared with any other number through their squares. */
  lemma RootOrder(n: nat, k: nat)
    ensures k * k <= n ==> k <= FloorSqrt(n)
    ensures n < k * k ==> FloorSqrt(n) < k
  {
    var s := FloorSqrt(n);
    if s < k {
      SquareOrder(s + 1, k);
    } else {
      SquareOrder(k, s);
    }
  }

  lemma DiscriminantBounds(y: int, i: int, z: int, low: int, high: int, weight: int)
    requires i > 0 && z >= 0
    requires Parabola(y, i, low) < z && z + weight <= Parabola(y, i, high)
    ensures var disc := y * y - 4 * i * z;
            && (y - 2 * i * high) * (y - 2 * i * high) + 4 * i * weight <= disc
            && disc < (y - 2 * i * low) * (y - 2 * i * low)
            && disc <= y * y
  {
    ParabolaSquare(y, i, high);
    ParabolaSquare(y, i, low);
    ScaledBounds(i, z, weight, Parabola(y, i, low), Parabola(y, i, high));
    MulMono(0, z, 4 * i);
  }

  lemma RootBetween(disc: int, k: nat, k0: nat, y: nat, gap: int)
    requires k * k + gap <= disc < k0 * k0 && disc <= y * y && k <= y && 2 * y + 1 <= gap
    ensures 0 <= disc && k < FloorSqrt(disc) < k0 && FloorSqrt(disc) <= y
  {
    SquareOrder(0, k);
    assert (k + 1) * (k + 1) == k * k + 2 * k + 1;
    assert (y + 1) * (y + 1) == y * y + 2 * y + 1;
    RootOrder(disc, k + 1);
    RootOrder(disc, k0);
    RootOrder(disc, y + 1);
  }

  /** The discriminant is not negative and its floor root stays strictly between the slopes at the
      two ends of the band. */
  lemma DiscriminantInBand(y: int, i: int, z: int, low: int, high: int, weight: int)
    requires i > 0 && z >= 0 && 0 <= y && 2 * y + 1 <= 4 * i * weight
    requires 0 <= y - 2 * i * high <= y && 0 < y - 2 * i * low
    requires Parabola(y, i, low) < z && z + weight <= Parabola(y, i, high)
    ensures y * y - 4 * i * z >= 0
    ensures y - 2 * i * high < FloorSqrt(y * y - 4 * i * z) < y - 2 * i * low
    ensures FloorSqrt(y * y - 4 * i * z) <= y
  {
    DiscriminantBounds(y, i, z, low, high, weight);
    RootBetween(y * y - 4 * i * z, y - 2 * i * high, y - 2 * i * low, y, 4 * i * weight);
  }

  lemma ScaledBounds(i: int, z: int, weight: int, low: int, high: int)
    requires i > 0 && low < z && z + weight <= high
    ensures 4 * i * low < 4 * i * z
    ensures 4 * i * z + 4 * i * weight <= 4 * i * high
  {
    MulStrict(low, z, 4 * i);
    MulMono(z + weight, high, 4 * i);
  }

  /** The rounded root lies in the band, and the parabola there exceeds the target by less than one
      unit of the excluded amount. */
  lemma RootInBand(y: int, i: int, z: int, low: nat, high: nat, weight: int)
    requires i > 0 && z >= 0 && 0 <= y && 2 * y + 1 <= 4 * i * weight
    requires 0 <= y - 2 * i * high && 0 < y - 2 * i * low
    requires Parabola(y, i, low) < z && z + weight <= Parabola(y, i, high)
    ensures SmallerRoot(Quadratic(i, y, z)).Ok?
    ensures var root := SmallerRoot(Quadratic(i, y, z)).value;
            low <= root < high && Parabola(y, i, root) < z + weight && 2 * i * root <= y
  {
    MulMono(0, high, 2 * i);
    DiscriminantInBand(y, i, z, low, high, weight);
    var disc := y * y - 4 * i * z;
    assert Quadratic(i, y, z).Discriminant() == disc;
    var s := FloorSqrt(disc);
    var root := FloorDiv(y - s, 2 * i);
    assert root * (2 * i) == 2 * i * root;
    FloorBelow(y - s, 2 * i, high);
    FloorAtLeast(y - s, 2 * i, low);
    ParabolaAtRoot(y, i, z, s, root, weight);
  }

  lemma ParabolaAtRoot(y: int, i: int, z: int, s: nat, root: int, weight: int)
    requires i > 0 && IsFloorSqrt(y * y - 4 * i * z, s) && s <= y - 2 * i * root && s <= y
    requires 2 * y + 1 <= 4 * i * weight
    ensures Parabola(y, i, root) < z + weight
  {
    var p := Parabola(y, i, root);
    ParabolaSquare(y, i, root);
    SquareOrder(s, y - 2 * i * root);
    assert (s + 1) * (s + 1) == s * s + 2 * s + 1;
    assert 4 * i * p < 4 * i * z + 4 * i * weight;
    CancelFactor(4 * i, p, z, weight);
  }

  lemma CancelFactor(f: int, p: int, z: int, weight: int)
    requires f > 0 && f * p < f * z + f * weight
    ensures p < z + weight
  {
    assert (z + weight) * f == f * z + f * weight;
    CancelLt(p, z + weight, f);
  }

  // ----- The parabola bounds what a limiter leaves -----

  ghost function Slope(t: Tiers): int {
    (2 * FEE_DENOMINATOR + t.i - 2 * t.c) * t.x0
  }

  lemma SeriesScaled(x0: int, c: int, i: int, k: int, series: int, p: int)
    requires 2 * series == 2 * (c * k) + i * (k * (k - 1)) && p == k * x0
    ensures 2 * x0 * (x0 * series) == 2 * c * x0 * p + i * (p * (p - x0))
  {
    var square := x0 * x0;
    assert 2 * x0 * (x0 * series) == square * (2 * series);
    SquareOfTiers(x0, c, k);
    SquareOfSteps(x0, i, k);
    Distribute(square, 2 * (c * k), i * (k * (k - 1)));
  }

  lemma SquareOfTiers(x0: int, c: int, k: int)
    ensures (x0 * x0) * (2 * (c * k)) == 2 * c * x0 * (k * x0)
  {
  }

  lemma SquareOfSteps(x0: int, i: int, k: int)
    ensures (x0 * x0) * (i * (k * (k - 1))) == i * ((k * x0) * (k * x0 - x0))
  {
    assert (x0 * x0) * (k * (k - 1)) == (k * x0) * (k * x0 - x0);
    Swap(x0 * x0, i, k * (k - 1));
  }

  lemma Swap(x: int, y: int, z: int)
    ensures x * (y * z) == y * (x * z)
  {
  }

  lemma ChordIdentity(x0: int, c: int, i: int, p: int, m: int)
    ensures 2 * c * x0 * p + i * (p * (p - x0)) + (2 * c * x0 * m + 2 * i * (p * m))
            == (p + m) * (2 * c * x0 + i * (p + m - x0)) + i * (m * (x0 - m))
  {
    assert (p + m) * (2 * c * x0 + i * (p + m - x0))
        == 2 * c * x0 * p + 2 * c * x0 * m + i * ((p + m) * (p + m - x0));
    assert (p + m) * (p + m - x0) == p * (p - x0) + 2 * (p * m) - m * (x0 - m);
  }

  lemma PartialTier(x0: int, c: int, i: int, k: int, m: int)
    ensures 2 * x0 * (m * (c + i * k)) == 2 * c * x0 * m + 2 * i * ((k * x0) * m)
  {
  }

  lemma ChordOrder(x0: int, c: int, i: int, k: int, m: int, series: int, sum: int)
    requires 2 * series == 2 * (c * k) + i * (k * (k - 1)) && 0 <= m <= x0 && 0 <= i
    requires sum == x0 * series + m * (c + i * k)
    ensures (k * x0 + m) * (2 * c * x0 + i * (k * x0 + m - x0)) <= 2 * x0 * sum
  {
    var p := k * x0;
    SeriesScaled(x0, c, i, k, series, p);
    PartialTier(x0, c, i, k, m);
    ChordIdentity(x0, c, i, p, m);
    MulMono(0, m, x0 - m);
    MulMono(0, m * (x0 - m), i);
    Distribute(2 * x0, x0 * series, m * (c + i * k));
  }

  lemma SumAtPoint(t: Tiers, k: nat, m: nat)
    requires Sound(t) && m <= t.x0 && (k <= LastTier(t) || (k == LastTier(t) + 1 && m == 0))
    ensures TierSum(t, k * t.x0 + m) == t.x0 * RateSeries(t, k) + m * (t.c + t.i * k)
  {
    hide TierRate, TierSum, RateSeries, LastTier;
    SumOfTiers(t, k);
    if m > 0 {
      SumInTier(t, k, m);
      RatesBelowLast(t, k);
    }
  }

  /** The tier a unit count falls into. */
  lemma TierAndRest(n: nat, x0: int, edge: nat) returns (k: nat, m: nat)
    requires x0 > 0 && n <= (edge + 1) * x0
    ensures n == k * x0 + m && m <= x0 && (k <= edge || (k == edge + 1 && m == 0))
  {
    k := FloorDiv(n, x0);
    m := n - k * x0;
    CancelLe(k, edge + 1, x0);
  }

  /** The piecewise linear tiered fee lies above the parabola through its corners. */
  lemma ChordAboveParabola(t: Tiers, n: nat)
    requires Sound(t) && n <= (LastTier(t) + 1) * t.x0
    ensures n * (2 * t.c * t.x0 + t.i * (n - t.x0)) <= 2 * t.x0 * TierSum(t, n)
  {
    var k, m := TierAndRest(n, t.x0, LastTier(t));
    RateSeriesDoubled(t, k);
    SumAtPoint(t, k, m);
    ChordOrder(t.x0, t.c, t.i, k, m, RateSeries(t, k), TierSum(t, n));
  }

  /** The limiter never leaves more than the tiered fee would before rounding. */
  lemma LeftBelowExact(l: Limiter, n: U64)
    requires Sound(TiersOf(l)) && 0 < n
    ensures ExcludedAmount(l, n).Ok? && ExcludedAmount(l, n).value <= n
    ensures ExcludedAmount(l, n).value * FEE_DENOMINATOR
            <= n * FEE_DENOMINATOR - TierSum(TiersOf(l), n)
  {
    ChargedFee(l, n);
    var charged := ExcludedFee(NumeratorFromIncluded(l, n).value, n).value.fee;
    MulMono(TierFee(l, n), charged, FEE_DENOMINATOR);
  }

  /** What the limiter leaves of `n`, scaled, never exceeds the parabola. */
  lemma LeftBelowParabola(l: Limiter, n: U64)
    requires Sound(TiersOf(l)) && 0 < n <= (LastTier(TiersOf(l)) + 1) * l.referenceAmount
    ensures ExcludedAmount(l, n).Ok?
    ensures 2 * FEE_DENOMINATOR * l.referenceAmount * ExcludedAmount(l, n).value
            <= Parabola(Slope(TiersOf(l)), TiersOf(l).i, n)
  {
    var t := TiersOf(l);
    LeftBelowExact(l, n);
    ChordAboveParabola(t, n);
    LeftArithmetic(
      FEE_DENOMINATOR, t.x0, t.c, t.i, n, TierSum(t, n), ExcludedAmount(l, n).value);
  }

  lemma LeftArithmetic(d: int, x0: int, c: int, i: int, n: int, sum: int, left: int)
    requires d > 0 && x0 > 0
    requires left * d <= n * d - sum
    requires n * (2 * c * x0 + i * (n - x0)) <= 2 * x0 * sum
    ensures 2 * d * x0 * left <= n * ((2 * d + i - 2 * c) * x0 - i * n)
  {
    MulMono(left * d, n * d - sum, 2 * x0);
    assert (left * d) * (2 * x0) == 2 * d * x0 * left;
    assert (n * d - sum) * (2 * x0) == 2 * d * x0 * n - 2 * x0 * sum;
    assert n * ((2 * d + i - 2 * c) * x0 - i * n)
        == 2 * d * x0 * n - n * (2 * c * x0 + i * (n - x0));
  }

  /** At the reference amount the parabola is reached up to one unit. */
  lemma LeftAtReference(l: Limiter)
    requires Sound(TiersOf(l))
    ensures ExcludedAmount(l, l.referenceAmount).Ok?
    ensures Parabola(Slope(TiersOf(l)), TiersOf(l).i, l.referenceAmount)
            < 2 * FEE_DENOMINATOR * l.referenceAmount
              * (ExcludedAmount(l, l.referenceAmount).value + 1)
  {
    var d, x0, c := FEE_DENOMINATOR as int, l.referenceAmount as int, l.cliffFeeNumerator as int;
    ExcludedFeeIsFloor(l.cliffFeeNumerator, l.referenceAmount);
    var left := ExcludedAmount(l, l.referenceAmount).value;
    ReferenceArithmetic(d, x0, c, TiersOf(l).i, left);
  }

  lemma ReferenceArithmetic(d: int, x0: int, c: int, i: int, left: int)
    requires x0 > 0 && x0 * (d - c) < (left + 1) * d
    ensures x0 * ((2 * d + i - 2 * c) * x0 - i * x0) < 2 * d * x0 * (left + 1)
  {
    MulStrict(x0 * (d - c), (left + 1) * d, 2 * x0);
    assert (x0 * (d - c)) * (2 * x0) == x0 * ((2 * d + i - 2 * c) * x0 - i * x0);
    assert ((left + 1) * d) * (2 * x0) == 2 * d * x0 * (left + 1);
  }

  // ----- The inverse -----

  /** The weight of one unit of the excluded amount on the scale of the parabola. */
  ghost function UnitWeight(t: Tiers): int {
    2 * FEE_DENOMINATOR * t.x0
  }

  lemma BandEdge(d: int, c: int, i: int, last: int, x0: int, high: int)
    requires x0 > 0 && 0 <= high <= (last + 1) * x0 && 0 < i < d && 2 * (c + i * last) <= d
    ensures 2 * i * high <= (2 * d + i - 2 * c) * x0
  {
    MulMono(high, (last + 1) * x0, 2 * i);
    MulMono(0, 2 * d - 2 * c - 2 * (i * last) - i, x0);
    assert (2 * d + i - 2 * c) * x0 - ((last + 1) * x0) * (2 * i)
        == (2 * d - 2 * c - 2 * (i * last) - i) * x0;
  }

  lemma SlopeBounds(d: int, c: int, i: int, x0: int, y: int)
    requires 0 < c && 2 * c <= d && 0 < i < d && 0 < x0 && y == (2 * d + i - 2 * c) * x0
    ensures d * x0 <= y <= 3 * (d * x0) && 0 < y - 2 * i * x0
  {
    MulMono(d, 2 * d + i - 2 * c, x0);
    MulMono(2 * d + i - 2 * c, 3 * d, x0);
    MulStrict(0, 2 * d - i - 2 * c, x0);
    assert y - 2 * i * x0 == (2 * d - i - 2 * c) * x0;
  }

  /** The numbers of a validated limiter keep the band on the rising branch of the parabola. */
  lemma BandConditions(t: Tiers, high: nat)
    requires Sound(t) && t.x0 <= high <= (LastTier(t) + 1) * t.x0
    ensures var y := Slope(t);
            && FEE_DENOMINATOR * t.x0 <= y && 2 * y + 1 <= 4 * t.i * UnitWeight(t)
            && 0 <= y - 2 * t.i * high && 0 < y - 2 * t.i * t.x0
  {
    BandEdge(FEE_DENOMINATOR, t.c, t.i, LastTier(t), t.x0, high);
    SlopeBounds(FEE_DENOMINATOR, t.c, t.i, t.x0, Slope(t));
    MulMono(MIN_FEE_NUMERATOR, t.i, 4 * UnitWeight(t));
    assert 4 * t.i * UnitWeight(t) == t.i * (4 * UnitWeight(t));
  }

  lemma QuadraticShape(l: Limiter, i: U64, excluded: U64)
    requires i == TiersOf(l).i
    ensures QuadraticFor(l, i, excluded)
            == Quadratic(i, Slope(TiersOf(l)), excluded * UnitWeight(TiersOf(l)))
  {
    assert 2 * excluded * FEE_DENOMINATOR * l.referenceAmount
        == excluded * (2 * FEE_DENOMINATOR * l.referenceAmount);
  }

  lemma RootOfBand(t: Tiers, excluded: nat, high: nat, lowLeft: int, highLeft: int)
    returns (root: nat)
    requires Sound(t) && t.x0 <= high <= (LastTier(t) + 1) * t.x0 && lowLeft < excluded < highLeft
    requires Parabola(Slope(t), t.i, t.x0) < UnitWeight(t) * (lowLeft + 1)
    requires UnitWeight(t) * highLeft <= Parabola(Slope(t), t.i, high)
    ensures SmallerRoot(Quadratic(t.i, Slope(t), excluded * UnitWeight(t))) == Ok(root)
    ensures t.x0 <= root < high && root < 4 * (excluded + 1)
    ensures Parabola(Slope(t), t.i, root) < (excluded + 1) * UnitWeight(t)
  {
    hide Slope, LastTier, Parabola, SmallerRoot;
    var w, z := UnitWeight(t), excluded * UnitWeight(t);
    BandConditions(t, high);
    MulMono(lowLeft + 1, excluded, w);
    MulMono(excluded + 1, highLeft, w);
    assert (excluded + 1) * w == z + w;
    MulMono(0, excluded, w);
    RootInBand(Slope(t), t.i, z, t.x0, high, w);
    root := SmallerRoot(Quadratic(t.i, Slope(t), z)).value;
    RootIsSmall(FEE_DENOMINATOR * t.x0, Slope(t), t.i, root, excluded + 1);
  }

  /** The whole part of the input: it lies inside the band and never leaves more than was asked
      for, so the subtraction that follows cannot fail. */
  lemma QuadraticRoot(l: Limiter, excluded: U64, high: U64) returns (root: nat)
    requires Sound(TiersOf(l))
    requires l.referenceAmount <= high <= (LastTier(TiersOf(l)) + 1) * l.referenceAmount
    requires ExcludedAmount(l, l.referenceAmount).Ok? && ExcludedAmount(l, high).Ok?
    requires ExcludedAmount(l, l.referenceAmount).value < excluded < ExcludedAmount(l, high).value
    ensures SmallerRoot(Quadratic(
              TiersOf(l).i, Slope(TiersOf(l)), excluded * UnitWeight(TiersOf(l)))) == Ok(root)
    ensures l.referenceAmount <= root < high && root < 4 * (excluded + 1)
    ensures ExcludedAmount(l, root).Ok? && ExcludedAmount(l, root).value <= excluded
  {
    hide Slope, LastTier, Parabola, SmallerRoot;
    var t := TiersOf(l);
    LeftAtReference(l);
    LeftBelowParabola(l, high);
    root := RootOfBand(
      t, excluded, high, ExcludedAmount(l, t.x0).value, ExcludedAmount(l, high).value);
    LeftBelowParabola(l, root);
    CancelLt(ExcludedAmount(l, root).value, excluded + 1, UnitWeight(t));
  }

  lemma RootIsSmall(unit: int, y: int, i: int, root: int, bound: int)
    requires 0 < unit <= y && 0 <= root && 2 * i * root <= y && Parabola(y, i, root) < bound * (2 * unit)
    ensures root < 4 * bound
  {
    MulMono(unit, 2 * (y - i * root), root);
    assert root * (2 * (y - i * root)) == 2 * Parabola(y, i, root);
    assert bound * (2 * unit) * 2 == (4 * bound) * unit;
    CancelLt(root, 4 * bound, unit);
  }

  /** The two parts of an input, each charged at a rate between `c` and 50%. */
  ghost predicate TwoParts(c: int, whole: nat, left: nat, rate: int, excluded: nat, total: nat) {
    && 0 < c <= rate <= MAX_FEE_NUMERATOR_V0
    && left <= excluded && 0 < excluded
    && left * FEE_DENOMINATOR <= whole * (FEE_DENOMINATOR - c)
    && whole < 4 * (excluded + 1)
    && total == whole + CeilDiv((excluded - left) * FEE_DENOMINATOR, FEE_DENOMINATOR - rate)
  }

  /** The total is charged at the cliff rate or more, and stays within a small multiple of what it
      leaves. */
  lemma TwoPartsTotal(c: int, whole: nat, left: nat, rate: int, excluded: nat, total: nat)
    requires TwoParts(c, whole, left, rate, excluded, total)
    ensures excluded * FEE_DENOMINATOR <= total * (FEE_DENOMINATOR - c)
    ensures excluded <= total <= 20 * excluded
  {
    hide CeilDiv;
    var d: int := FEE_DENOMINATOR;
    var rest, remaining := total - whole, excluded - left;
    CoveredByParts(d, d - rate, d - c, whole, left, rest, remaining);
    HalfRate(d, rate, remaining);
  }

  lemma CoveredByParts(d: int, low: int, high: int, whole: nat, left: nat, rest: nat, remaining: nat)
    requires 0 < low <= high < d && left * d <= whole * high && remaining * d <= rest * low
    ensures (left + remaining) * d <= (whole + rest) * high
    ensures left + remaining <= whole + rest
  {
    ScaleUp(rest, low, high);
    AddScaled(left, remaining, d, whole, rest, high);
    LessScaled(left + remaining, d, whole + rest, high);
  }

  lemma AddScaled(x: int, y: int, d: int, u: int, v: int, e: int)
    requires x * d <= u * e && y * d <= v * e
    ensures (x + y) * d <= (u + v) * e
  {
    Distribute(x, y, d);
    Distribute(u, v, e);
  }

  lemma LessScaled(x: nat, d: int, y: nat, e: int)
    requires x * d <= y * e && 0 < e < d
    ensures x <= y
  {
    ScaleUp(y, e, d);
    CancelLe(x, y, d);
  }

  lemma ScaleUp(x: nat, y: int, z: int)
    requires y <= z
    ensures x * y <= x * z
  {
  }

  lemma HalfRate(d: int, rate: int, remaining: nat)
    requires 0 < d && 2 * rate <= d && 0 <= rate
    ensures CeilDiv(remaining * d, d - rate) <= 2 * remaining
  {
    MulMono(d, 2 * (d - rate), remaining);
    CeilAtMost(remaining * d, d - rate, 2 * remaining);
  }

  lemma CeilBetween(fee: nat, total: int, low: nat, high: nat)
    requires 0 < total && low * total <= fee <= high * total
    ensures low <= CeilDiv(fee, total) <= high
  {
    CancelLe(low, CeilDiv(fee, total), total);
    CeilAtMost(fee, total, high);
  }

  lemma Products(d: int, c: int, total: int, excluded: int, numerator: int)
    ensures (total - excluded) * d == total * d - excluded * d
    ensures total * (d - c) == total * d - c * total
    ensures (d - 1) * total == total * d - total
    ensures total * (d - numerator) == total * d - numerator * total
  {
  }

  lemma ChargeArithmetic(d: int, c: nat, total: int, excluded: int, numerator: nat)
    requires 1 < d && 0 < total && excluded <= total && total <= excluded * d
    requires excluded * d <= total * (d - c)
    requires numerator == CeilDiv((total - excluded) * d, total)
    ensures c <= numerator < d && total * (d - numerator) <= excluded * d
  {
    Products(d, c, total, excluded, numerator);
    CeilBetween((total - excluded) * d, total, c, d - 1);
  }

  /** The returned numerator passes the sanity check, is below 100%, and the input later charged from
      it is at least the total that was found. */
  lemma NumeratorCharges(l: Limiter, whole: nat, left: nat, rate: int, excluded: U64, total: U64)
    requires l.cliffFeeNumerator > 0
    requires TwoParts(l.cliffFeeNumerator, whole, left, rate, excluded, total)
    ensures NumeratorForTotal(l, total, excluded).Ok?
    ensures var numerator := NumeratorForTotal(l, total, excluded).value;
            && l.cliffFeeNumerator <= numerator < FEE_DENOMINATOR
            && total <= CeilDiv(excluded * FEE_DENOMINATOR, FEE_DENOMINATOR - numerator)
  {
    var d: int := FEE_DENOMINATOR;
    TwoPartsTotal(l.cliffFeeNumerator, whole, left, rate, excluded, total);
    var numerator := CeilDiv((total - excluded) * d, total);
    ChargeArithmetic(d, l.cliffFeeNumerator, total, excluded, numerator);
    var charged := CeilDiv(excluded * d, d - numerator);
    CancelLe(total, charged, d - numerator);
  }

  /** The rate of the tier after the whole part never exceeds the highest rate. */
  lemma NextRate(t: Tiers, root: nat)
    requires Sound(t) && root < (LastTier(t) + 1) * t.x0
    ensures t.c <= t.c + t.i * FloorDiv(root, t.x0) <= t.top
  {
    FloorBelow(root, t.x0, LastTier(t) + 1);
    MulMono(FloorDiv(root, t.x0), LastTier(t), t.i);
    MulMono(0, FloorDiv(root, t.x0), t.i);
  }

  /** The end of the quadratic band: the last tier, or the largest input. */
  lemma BandEnd(l: Limiter)
    requires Sound(TiersOf(l))
    ensures GetCheckedAmounts(l).Ok?
    ensures var checks := GetCheckedAmounts(l).value;
            var edge := (LastTier(TiersOf(l)) + 1) * l.referenceAmount;
            && checks.isOverflow == (edge > U64_MAX)
            && checks.included == (if checks.isOverflow then U64_MAX else edge)
            && l.referenceAmount <= checks.included
            && ExcludedAmount(l, checks.included) == Ok(checks.excluded)
  {
    var t := TiersOf(l);
    MaxIndexIsLastTier(l);
    MulMono(1, LastTier(t) + 1, t.x0);
    var edge := (LastTier(t) + 1) * t.x0;
    LeftBelowExact(l, if edge > U64_MAX then U64_MAX else edge);
  }

  lemma CliffShare(d: int, c: int, whole: int, left: int, sum: int)
    requires left * d <= whole * d - sum && whole * c <= sum
    ensures left * d <= whole * (d - c)
  {
  }

  /** A whole part bought at the tiered fee and a rest bought at a rate between cliff and top. */
  lemma PartsOf(l: Limiter, whole: U64, rate: U64, excluded: U64) returns (left: nat, total: nat)
    requires Sound(TiersOf(l)) && 0 < whole < 4 * (excluded + 1) && 0 < excluded
    requires l.cliffFeeNumerator <= rate <= TiersOf(l).top
    requires ExcludedAmount(l, whole).Ok? && ExcludedAmount(l, whole).value <= excluded
    ensures left == ExcludedAmount(l, whole).value
    ensures TwoParts(l.cliffFeeNumerator, whole, left, rate, excluded, total) && left <= excluded
    ensures total == whole + CeilDiv((excluded - left) * FEE_DENOMINATOR, FEE_DENOMINATOR - rate)
  {
    var t := TiersOf(l);
    LeftBelowExact(l, whole);
    SumBounds(t, whole);
    left := ExcludedAmount(l, whole).value;
    CliffShare(FEE_DENOMINATOR, t.c, whole, left, TierSum(t, whole));
    total := whole + CeilDiv((excluded - left) * FEE_DENOMINATOR, FEE_DENOMINATOR - rate);
  }

  lemma AddRestValue(whole: U64, rate: U64, remaining: U64)
    requires rate < FEE_DENOMINATOR
    ensures AddRest(whole, rate, remaining)
            == Cast64(whole + CeilDiv(remaining * FEE_DENOMINATOR, FEE_DENOMINATOR - rate))
  {
    IncludedFeeIsCeil(rate, remaining);
  }

  lemma TotalOfParts(l: Limiter, root: U64, excluded: U64) returns (left: nat, rate: nat, total: nat)
    requires Sound(TiersOf(l)) && l.referenceAmount <= root
    requires root < (LastTier(TiersOf(l)) + 1) * l.referenceAmount && root < 4 * (excluded + 1)
    requires ExcludedAmount(l, root).Ok? && ExcludedAmount(l, root).value <= excluded
    requires 0 < excluded
    ensures TwoParts(l.cliffFeeNumerator, root, left, rate, excluded, total)
    ensures left == ExcludedAmount(l, root).value && rate == UnitRate(TiersOf(l), root)
    ensures TotalFromRoot(l, TiersOf(l).i, root, excluded) == Cast64(total)
  {
    var t := TiersOf(l);
    NextRate(t, root);
    rate := t.c + t.i * FloorDiv(root, t.x0);
    left, total := PartsOf(l, root, rate, excluded);
    AddRestValue(root, rate, excluded - left);
  }

  /** The inverse over the whole quadratic band: the discriminant is not negative, the root lies
      between the reference amount and the end of the band, the remainder never underflows, and
      the only failure left is an input that does not fit 64 bits. The returned numerator is at
      least the cliff fee, below 100%, and charging it takes at least the total that was found. */
  lemma QuadraticBand(l: Limiter, excluded: U64) returns (root: nat, total: nat)
    requires Sound(TiersOf(l)) && ExcludedAmount(l, l.referenceAmount).Ok?
    requires GetCheckedAmounts(l).Ok?
    requires ExcludedAmount(l, l.referenceAmount).value < excluded < GetCheckedAmounts(l).value.excluded
    ensures SmallerRoot(QuadraticFor(l, TiersOf(l).i, excluded)) == Ok(root)
    ensures l.referenceAmount <= root < (LastTier(TiersOf(l)) + 1) * l.referenceAmount
    ensures QuadraticTotal(l, excluded) == Cast64(total)
    ensures var r := NumeratorFromExcluded(l, excluded);
            if total > U64_MAX then r == Err(TypeCastFailed)
            else
              && r.Ok? && l.cliffFeeNumerator <= r.value < FEE_DENOMINATOR
              && total <= CeilDiv(excluded * FEE_DENOMINATOR, FEE_DENOMINATOR - r.value)
  {
    hide Slope, UnitWeight, LastTier, Parabola, SmallerRoot, ExcludedAmount, GetCheckedAmounts,
         QuadraticFor, TotalFromRoot, NumeratorForTotal, TwoParts;
    BandEnd(l);
    root := QuadraticRoot(l, excluded, GetCheckedAmounts(l).value.included);
    QuadraticShape(l, TiersOf(l).i, excluded);
    ToNumeratorValue(l.feeIncrementBps);
    var left, rate;
    left, rate, total := TotalOfParts(l, root, excluded);
    if total <= U64_MAX {
      NumeratorCharges(l, root, left, rate, excluded, total);
    }
  }

  /** Half of an input, up to the rounding of the numerator, is always left. */
  lemma HalfIsLeft(l: Limiter, input: U64)
    requires Sound(TiersOf(l)) && 0 < input
    ensures ExcludedAmount(l, input).Ok? && input < 4 * (ExcludedAmount(l, input).value + 1)
  {
    ChargedFee(l, input);
    TierFeeBounds(l, input);
  }

  lemma LinearParts(l: Limiter, excluded: U64) returns (left: nat, total: nat)
    requires Sound(TiersOf(l)) && GetCheckedAmounts(l).Ok?
    requires GetCheckedAmounts(l).value.excluded < excluded
    ensures var checks := GetCheckedAmounts(l).value;
            && TwoParts(l.cliffFeeNumerator, checks.included, left, TiersOf(l).top, excluded, total)
            && left == checks.excluded
            && (checks.isOverflow ==> LinearTotal(l, excluded, checks) == Err(MathOverflow))
            && (!checks.isOverflow && total <= U64_MAX ==>
                  LinearTotal(l, excluded, checks) == Ok(total))
            && (total > U64_MAX ==> LinearTotal(l, excluded, checks).Err?)
  {
    hide LastTier, GetCheckedAmounts, ExcludedAmount, CeilDiv, TwoParts, LinearTotal;
    var checks := GetCheckedAmounts(l).value;
    BandEnd(l);
    HalfIsLeft(l, checks.included);
    left, total := PartsOf(l, checks.included, TiersOf(l).top, excluded);
    LinearTotalIs(l, excluded, checks);
  }

  lemma LinearTotalIs(l: Limiter, excluded: U64, checks: CheckedAmounts)
    requires Sound(TiersOf(l)) && checks.excluded < excluded
    ensures var rest := CeilDiv(
                          (excluded - checks.excluded) * FEE_DENOMINATOR, FEE_DENOMINATOR - TiersOf(l).top);
            var r := LinearTotal(l, excluded, checks);
            if checks.isOverflow then r == Err(MathOverflow)
            else if rest > U64_MAX then r.Err?
            else r == Fit64(rest + checks.included)
  {
    hide CeilDiv, ToNumerator;
    ToNumeratorValue(l.maxFeeBps);
    IncludedFeeIsCeil(TiersOf(l).top, excluded - checks.excluded);
  }

  /** The inverse beyond the last tier: the only failures are inputs beyond 64 bits, and what is
      returned charges at least the total that was found. */
  lemma LinearBand(l: Limiter, excluded: U64) returns (total: nat)
    requires Sound(TiersOf(l)) && ExcludedAmount(l, l.referenceAmount).Ok?
    requires GetCheckedAmounts(l).Ok? && GetCheckedAmounts(l).value.excluded < excluded
    requires ExcludedAmount(l, l.referenceAmount).value < excluded
    ensures GetCheckedAmounts(l).value.isOverflow ==>
              NumeratorFromExcluded(l, excluded) == Err(MathOverflow)
    ensures !GetCheckedAmounts(l).value.isOverflow ==>
              var r := NumeratorFromExcluded(l, excluded);
              if total > U64_MAX then r.Err?
              else
                && r.Ok? && l.cliffFeeNumerator <= r.value < FEE_DENOMINATOR
                && total <= CeilDiv(excluded * FEE_DENOMINATOR, FEE_DENOMINATOR - r.value)
  {
    var left;
    left, total := LinearParts(l, excluded);
    if total <= U64_MAX {
      NumeratorCharges(
        l, GetCheckedAmounts(l).value.included, left, TiersOf(l).top, excluded, total);
    }
  }

  const TWO_96: int := 0x1_0000_0000_0000_0000_0000_0000

  const TWO_160: int := TWO_64 * TWO_96

  lemma ProductFits(excluded: U64, referenceAmount: U64)
    ensures 0 <= excluded * referenceAmount < TWO_128
  {
    MulMono(0, excluded, referenceAmount);
    MulMono(excluded, U64_MAX, referenceAmount);
  }

  /** The last coefficient and the product under the root, from bounds on its factors. */
  lemma LastCoefficientFits(d: nat, i: nat, product: nat)
    requires d == FEE_DENOMINATOR && i <= d && product < TWO_128
    ensures 2 * d * product < TWO_160 && 4 * i * (2 * d * product) < TWO_192
  {
    MulMono(i, d, product);
    assert 4 * i * (2 * d * product) == 8 * d * (i * product);
  }

  /** No 256 bit intermediate of the quadratic wraps around: not the coefficients, nor the sum the
      middle one is subtracted from, nor its square, nor the product under the root. */
  lemma QuadraticFits(l: Limiter, excluded: U64)
    requires Sound(TiersOf(l))
    ensures var q := QuadraticFor(l, TiersOf(l).i, excluded);
            && 0 < q.y <= (2 * FEE_DENOMINATOR + q.x) * l.referenceAmount < TWO_96
            && q.y * q.y < TWO_192
            && 0 <= q.z < TWO_160
            && 0 <= 4 * q.x * q.z < TWO_192
  {
    hide Slope, UnitWeight;
    var t := TiersOf(l);
    QuadraticShape(l, t.i, excluded);
    SlopeBounds(FEE_DENOMINATOR, t.c, t.i, t.x0, Slope(t));
    SquareOrder(Slope(t), TWO_96);
    SumFits(FEE_DENOMINATOR, t.c, t.i, t.x0);
    ProductFits(excluded, t.x0);
    LastCoefficientFits(FEE_DENOMINATOR, t.i, excluded * t.x0);
    assert 2 * excluded * FEE_DENOMINATOR * t.x0 == 2 * FEE_DENOMINATOR * (excluded * t.x0);
    MulMono(0, 4 * t.i, 2 * FEE_DENOMINATOR * (excluded * t.x0));
  }

  lemma SumFits(d: nat, c: nat, i: nat, x0: U64)
    requires d == FEE_DENOMINATOR && i <= d
    ensures (2 * d + i - 2 * c) * x0 <= (2 * d + i) * x0 < TWO_96
  {
    MulMono(2 * d + i - 2 * c, 2 * d + i, x0);
    MulMono(2 * d + i, 3 * d, x0);
  }
}

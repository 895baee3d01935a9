/** The meaning of the rate limiter: every unit of the input pays the marginal rate of its tier. */
module TieredFee {
  import opened Checked
  import opened Division
  import opened Fees
  import opened RateLimiter

  /** Cliff rate, increment per tier, highest rate and tier width. */
  datatype Tiers = Tiers(c: nat, i: nat, top: nat, x0: nat)

  /** What a validated limiter guarantees of its numbers. */
  ghost predicate Sound(t: Tiers) {
    && MIN_FEE_NUMERATOR <= t.c <= t.top <= MAX_FEE_NUMERATOR_V0
    && MIN_FEE_NUMERATOR <= t.i < FEE_DENOMINATOR
    && 0 < t.x0 <= U64_MAX
  }

  /** The last tier whose rate is still below or at the highest rate. */
  ghost function LastTier(t: Tiers): (m: nat)
    requires Sound(t)
    ensures t.c + t.i * m <= t.top < t.c + t.i * (m + 1)
  {
    var m := FloorDiv(t.top - t.c, t.i);
    assert m * t.i == t.i * m && (m + 1) * t.i == t.i * (m + 1);
    m
  }

  ghost function TierRate(t: Tiers, tier: nat): (rate: nat)
    requires t.c <= t.top
    ensures t.c <= rate <= t.top
  {
    MulMono(0, t.i, tier);
    Min(t.c + t.i * tier, t.top)
  }

  /** The tiered fee of the first `n` units, times the fee denominator: one marginal rate a unit. */
  ghost function TierSum(t: Tiers, n: nat): nat
    requires Sound(t)
  {
    if n == 0 then 0 else TierSum(t, n - 1) + TierRate(t, (n - 1) / t.x0)
  }

  lemma QuotientIs(n: nat, d: int, q: nat)
    requires d > 0 && q * d <= n < (q + 1) * d
    ensures n / d == q
  {
    CancelLt(q, n / d + 1, d);
    CancelLt(n / d, q + 1, d);
  }

  /** Inside one tier the fee grows linearly. */
  lemma {:induction false} SumInTier(t: Tiers, k: nat, m: nat)
    requires Sound(t) && m <= t.x0
    ensures TierSum(t, k * t.x0 + m) == TierSum(t, k * t.x0) + m * TierRate(t, k)
  {
    hide TierRate;
    if m > 0 {
      SumInTier(t, k, m - 1);
      QuotientIs(k * t.x0 + (m - 1), t.x0, k);
      assert TierSum(t, k * t.x0 + m) == TierSum(t, k * t.x0 + (m - 1)) + TierRate(t, k);
      assert (m - 1) * TierRate(t, k) + TierRate(t, k) == m * TierRate(t, k);
    }
  }

  lemma RatesBelowLast(t: Tiers, k: nat)
    requires Sound(t)
    ensures TierRate(t, k) == if k <= LastTier(t) then t.c + t.i * k else t.top
  {
    if k <= LastTier(t) {
      MulMono(k, LastTier(t), t.i);
    } else {
      MulMono(LastTier(t) + 1, k, t.i);
    }
  }

  /** The rates of the first `k` tiers, added up. */
  ghost function RateSeries(t: Tiers, k: nat): int {
    if k == 0 then 0 else RateSeries(t, k - 1) + (t.c + t.i * (k - 1))
  }

  lemma {:induction false} RateSeriesDoubled(t: Tiers, k: nat)
    ensures 2 * RateSeries(t, k) == 2 * (t.c * k) + t.i * (k * (k - 1))
  {
    if k > 0 {
      RateSeriesDoubled(t, k - 1);
      assert t.c * k == t.c * (k - 1) + t.c;
      assert t.i * (k * (k - 1)) == t.i * ((k - 1) * (k - 2)) + 2 * (t.i * (k - 1));
    }
  }

  lemma RateSeriesValue(t: Tiers, a: nat)
    ensures RatesOfTiers(t.c, t.i, a) == RateSeries(t, a + 1)
  {
    RateSeriesDoubled(t, a + 1);
    assert t.i * a * (a + 1) == t.i * ((a + 1) * a);
    assert t.c + t.c * a == t.c * (a + 1);
  }

  /** Whole tiers add up to an arithmetic series. */
  lemma {:induction false} SumOfTiers(t: Tiers, k: nat)
    requires Sound(t) && k <= LastTier(t) + 1
    ensures TierSum(t, k * t.x0) == t.x0 * RateSeries(t, k)
  {
    if k > 0 {
      SumOfTiers(t, k - 1);
      SumInTier(t, k - 1, t.x0);
      RatesBelowLast(t, k - 1);
      assert (k - 1) * t.x0 + t.x0 == k * t.x0;
      Distribute(t.x0, RateSeries(t, k - 1), t.c + t.i * (k - 1));
    }
  }

  lemma Distribute(x: int, y: int, z: int)
    ensures x * (y + z) == x * y + x * z
  {
  }

  lemma RateBeyond(t: Tiers, unit: nat)
    requires Sound(t) && (LastTier(t) + 1) * t.x0 <= unit
    ensures TierRate(t, unit / t.x0) == t.top
  {
    FloorAtLeast(unit, t.x0, LastTier(t) + 1);
    RatesBelowLast(t, FloorDiv(unit, t.x0));
  }

  /** Beyond the last tier every unit pays the highest rate. */
  lemma {:induction false} SumBeyond(t: Tiers, edge: nat, m: nat)
    requires Sound(t) && edge == (LastTier(t) + 1) * t.x0
    ensures TierSum(t, edge + m) == TierSum(t, edge) + m * t.top
  {
    if m > 0 {
      SumBeyond(t, edge, m - 1);
      RateBeyond(t, edge + (m - 1));
      assert TierSum(t, edge + m) == TierSum(t, edge + (m - 1)) + t.top;
      assert (m - 1) * t.top + t.top == m * t.top;
    }
  }

  lemma ClosedFormLow(t: Tiers, n: nat, a: nat, b: nat)
    requires Sound(t) && n == (a + 1) * t.x0 + b && b < t.x0 && a < LastTier(t)
    ensures TierSum(t, n) == t.x0 * RatesOfTiers(t.c, t.i, a) + b * (t.c + t.i * (a + 1))
  {
    hide TierRate, TierSum, RateSeries, RatesOfTiers, LastTier;
    RateSeriesValue(t, a);
    SumOfTiers(t, a + 1);
    SumInTier(t, a + 1, b);
    RatesBelowLast(t, a + 1);
  }

  lemma ClosedFormHigh(t: Tiers, n: nat, a: nat, b: nat, last: nat)
    requires Sound(t) && n == (a + 1) * t.x0 + b && b < t.x0 && last == LastTier(t) <= a
    ensures TierSum(t, n)
            == t.x0 * RatesOfTiers(t.c, t.i, last) + ((a - last) * t.x0 + b) * t.top
  {
    hide TierRate, TierSum, RateSeries, RatesOfTiers, LastTier;
    RateSeriesValue(t, last);
    SumOfTiers(t, last + 1);
    BeyondTiers(t.x0, a, last, b);
    SumBeyond(t, (last + 1) * t.x0, (a - last) * t.x0 + b);
  }

  /** The closed form of the source is the sum of the marginal rates of all the units. */
  lemma ClosedFormIsSum(t: Tiers, n: nat, a: nat, b: nat)
    requires Sound(t) && n == (a + 1) * t.x0 + b && b < t.x0
    ensures ClosedForm(t.c, t.i, LastTier(t), t.top, t.x0, a, b) == TierSum(t, n)
  {
    if a < LastTier(t) {
      ClosedFormLow(t, n, a, b);
    } else {
      ClosedFormHigh(t, n, a, b, LastTier(t));
    }
  }

  lemma BeyondTiers(x0: nat, a: nat, last: nat, b: nat)
    requires last <= a
    ensures (a + 1) * x0 + b == (last + 1) * x0 + ((a - last) * x0 + b)
    ensures (a - last) * x0 >= 0
  {
  }

  /** The average rate lies between the cliff rate and the highest rate. */
  lemma {:induction false} SumBounds(t: Tiers, n: nat)
    requires Sound(t)
    ensures n * t.c <= TierSum(t, n) <= n * t.top
    ensures n <= t.x0 ==> TierSum(t, n) == n * t.c
  {
    if n > 0 {
      SumBounds(t, n - 1);
      assert (n - 1) * t.c + t.c == n * t.c;
      assert (n - 1) * t.top + t.top == n * t.top;
      if n <= t.x0 {
        QuotientIs(n - 1, t.x0, 0);
      }
    }
  }

  lemma {:induction false} SumMonotone(t: Tiers, n: nat, m: nat)
    requires Sound(t) && n <= m
    ensures TierSum(t, n) <= TierSum(t, m)
  {
    if n < m {
      SumMonotone(t, n, m - 1);
    }
  }

  /** Splitting a purchase never costs more: a later unit pays at least the rate of an earlier one. */
  lemma {:induction false} SumSuperadditive(t: Tiers, n: nat, m: nat)
    requires Sound(t)
    ensures TierSum(t, n) + TierSum(t, m) <= TierSum(t, n + m)
  {
    if m > 0 {
      SumSuperadditive(t, n, m - 1);
      FloorMono(m - 1, n + m - 1, t.x0);
      MulMono((m - 1) / t.x0, (n + m - 1) / t.x0, t.i);
      assert TierSum(t, n + m) == TierSum(t, n + (m - 1)) + TierRate(t, (n + m - 1) / t.x0);
    }
  }

  /** The marginal rate of one unit, counted from zero. */
  ghost function UnitRate(t: Tiers, unit: nat): (rate: nat)
    requires Sound(t)
    ensures t.c <= rate <= t.top
  {
    TierRate(t, FloorDiv(unit, t.x0))
  }

  lemma SumOneMore(t: Tiers, n: nat)
    requires Sound(t)
    ensures TierSum(t, n + 1) == TierSum(t, n) + UnitRate(t, n)
  {
  }

  lemma RatesAscend(t: Tiers, n: nat, m: nat)
    requires Sound(t) && n <= m
    ensures UnitRate(t, n) <= UnitRate(t, m)
  {
    FloorMono(n, m, t.x0);
    MulMono(FloorDiv(n, t.x0), FloorDiv(m, t.x0), t.i);
  }

  /** From any unit on, every unit pays at least the rate of that unit. */
  lemma {:induction false} SumFromUnit(t: Tiers, n: nat, m: nat)
    requires Sound(t)
    ensures TierSum(t, n) + m * UnitRate(t, n) <= TierSum(t, n + m)
  {
    hide UnitRate, TierSum;
    if m > 0 {
      SumFromUnit(t, n, m - 1);
      RatesAscend(t, n, n + m - 1);
      SumOneMore(t, n + (m - 1));
      assert (m - 1) * UnitRate(t, n) + UnitRate(t, n) == m * UnitRate(t, n);
    }
  }

  /** The units before it pay at most that rate. */
  lemma {:induction false} SumUpToUnit(t: Tiers, n: nat, m: nat)
    requires Sound(t) && n <= m
    ensures TierSum(t, n) <= n * UnitRate(t, m)
  {
    hide UnitRate;
    if n > 0 {
      SumUpToUnit(t, n - 1, m);
      RatesAscend(t, n - 1, m);
      SumOneMore(t, n - 1);
      assert (n - 1) * UnitRate(t, m) + UnitRate(t, m) == n * UnitRate(t, m);
    }
  }

  /** No unit pays more than the highest rate. */
  lemma {:induction false} SumGrowsAtMost(t: Tiers, n: nat, m: nat)
    requires Sound(t)
    ensures TierSum(t, n + m) <= TierSum(t, n) + m * t.top
  {
    hide UnitRate;
    if m > 0 {
      SumGrowsAtMost(t, n, m - 1);
      SumOneMore(t, n + (m - 1));
      assert (m - 1) * t.top + t.top == m * t.top;
    }
  }

  /** The average rate rises with the amount. */
  lemma AverageRises(t: Tiers, n: nat, m: nat)
    requires Sound(t) && n <= m
    ensures TierSum(t, n) * m <= TierSum(t, m) * n
  {
    hide UnitRate, TierSum;
    SumFromUnit(t, n, m - n);
    SumUpToUnit(t, n, n);
    AverageArithmetic(TierSum(t, n), TierSum(t, m), UnitRate(t, n), n, m);
  }

  lemma AverageArithmetic(low: nat, high: nat, rate: nat, n: nat, m: nat)
    requires n <= m && low + (m - n) * rate <= high && low <= n * rate
    ensures low * m <= high * n
  {
    MulMono(low + (m - n) * rate, high, n);
    MulMono(low, n * rate, m - n);
    assert (low + (m - n) * rate) * n == low * n + (n * rate) * (m - n);
    assert low * m == low * n + low * (m - n);
  }
}

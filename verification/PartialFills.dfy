/** A partial fill charges its fee again on the part it consumes. Under a rate limiter that can come to
    more than was offered: exactly when it does, and by how much at most. */
module PartialFills {
  import opened Checked
  import opened Division
  import opened Fees
  import opened RateLimiter
  import opened TieredFee
  import opened RateLimiterProofs
  import opened PoolState
  import opened SwapQuotes
  import opened SwapAdjoint
  import DynamicFee

  // ----- What the inverse of the limiter returns, from above -----

  /** The numerator `g` found for `excluded` stands for a total `t` whose exact fee it exceeds by at most
      the roundings. */
  ghost predicate StandsFor(t: Tiers, g: nat, excluded: nat, total: nat)
    requires Sound(t)
  {
    && excluded <= total && 0 < total
    && g * total <= (total - excluded) * FEE_DENOMINATOR + total
    && (total - excluded) * FEE_DENOMINATOR <= TierSum(t, total) + total + 3 * FEE_DENOMINATOR
  }

  /** The limiter never leaves less than the exact rest, up to the rounding of the numerator. */
  lemma LeftAboveExact(l: Limiter, n: U64)
    requires Sound(TiersOf(l)) && 0 < n
    ensures ExcludedAmount(l, n).Ok? && ExcludedAmount(l, n).value <= n
    ensures (n - ExcludedAmount(l, n).value) * FEE_DENOMINATOR
            <= TierSum(TiersOf(l), n) + n + 2 * FEE_DENOMINATOR
  {
    hide TierSum;
    ChargedFee(l, n);
    LeftBelowExact(l, n);
    ExcludedFeeParts(l, n);
  }

  lemma ExcludedFeeParts(l: Limiter, n: U64)
    requires NumeratorFromIncluded(l, n).Ok?
    requires ExcludedFee(NumeratorFromIncluded(l, n).value, n).Ok?
    ensures ExcludedAmount(l, n) == Ok(ExcludedFee(NumeratorFromIncluded(l, n).value, n).value.amount)
    ensures var r := ExcludedFee(NumeratorFromIncluded(l, n).value, n).value; r.amount + r.fee == n
  {
    hide NumeratorFromIncluded;
  }

  /** A whole part and a rest at the rate of the next unit. */
  lemma TwoPartsNear(
      t: Tiers, whole: nat, left: nat, rate: nat, excluded: nat, total: nat)
    requires Sound(t) && TwoParts(t.c, whole, left, rate, excluded, total)
    requires rate == UnitRate(t, whole)
    requires (whole - left) * FEE_DENOMINATOR <= TierSum(t, whole) + whole + 2 * FEE_DENOMINATOR
    ensures (total - excluded) * FEE_DENOMINATOR <= TierSum(t, total) + total + 3 * FEE_DENOMINATOR
  {
    hide UnitRate, TierSum, CeilDiv;
    var rest := total - whole;
    SumFromUnit(t, whole, rest);
    RestNear(FEE_DENOMINATOR, rate, excluded - left, rest);
  }

  lemma RestNear(d: int, rate: nat, remaining: nat, rest: int)
    requires rate < d && rest == CeilDiv(remaining * d, d - rate)
    ensures 0 <= rest && (rest - remaining) * d <= rest * rate + d
  {
    assert rest * (d - rate) == rest * d - rest * rate;
    CeilNonNegative(remaining * d, d - rate);
  }

  lemma CeilNonNegative(a: nat, d: int)
    requires 0 < d
    ensures 0 <= CeilDiv(a, d)
  {
    CancelLt(0 - 1, CeilDiv(a, d), d);
  }

  /** The numerator for a total is the share of its fee, rounded up. */
  lemma NumeratorForTotalNear(l: Limiter, included: U64, excluded: U64)
    requires NumeratorForTotal(l, included, excluded).Ok? && 0 < included
    ensures excluded <= included
    ensures NumeratorForTotal(l, included, excluded).value * included
            <= (included - excluded) * FEE_DENOMINATOR + included
  {
  }

  lemma QuadraticStandsFor(l: Limiter, excluded: U64) returns (total: nat)
    requires Sound(TiersOf(l)) && ExcludedAmount(l, l.referenceAmount).Ok? && GetCheckedAmounts(l).Ok?
    requires ExcludedAmount(l, l.referenceAmount).value < excluded < GetCheckedAmounts(l).value.excluded
    requires NumeratorFromExcluded(l, excluded).Ok?
    ensures StandsFor(TiersOf(l), NumeratorFromExcluded(l, excluded).value, excluded, total)
  {
    hide Slope, UnitWeight, LastTier, Parabola, SmallerRoot, ExcludedAmount, GetCheckedAmounts,
         QuadraticFor, TotalFromRoot, NumeratorForTotal, UnitRate, TierSum, CeilDiv;
    BandEnd(l);
    var root := QuadraticRoot(l, excluded, GetCheckedAmounts(l).value.included);
    QuadraticShape(l, TiersOf(l).i, excluded);
    ToNumeratorValue(l.feeIncrementBps);
    var left, rate;
    left, rate, total := TotalOfParts(l, root, excluded);
    LeftAboveExact(l, root);
    TwoPartsNear(TiersOf(l), root, left, rate, excluded, total);
    TwoPartsTotal(l.cliffFeeNumerator, root, left, rate, excluded, total);
    NumeratorForTotalNear(l, total, excluded);
  }

  lemma LinearStandsFor(l: Limiter, excluded: U64) returns (total: nat)
    requires Sound(TiersOf(l)) && ExcludedAmount(l, l.referenceAmount).Ok? && GetCheckedAmounts(l).Ok?
    requires ExcludedAmount(l, l.referenceAmount).value < excluded
    requires GetCheckedAmounts(l).value.excluded < excluded
    requires NumeratorFromExcluded(l, excluded).Ok?
    ensures StandsFor(TiersOf(l), NumeratorFromExcluded(l, excluded).value, excluded, total)
  {
    hide LastTier, GetCheckedAmounts, ExcludedAmount, LinearTotal, NumeratorForTotal, UnitRate, TierSum,
         CeilDiv;
    var left;
    left, total := LinearParts(l, excluded);
    var whole := GetCheckedAmounts(l).value.included;
    BandEnd(l);
    BeyondLastRate(TiersOf(l), whole);
    LeftAboveExact(l, whole);
    TwoPartsNear(TiersOf(l), whole, left, TiersOf(l).top, excluded, total);
    TwoPartsTotal(l.cliffFeeNumerator, whole, left, TiersOf(l).top, excluded, total);
    NumeratorForTotalNear(l, total, excluded);
  }

  lemma BeyondLastRate(t: Tiers, unit: nat)
    requires Sound(t) && unit == (LastTier(t) + 1) * t.x0
    ensures UnitRate(t, unit) == t.top
  {
    FloorAtLeast(unit, t.x0, LastTier(t) + 1);
    RatesBelowLast(t, FloorDiv(unit, t.x0));
  }

  /** At the very end of the band the numerator is that of the end itself. */
  lemma EdgeStandsFor(l: Limiter)
    requires Sound(TiersOf(l)) && GetCheckedAmounts(l).Ok?
    ensures var checks := GetCheckedAmounts(l).value;
            && NumeratorFromIncluded(l, checks.included).Ok?
            && StandsFor(
                 TiersOf(l), NumeratorFromIncluded(l, checks.included).value, checks.excluded,
                 checks.included)
  {
    hide LastTier, GetCheckedAmounts, NumeratorFromIncluded, TierSum;
    BandEnd(l);
    var included := GetCheckedAmounts(l).value.included;
    LeftAboveExact(l, included);
    ChargedFee(l, included);
    ExcludedFeeParts(l, included);
    ChargedAtNumerator(NumeratorFromIncluded(l, included).value, included);
  }

  lemma ChargedAtNumerator(numerator: U64, included: U64)
    requires ExcludedFee(numerator, included).Ok?
    ensures numerator * included <= ExcludedFee(numerator, included).value.fee * FEE_DENOMINATOR
  {
  }

  /** Above what the reference amount leaves, the numerator of the inverse stands for some total. */
  lemma InverseStandsFor(l: Limiter, excluded: U64) returns (total: nat)
    requires Sound(TiersOf(l)) && ExcludedAmount(l, l.referenceAmount).Ok?
    requires ExcludedAmount(l, l.referenceAmount).value < excluded
    requires NumeratorFromExcluded(l, excluded).Ok?
    ensures StandsFor(TiersOf(l), NumeratorFromExcluded(l, excluded).value, excluded, total)
  {
    hide ExcludedAmount, GetCheckedAmounts, QuadraticTotal, LinearTotal, NumeratorForTotal, StandsFor,
         NumeratorFromIncluded;
    BandEnd(l);
    var checks := GetCheckedAmounts(l).value;
    if excluded < checks.excluded {
      total := QuadraticStandsFor(l, excluded);
    } else if checks.excluded < excluded {
      total := LinearStandsFor(l, excluded);
    } else {
      total := checks.included;
      EdgeStandsFor(l);
    }
  }

  // ----- How far the rate can rise on the part consumed -----

  lemma RiseWithin(d: int, x: nat, total: nat, s: nat, st: nat, n: nat, g: nat)
    requires 0 < total && s <= n * x && st * x <= s * total
    requires g * total <= st + 2 * total + 3 * d
    ensures (x * (g - n)) * total <= (2 * total + 3 * d) * x
  {
    MulMono(g * total, st + 2 * total + 3 * d, x);
    MulMono(s, n * x, total);
    assert (st + 2 * total + 3 * d) * x == st * x + (2 * total + 3 * d) * x;
    assert (x * (g - n)) * total == (g * total) * x - (n * x) * total;
  }

  lemma RiseBeyond(d: int, x: nat, total: nat, s: nat, st: nat, n: nat, g: nat)
    requires 0 < d && x < total && s <= n * x && st <= s + total + 2 * d
    requires g * total <= st + 2 * total + 3 * d
    ensures x * (g - n) <= 3 * x + 5 * d
  {
    MulMono(g * total, s + 3 * total + 5 * d, x);
    MulMono(x, total, s + 5 * d);
    assert (s + 3 * total + 5 * d) * x == (s + 5 * d) * x + (3 * x) * total;
    assert (g * total) * x == (g * x) * total;
    assert (s + 5 * d + 3 * x) * total == (s + 5 * d) * total + (3 * x) * total;
    CancelLe(g * x, s + 5 * d + 3 * x, total);
    assert x * (g - n) == g * x - n * x;
  }

  lemma SumRise(d: int, top: nat, x: nat, total: nat, excluded: nat, s: nat, st: nat)
    requires x < total && 2 * top <= d && st <= s + (total - x) * top
    requires excluded * d + d <= x * d - s
    requires (total - excluded) * d <= st + total + 3 * d
    ensures st <= s + total + 2 * d
  {
    MulMono(2 * top, d, total - x);
    assert (total - x) * (2 * top) == 2 * ((total - x) * top);
    assert (total - excluded) * d == total * d - excluded * d;
    assert (total - x) * d == total * d - x * d;
  }

  /** The numerator for a part of what the limiter leaves of an input is hardly above the numerator for
      that input. */
  lemma NumeratorRise(l: Limiter, x: U64, excluded: nat, g: nat, total: nat)
    requires Sound(TiersOf(l)) && l.referenceAmount < x
    requires NumeratorFromIncluded(l, x).Ok? && ExcludedAmount(l, x).Ok?
    requires excluded < ExcludedAmount(l, x).value && StandsFor(TiersOf(l), g, excluded, total)
    ensures var n := NumeratorFromIncluded(l, x).value;
            if total <= x then (x * (g - n)) * total <= (2 * total + 3 * FEE_DENOMINATOR) * x
            else x * (g - n) <= 3 * x + 5 * FEE_DENOMINATOR
  {
    hide TierSum, ExcludedAmount, NumeratorFromIncluded;
    var t, d := TiersOf(l), FEE_DENOMINATOR as int;
    var n, s, st := NumeratorFromIncluded(l, x).value, TierSum(t, x), TierSum(t, total);
    NumeratorAboveSum(l, x);
    if total <= x {
      AverageRises(t, total, x);
      RiseWithin(d, x, total, s, st, n, g);
    } else {
      LeftBelowExact(l, x);
      MulMono(excluded + 1, ExcludedAmount(l, x).value, d);
      SumGrowsAtMost(t, x, total - x);
      SumRise(d, t.top, x, total, excluded, s, st);
      RiseBeyond(d, x, total, s, st, n, g);
    }
  }

  lemma NumeratorAboveSum(l: Limiter, x: U64)
    requires Sound(TiersOf(l)) && l.referenceAmount < x
    ensures NumeratorFromIncluded(l, x).Ok?
    ensures TierSum(TiersOf(l), x) <= NumeratorFromIncluded(l, x).value * x
  {
    hide TierSum, NumeratorFromIncluded;
    NumeratorValue(l, x);
  }

  // ----- What is charged -----

  /** `charged` exceeds `offered` by no more than the roundings allow when at least `keep` of every
      denominator is left after fees: a few units for every denominator's worth offered. */
  ghost predicate SmallExcess(offered: nat, charged: int, keep: nat) {
    (charged - 1 - offered) * (keep * keep)
    < 3 * offered * keep + 4 * FEE_DENOMINATOR * FEE_DENOMINATOR
  }

  lemma Minus(x: int, y: int, z: int)
    ensures (x - y) * z == x * z - y * z
  {
  }

  lemma Assoc(x: int, y: int, z: int)
    ensures x * (y * z) == (x * y) * z == (x * z) * y
  {
  }

  lemma CeilStep(a: nat, d: int)
    requires 0 < d
    ensures (CeilDiv(a, d) - 1) * d < a
  {
    Minus(CeilDiv(a, d), 1, d);
  }

  lemma FloorStep(a: nat, d: int, k: int)
    requires 0 < d && k < FloorDiv(a, d)
    ensures k * d + d <= a
  {
    MulMono(k + 1, FloorDiv(a, d), d);
    Minus(k + 1, 1, d);
  }

  /** From the rise of the rate to the excess of the charge. */
  lemma ExcessOfRise(d: int, x: nat, excluded: nat, n: nat, m: nat, charged: int, rise: int)
    requires n <= m < d && m - n <= rise && 0 <= x * (d - n)
    requires charged == CeilDiv(excluded * d, d - m) && excluded < FloorDiv(x * (d - n), d)
    ensures (charged - 1 - x) * (d - m) < x * rise - d
  {
    hide CeilDiv, FloorDiv;
    CeilStep(excluded * d, d - m);
    FloorStep(x * (d - n), d, excluded);
    Minus(charged - 1, x, d - m);
    SameFactor(x, d, n, m);
    MulMono(m - n, rise, x);
  }

  lemma SameFactor(x: int, d: int, n: int, m: int)
    ensures x * (d - n) == x * (d - m) + (m - n) * x
  {
  }

  lemma ExcessBeyond(d: int, x: nat, e: nat, keep: nat, kept: int, rise: int)
    requires 0 < keep <= kept && keep <= d && x * rise <= 3 * x + 5 * d && e * kept < x * rise - d
    ensures e * (keep * keep) < 3 * x * keep + 4 * d * d
  {
    MulMono(keep, kept, e);
    BoundScaled(d, e * keep, 3 * x, keep);
    Assoc(e, keep, keep);
  }

  lemma BoundScaled(d: int, e: int, y: int, keep: nat)
    requires 0 < keep <= d && e < y + 4 * d
    ensures e * keep < y * keep + 4 * d * d
  {
    MulStrict(e, y + 4 * d, keep);
    Minus(y, 0 - 4 * d, keep);
    MulMono(keep, d, 4 * d);
  }

  /** The rise is small because the total is a fair part of the offer. */
  lemma RiseScaled(d: int, x: nat, total: nat, keep: nat, y: int)
    requires 0 < total && 0 < keep && y * total <= (2 * total + 3 * d) * x && x * keep < total * d && 0 < d
    ensures y * keep <= 2 * x * keep + 3 * d * d
  {
    MulMono(y * total, (2 * total + 3 * d) * x, keep);
    Assoc(y, total, keep);
    Assoc(2 * total + 3 * d, x, keep);
    Minus(2 * total, 0 - 3 * d, x * keep);
    MulMono(x * keep, total * d, 3 * d);
    Assoc(total, d, 3 * d);
    Assoc(2 * total, x, keep);
    Assoc(total, 2, x * keep);
    Minus(2 * (x * keep), 0 - d * (3 * d), total);
    CancelLe(y * keep, 2 * (x * keep) + d * (3 * d), total);
  }

  lemma ExcessWithin(d: int, x: nat, excluded: nat, total: nat, e: nat, keep: nat, kept: int, rise: int)
    requires 0 < keep <= kept && keep <= d && excluded <= total && 0 < total
    requires (x * rise) * total <= (2 * total + 3 * d) * x
    requires e * kept < x * rise - d && x * kept < excluded * d
    ensures e * (keep * keep) < 3 * x * keep + 4 * d * d
  {
    MulMono(keep, kept, e);
    MulMono(keep, kept, x);
    MulMono(excluded, total, d);
    RiseScaled(d, x, total, keep, x * rise);
    MulStrict(e * keep, x * rise, keep);
    Assoc(e, keep, keep);
    MulMono(0, x, keep);
  }

  /** A rate that did not rise charges no more than was offered. */
  lemma SameRateNoExcess(n: U64, m: U64, x: U64, excluded: U64)
    requires m <= n < FEE_DENOMINATOR && excluded <= ExcludedFeeValue(n, x)
    ensures CeilDiv(excluded * FEE_DENOMINATOR, FEE_DENOMINATOR - m) <= x
  {
    hide FloorDiv, CeilDiv;
    ExcludedFeeIsFloor(n, x);
    ExcludedFeeIsFloor(m, x);
    MulMono(FEE_DENOMINATOR - n, FEE_DENOMINATOR - m, x);
    FloorMono(x * (FEE_DENOMINATOR - n), x * (FEE_DENOMINATOR - m), FEE_DENOMINATOR);
    FeeAdjoint(m, x, excluded);
  }

  /** At or below what the reference amount leaves, and for offers up to the reference amount, the
      numerator does not rise at all. */
  lemma NoRiseAtCliff(l: Limiter, x: U64, excluded: U64)
    requires Sound(TiersOf(l)) && 0 < x && NumeratorFromExcluded(l, excluded).Ok?
    requires NumeratorFromIncluded(l, x).Ok?
    requires ExcludedAmount(l, x).Ok? && ExcludedAmount(l, l.referenceAmount).Ok?
    requires excluded < ExcludedAmount(l, x).value
    ensures x <= l.referenceAmount || excluded <= ExcludedAmount(l, l.referenceAmount).value ==>
              NumeratorFromExcluded(l, excluded).value <= NumeratorFromIncluded(l, x).value
  {
    hide TierSum, GetCheckedAmounts, QuadraticTotal, LinearTotal, NumeratorForTotal;
    if x <= l.referenceAmount {
      ExcludedFeeIsFloor(l.cliffFeeNumerator, x);
      ExcludedFeeIsFloor(l.cliffFeeNumerator, l.referenceAmount);
      MulMono(x, l.referenceAmount, FEE_DENOMINATOR - l.cliffFeeNumerator);
      FloorMono(
        x * (FEE_DENOMINATOR - l.cliffFeeNumerator),
        l.referenceAmount * (FEE_DENOMINATOR - l.cliffFeeNumerator), FEE_DENOMINATOR);
    } else if excluded <= ExcludedAmount(l, l.referenceAmount).value {
      NumeratorAboveSum(l, x);
      SumBounds(TiersOf(l), x);
      CancelLe(l.cliffFeeNumerator, NumeratorFromIncluded(l, x).value, x);
    }
  }

  lemma SmallRiseSmallExcess(
      l: Limiter, x: U64, excluded: U64, g: nat, total: nat, n: U64, m: U64, keep: nat)
    requires Sound(TiersOf(l)) && l.referenceAmount < x
    requires NumeratorFromIncluded(l, x).Ok? && ExcludedAmount(l, x).Ok?
    requires excluded < ExcludedAmount(l, x).value && StandsFor(TiersOf(l), g, excluded, total)
    requires n < m < FEE_DENOMINATOR && m - n <= g - NumeratorFromIncluded(l, x).value
    requires 0 < keep <= FEE_DENOMINATOR - m && excluded < ExcludedFeeValue(n, x)
    ensures var charged := CeilDiv(excluded * FEE_DENOMINATOR, FEE_DENOMINATOR - m);
            charged <= x || SmallExcess(x, charged, keep)
  {
    hide NumeratorFromIncluded, ExcludedAmount, StandsFor, FloorDiv, CeilDiv;
    var d, rise := FEE_DENOMINATOR as int, g - NumeratorFromIncluded(l, x).value;
    var charged := CeilDiv(excluded * d, d - m);
    NumeratorRise(l, x, excluded, g, total);
    ExcludedFeeIsFloor(n, x);
    if x < charged {
      MulMono(0, x, d - n);
      ExcessOfRise(d, x, excluded, n, m, charged, rise);
      if total <= x {
        CeilStep(excluded * d, d - m);
        MulMono(x, charged - 1, d - m);
        TotalCovers(TiersOf(l), g, excluded, total);
        ExcessWithin(d, x, excluded, total, charged - 1 - x, keep, d - m, rise);
      } else {
        ExcessBeyond(d, x, charged - 1 - x, keep, d - m, rise);
      }
    }
  }

  lemma TotalCovers(t: Tiers, g: nat, excluded: nat, total: nat)
    requires Sound(t) && StandsFor(t, g, excluded, total)
    ensures excluded <= total && 0 < total
  {
  }

  /** What a limiter charges, with a variable part on top and a cap on the whole, on less than what it
      leaves of `x`: at most `x` but for a small excess. */
  lemma LimiterExcess(l: Limiter, x: U64, excluded: U64, variable: nat, cap: U64)
    requires Sound(TiersOf(l)) && 0 < x && cap < FEE_DENOMINATOR
    requires NumeratorFromIncluded(l, x).Ok? && NumeratorFromExcluded(l, excluded).Ok?
    requires excluded < ExcludedFeeValue(Min(NumeratorFromIncluded(l, x).value + variable, cap), x)
    ensures var m := Min(NumeratorFromExcluded(l, excluded).value + variable, cap);
            var charged := CeilDiv(excluded * FEE_DENOMINATOR, FEE_DENOMINATOR - m);
            charged <= x || SmallExcess(x, charged, FEE_DENOMINATOR - cap)
  {
    hide NumeratorFromIncluded, NumeratorFromExcluded, FloorDiv, CeilDiv, StandsFor, SmallExcess,
         ExcludedAmount;
    var base, g := NumeratorFromIncluded(l, x).value, NumeratorFromExcluded(l, excluded).value;
    var n, m := Min(base + variable, cap), Min(g + variable, cap);
    if m <= n {
      SameRateNoExcess(n, m, x, excluded);
    } else {
      LessFeeLeavesMore(l, n, x);
      LeftBelowExact(l, l.referenceAmount);
      NoRiseAtCliff(l, x, excluded);
      var total := InverseStandsFor(l, excluded);
      SmallRiseSmallExcess(l, x, excluded, g, total, n, m, FEE_DENOMINATOR - cap);
    }
  }

  lemma LessFeeLeavesMore(l: Limiter, n: U64, x: U64)
    requires Sound(TiersOf(l)) && 0 < x && NumeratorFromIncluded(l, x).Ok?
    requires NumeratorFromIncluded(l, x).value <= n < FEE_DENOMINATOR
    ensures ExcludedAmount(l, x).Ok? && ExcludedFeeValue(n, x) <= ExcludedAmount(l, x).value
  {
    hide NumeratorFromIncluded, FloorDiv;
    var base := NumeratorFromIncluded(l, x).value;
    ExcludedFeeIsFloor(n, x);
    ExcludedFeeIsFloor(base, x);
    MulMono(FEE_DENOMINATOR - n, FEE_DENOMINATOR - base, x);
    FloorMono(x * (FEE_DENOMINATOR - n), x * (FEE_DENOMINATOR - base), FEE_DENOMINATOR);
  }

  // ----- Partial fills -----

  /** What `PartialInput` consumes and charges. */
  lemma PartialCharges(
      p: PoolData, f: TradingFee, amountIn: U64, m: FeeMode, direction: TradeDirection)
    requires ArePercents(p.shares) && PartialInput(p, f, amountIn, m, direction).Ok?
    ensures f.fromIncluded(amountIn).Ok? && MaxAmountIn(p, direction).Ok?
    ensures var offered := f.fromIncluded(amountIn).value;
            var most := MaxAmountIn(p, direction).value;
            var charged := PartialInput(p, f, amountIn, m, direction).value.includedFeeInputAmount;
            && InputAfterFee(p, m, offered, amountIn).Ok?
            && var input := InputAfterFee(p, m, offered, amountIn).value.amount;
            if input <= most then charged == amountIn
            else if !m.feesOnInput then charged == most < amountIn
            else
              && f.fromExcluded(most).Ok? && IncludedFee(f.fromExcluded(most).value, most).Ok?
              && charged == IncludedFee(f.fromExcluded(most).value, most).value.amount
  {
    hide IncludedFee, ChargeIncluded, OutputAfterFee, Split, MaxAmountIn;
  }

  lemma InputLeft(p: PoolData, m: FeeMode, numerator: U64, amountIn: U64)
    requires m.feesOnInput && numerator <= FEE_DENOMINATOR && InputAfterFee(p, m, numerator, amountIn).Ok?
    ensures InputAfterFee(p, m, numerator, amountIn).value.amount == ExcludedFeeValue(numerator, amountIn)
  {
    hide ExcludedFee, Split;
  }

  /** The curve takes everything that is left of the offer, or what it takes of it would also be left of
      the offer at the rate of the part alone. */
  ghost predicate OfferCovers(
      p: PoolData, f: TradingFee, m: FeeMode, direction: TradeDirection, amountIn: U64)
  {
    m.feesOnInput && f.fromIncluded(amountIn).Ok? && MaxAmountIn(p, direction).Ok? ==>
      var most, numerator := MaxAmountIn(p, direction).value, f.fromIncluded(amountIn).value;
      numerator <= FEE_DENOMINATOR && most < ExcludedFeeValue(numerator, amountIn)
      && f.fromExcluded(most).Ok? ==>
        var again := f.fromExcluded(most).value;
        again <= FEE_DENOMINATOR && most <= ExcludedFeeValue(again, amountIn)
  }

  /** Whatever the fee rate, a partial fill charges at most the offer exactly when the offer covers the
      largest useful input at the rate for that input; both are known before the swap. */
  lemma PartialWithinOfferIff(
      p: PoolData, f: TradingFee, amountIn: U64, m: FeeMode, direction: TradeDirection, cap: U64)
    requires ArePercents(p.shares) && Capped(f, cap) && cap < FEE_DENOMINATOR
    requires PartialInput(p, f, amountIn, m, direction).Ok?
    ensures PartialInput(p, f, amountIn, m, direction).value.includedFeeInputAmount <= amountIn
            <==> OfferCovers(p, f, m, direction, amountIn)
  {
    hide PartialInput, ExcludedFeeValue, InputAfterFee, IncludedFee, CeilDiv;
    PartialCharges(p, f, amountIn, m, direction);
    if m.feesOnInput {
      var most := MaxAmountIn(p, direction).value;
      InputLeft(p, m, f.fromIncluded(amountIn).value, amountIn);
      if most < ExcludedFeeValue(f.fromIncluded(amountIn).value, amountIn) {
        IncludedFeeIsCeil(f.fromExcluded(most).value, most);
        FeeAdjoint(f.fromExcluded(most).value, amountIn, most);
      }
    }
  }

  predicate LimiterApplies(p: PoolData, currentPoint: U64, direction: TradeDirection) {
    p.baseFee.Limit? && IsApplied(p.baseFee.limiter, currentPoint, p.activationPoint, direction)
  }

  /** Whatever the base fee, the dynamic fee and the cap, a partial fill never charges more than the offer
      but for a small excess, and without a rate limiter not even that. */
  lemma PartialExcessSmall(
      p: PoolData, currentPoint: U64, amountIn: U64, m: FeeMode, direction: TradeDirection, cap: U64)
    requires ArePercents(p.shares) && cap < FEE_DENOMINATOR
    requires LimiterApplies(p, currentPoint, direction) ==> Sound(TiersOf(p.baseFee.limiter))
    requires PartialInput(p, TradingFeeOf(p, currentPoint, direction, cap), amountIn, m, direction).Ok?
    ensures var f := TradingFeeOf(p, currentPoint, direction, cap);
            var charged := PartialInput(p, f, amountIn, m, direction).value.includedFeeInputAmount;
            charged <= amountIn
            || (LimiterApplies(p, currentPoint, direction)
                && SmallExcess(amountIn, charged, FEE_DENOMINATOR - cap))
  {
    hide PartialInput, ExcludedFeeValue, InputAfterFee, IncludedFee, CeilDiv, SmallExcess, IsApplied,
         NumeratorFromIncluded, NumeratorFromExcluded;
    var f := TradingFeeOf(p, currentPoint, direction, cap);
    PartialCharges(p, f, amountIn, m, direction);
    if LimiterApplies(p, currentPoint, direction) {
      var most := MaxAmountIn(p, direction).value;
      if m.feesOnInput {
        InputLeft(p, m, f.fromIncluded(amountIn).value, amountIn);
        if most < ExcludedFeeValue(f.fromIncluded(amountIn).value, amountIn) {
          IncludedFeeIsCeil(f.fromExcluded(most).value, most);
          LimiterExcess(
            p.baseFee.limiter, amountIn, most, DynamicFee.VariableFee(p.dynamicFee).value, cap);
        }
      }
    } else {
      FlatRate(p, currentPoint, direction, cap);
      PartialChargesAtMostOffered(p, f, f.fromIncluded(0).value, amountIn, m, direction);
    }
  }

  /** In pools as they are created, which charge at most half, the excess is at most six units for every
      10^9 offered, and 17 more. */
  lemma ExcessInUnits(offered: U64, charged: U64)
    requires SmallExcess(offered, charged, FEE_DENOMINATOR - MAX_FEE_NUMERATOR_V0)
    ensures charged <= offered + 6 * offered / FEE_DENOMINATOR + 17
  {
  }
}

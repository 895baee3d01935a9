/** How far the truncating power ladder can fall below the exact power, and what that means for
    the exponential fee schedule. */
module FeeMathBounds {
  import opened Checked
  import opened Division
  import opened FeeMath
  import opened UtilsMath

  /** The exact integer power. */
  ghost function Exact(b: nat, n: nat): (p: nat)
    ensures b > 0 ==> p > 0
  {
    if n == 0 then 1 else b * Exact(b, n - 1)
  }

  lemma Reassociate(x: int, y: int, z: int)
    ensures x * (y * z) == (x * y) * z
  {
  }

  lemma {:induction false} ExactAdd(b: nat, i: nat, j: nat)
    ensures Exact(b, i + j) == Exact(b, i) * Exact(b, j)
  {
    if i > 0 {
      var x, y, z := Exact(b, i - 1), Exact(b, j), Exact(b, i - 1 + j);
      ExactAdd(b, i - 1, j);
      assert Exact(b, i) == b * x && Exact(b, i + j) == b * z;
      Reassociate(b, x, y);
    }
  }

  lemma {:induction false} ExactBelow(b: nat, s: nat, n: nat)
    requires b <= s
    ensures Exact(b, n) <= Exact(s, n)
  {
    if n > 0 {
      ExactBelow(b, s, n - 1);
      MulMono(b, s, Exact(b, n - 1));
      MulMono(Exact(b, n - 1), Exact(s, n - 1), s);
    }
  }

  /** `x`, read as a Q64 number, is at most `(b / 2^64)^n` and at most `error` units below it. */
  ghost predicate Approx(x: int, error: nat, b: nat, n: nat) {
    && 0 <= x <= TWO_64
    && x * Exact(TWO_64, n) <= TWO_64 * Exact(b, n) <= (x + error) * Exact(TWO_64, n)
  }

  /** The product of two truncated numbers, truncated once more. */
  lemma ProductBelow(s: int, x: int, a: int, p: int, y: int, b: int, q: int, z: int)
    requires s > 0 && x >= 0 && y >= 0 && p > 0 && q > 0
    requires x * p <= s * a && y * q <= s * b && z * s <= x * y
    ensures z * (p * q) <= s * (a * b)
  {
    MulStrict(0, p, q);
    MulMono(z * s, x * y, p * q);
    Regroup(x, p, y, q);
    MulMono(0, y, q);
    MulMono(x * p, s * a, y * q);
    MulMono(0, x, p);
    MulMono(y * q, s * b, s * a);
    Regroup(s, a, s, b);
    assert (s * s) * (a * b) == (s * (a * b)) * s;
    assert (z * s) * (p * q) == (z * (p * q)) * s;
    CancelLe(z * (p * q), s * (a * b), s);
  }

  lemma FirstLoss(s: int, x: int, p: int, y: int, f: int, q: int, sb: int)
    requires 0 <= x <= s && p > 0 && q > 0 && f >= 0 && sb <= (y + f) * q
    ensures (x * p) * sb <= (x * y) * (p * q) + (s * f) * (p * q)
  {
    MulMono(0, x, p);
    MulMono(sb, (y + f) * q, x * p);
    Regroup(x, p, y + f, q);
    MulMono(x, s, f);
    MulStrict(0, p, q);
    MulMono(x * f, s * f, p * q);
    assert (x * (y + f)) * (p * q) == (x * y) * (p * q) + (x * f) * (p * q);
  }

  lemma SecondLoss(s: int, e: int, p: int, b: int, q: int)
    requires s > 0 && e >= 0 && p > 0 && b <= q
    ensures (e * p) * (s * b) <= (e * s) * (p * q)
  {
    MulMono(b, q, s);
    MulMono(0, e, p);
    MulMono(s * b, s * q, e * p);
    Regroup(e, p, s, q);
  }

  lemma ProductAbove(s: int, x: int, e: int, a: int, p: int, y: int, f: int, b: int, q: int, z: int)
    requires s > 0 && 0 <= x <= s && 0 <= y && p > 0 && q > 0 && e >= 0 && f >= 0
    requires 0 <= a && 0 <= b <= q
    requires s * a <= (x + e) * p && s * b <= (y + f) * q && x * y < (z + 1) * s
    ensures s * (a * b) <= (z + e + f + 1) * (p * q)
  {
    var w, sb := p * q, s * b;
    MulMono(0, b, s);
    MulMono(s * a, (x + e) * p, sb);
    assert ((x + e) * p) * sb == (x * p) * sb + (e * p) * sb;
    FirstLoss(s, x, p, y, f, q, sb);
    SecondLoss(s, e, p, b, q);
    MulStrict(0, p, q);
    MulMono(x * y, (z + 1) * s, w);
    GatherLosses(s, z, e, f, w);
    Regroup(s, a, s, b);
    assert (s * s) * (a * b) == (s * (a * b)) * s;
    CancelLe(s * (a * b), (z + e + f + 1) * w, s);
  }

  lemma Regroup(x: int, p: int, y: int, q: int)
    ensures (x * p) * (y * q) == (x * y) * (p * q)
  {
  }

  lemma GatherLosses(s: int, z: int, e: int, f: int, w: int)
    ensures ((z + 1) * s) * w + (s * f) * w + (e * s) * w == ((z + e + f + 1) * w) * s
  {
  }

  lemma ShiftShrinks(x: nat, y: nat)
    requires x <= TWO_64
    ensures FloorDiv(x * y, TWO_64) <= y
  {
    MulMono(x, TWO_64, y);
    FloorBelow(x * y, TWO_64, y + 1);
  }

  /** Multiplying two approximations and shifting back: the errors add up, plus one unit. */
  lemma MulApprox(x: U128, e: nat, i: nat, y: U128, f: nat, j: nat, b: nat)
    requires b <= TWO_64
    requires Approx(x, e, b, i) && Approx(y, f, b, j)
    ensures Approx(FloorDiv(x * y, TWO_64), e + f + 1, b, i + j)
  {
    var s, z := TWO_64, FloorDiv(x * y, TWO_64);
    ExactAdd(b, i, j);
    ExactAdd(s, i, j);
    ExactBelow(b, s, j);
    ProductBelow(s, x, Exact(b, i), Exact(s, i), y, Exact(b, j), Exact(s, j), z);
    ProductAbove(s, x, e, Exact(b, i), Exact(s, i), y, f, Exact(b, j), Exact(s, j), z);
    ShiftShrinks(x, y);
  }

  /** Below one, `MulShr64` cannot overflow. */
  lemma MulShr64Fits(x: U128, y: U128)
    requires x <= TWO_64 && y < TWO_64
    ensures MulShr64(x, y) == Ok(FloorDiv(x * y, TWO_64))
  {
    MulMono(x, TWO_64, y);
    MulStrict(y, TWO_64, TWO_64);
  }

  lemma MulBitApprox(bit: bool, result: U128, m: nat, squaredBase: U128, w: nat, b: nat)
    returns (result': U128, m': nat)
    requires b < TWO_64 && w > 0 && squaredBase < TWO_64
    requires Approx(result, m, b, m) && Approx(squaredBase, w - 1, b, w)
    ensures MulBit(bit, result, squaredBase) == Ok(result')
    ensures m' == if bit then m + w else m
    ensures Approx(result', m', b, m')
  {
    result', m' := result, m;
    if bit {
      MulShr64Fits(result, squaredBase);
      MulApprox(result, m, m, squaredBase, w - 1, w, b);
      result', m' := FloorDiv(result * squaredBase, TWO_64), m + w;
    }
  }

  lemma SquareApprox(squaredBase: U128, w: nat, b: nat) returns (squared': U128)
    requires b < TWO_64 && w > 0 && squaredBase < TWO_64
    requires Approx(squaredBase, w - 1, b, w)
    ensures MulShr64(squaredBase, squaredBase) == Ok(squared')
    ensures squared' < TWO_64 && Approx(squared', w + w - 1, b, w + w)
  {
    MulShr64Fits(squaredBase, squaredBase);
    MulApprox(squaredBase, w - 1, w, squaredBase, w - 1, w, b);
    squared' := FloorDiv(squaredBase * squaredBase, TWO_64);
    ShiftShrinks(squaredBase, squaredBase);
  }

  lemma SplitExponent(m: nat, w: nat, exp: nat)
    ensures m + w * exp == (if exp % 2 == 1 then m + w else m) + (w + w) * (exp / 2)
  {
    var rest := exp / 2;
    assert exp == 2 * rest + exp % 2;
    assert w * exp == (w + w) * rest + w * (exp % 2);
  }

  /** The ladder multiplies in one power per set bit; every unit of exponent it has consumed costs
      at most one unit in the last place. */
  lemma {:induction false} LadderError(
      result: U128, m: nat, squaredBase: U128, w: nat, exp: nat, rungs: nat, b: nat)
    requires b < TWO_64 && w > 0 && rungs > 0 && exp < Pow2(rungs)
    requires Approx(result, m, b, m)
    requires Approx(squaredBase, w - 1, b, w) && squaredBase < TWO_64
    ensures Ladder(result, squaredBase, exp, rungs).Ok?
    ensures Approx(Ladder(result, squaredBase, exp, rungs).value, m + w * exp, b, m + w * exp)
    decreases rungs
  {
    var bit, rest := exp % 2 == 1, exp / 2;
    var result', m' := MulBitApprox(bit, result, m, squaredBase, w, b);
    assert Pow2(rungs) == 2 * Pow2(rungs - 1);
    SplitExponent(m, w, exp);
    if rungs > 1 {
      var squared' := SquareApprox(squaredBase, w, b);
      LadderError(result', m', squared', w + w, rest, rungs - 1, b);
    }
  }

  lemma RungsCoverExponent(rungs: nat)
    requires rungs == RUNGS
    ensures Pow2(rungs) == MAX_EXPONENTIAL
  {
    var eight := 8;
    assert Pow2(eight) == 0x100;
    Pow2Double(eight, 0x100);
    Pow2Add(2 * eight, 3);
  }

  /** For a base below one, `pow` never rounds up, loses at most one unit of 2^-64 per unit of the
      exponent, and gives up only when the exact power is itself within that loss of zero. */
  lemma PowerError(base: U128, exp: I32)
    requires base < TWO_64 && 0 <= exp < MAX_EXPONENTIAL
    ensures match Power(base, exp)
            case Ok(r) => r > 0 && Approx(r, exp, base, exp)
            case Err(error) => error == MathOverflow && Approx(0, exp, base, exp)
  {
    assert Exact(base, 1) == base * Exact(base, 0);
    assert Exact(TWO_64, 1) == TWO_64 * Exact(TWO_64, 0);
    assert Approx(ONE_Q64, 0, base, 0);
    assert Approx(base, 0, base, 1);
    RungsCoverExponent(RUNGS);
    LadderError(ONE_Q64, 0, base, 1, exp, RUNGS, base);
  }

  /** Bases from one on and negative exponents go through a reciprocal, rounded down: of the base, of the
      result, or of both. What is raised to the power is then below one, and as accurate as above. */
  lemma PowerThroughReciprocals(base: U128, exp: I32) returns (start: nat, result: nat)
    requires 0 < base && -MAX_EXPONENTIAL < exp < MAX_EXPONENTIAL && exp != 0
    ensures if base < ONE_Q64 then start == base else start * base <= TWO_128 - 1 < (start + 1) * base
    ensures var n := if exp < 0 then -exp else exp;
            match Power(base, exp)
            case Err(error) => error == MathOverflow && Approx(0, n, start, n)
            case Ok(r) =>
              && 0 < result && Approx(result, n, start, n)
              && (if (exp < 0) == (base >= ONE_Q64) then r == result
                  else r * result <= TWO_128 - 1 < (r + 1) * result)
  {
    hide Ladder, Approx;
    var n := if exp < 0 then -exp else exp;
    start, result := base, 0;
    if base >= ONE_Q64 {
      start := FloorDiv(TWO_128 - 1, base);
      FloorBelow(TWO_128 - 1, base, TWO_64);
    }
    PowerError(start, n);
    if Ladder(ONE_Q64, start, n, RUNGS).Ok? {
      result := Ladder(ONE_Q64, start, n, RUNGS).value;
    }
  }

  lemma DecreaseStep(b: nat, s: nat, bm: nat, sn: nat, bn: nat, sm: nat)
    requires b <= s && bm * sn <= bn * sm
    ensures (b * bm) * sn <= bn * (s * sm)
  {
    Reassociate(b, bm, sn);
    MulMono(b, s, bm * sn);
    MulMono(bm * sn, bn * sm, s);
    assert s * (bn * sm) == bn * (s * sm);
  }

  /** Powers of a base below one decrease. */
  lemma {:induction false} ExactDecreases(b: nat, s: nat, n: nat, m: nat)
    requires b <= s && n <= m
    ensures Exact(b, m) * Exact(s, n) <= Exact(b, n) * Exact(s, m)
  {
    if n < m {
      ExactDecreases(b, s, n, m - 1);
      assert Exact(b, m) == b * Exact(b, m - 1) && Exact(s, m) == s * Exact(s, m - 1);
      DecreaseStep(b, s, Exact(b, m - 1), Exact(s, n), Exact(b, n), Exact(s, m - 1));
    }
  }

  /** The Q64 base of the exponential decay. */
  function DecayBase(reductionFactor: U64): (base: int)
    ensures 0 < reductionFactor <= BASIS_POINT_MAX ==> 0 <= base < TWO_64
    ensures reductionFactor > BASIS_POINT_MAX ==> base < 0
    ensures (TWO_64 - base) * BASIS_POINT_MAX <= reductionFactor * TWO_64
            < (TWO_64 - base + 1) * BASIS_POINT_MAX
  {
    TWO_64 - FloorDiv(reductionFactor * TWO_64, BASIS_POINT_MAX)
  }

  /** The fee the decay formula means: `cliff * (base / 2^64)^period`, rounded down once. */
  ghost function DecayedFee(cliff: U64, base: nat, period: nat): nat {
    FloorDiv(cliff * Exact(base, period), Exact(TWO_64, period))
  }

  /** Scaling an approximation by the cliff fee and shifting back. */
  lemma ScaleBelow(s: int, r: int, c: int, e: int, p: int, fee: int)
    requires s > 0 && c >= 0 && p > 0 && r * p <= s * e && fee * s <= r * c
    ensures fee * p <= c * e
  {
    MulMono(fee * s, r * c, p);
    MulMono(r * p, s * e, c);
    assert (fee * s) * p == (fee * p) * s;
    assert (r * c) * p == (r * p) * c;
    assert (s * e) * c == (c * e) * s;
    CancelLe(fee * p, c * e, s);
  }

  lemma ScaleAbove(s: int, r: int, n: int, c: int, e: int, p: int, fee: int)
    requires s > 0 && c >= 0 && p > 0 && s * e <= (r + n) * p && r * c < (fee + 1) * s && n * c < s
    ensures c * e < (fee + 2) * p
  {
    MulMono(s * e, (r + n) * p, c);
    assert (s * e) * c == (c * e) * s;
    assert ((r + n) * p) * c == (r * c) * p + (n * c) * p;
    MulStrict(r * c, (fee + 1) * s, p);
    MulStrict(n * c, s, p);
    assert ((fee + 1) * s) * p + s * p == ((fee + 2) * p) * s;
    CancelLt(c * e, (fee + 2) * p, s);
  }

  lemma ScaledPower(cliff: U64, base: nat, period: U16, r: U128)
    requires cliff < 1_000_000_000 && Approx(r, period, base, period)
    ensures ScaleFee(r, cliff).Ok?
    ensures var fee := ScaleFee(r, cliff).value;
            fee <= cliff && fee <= DecayedFee(cliff, base, period) <= fee + 1
  {
    var fee, e, p := FloorDiv(r * cliff, TWO_64), Exact(base, period), Exact(TWO_64, period);
    MulMono(r, TWO_64, cliff);
    ShiftShrinks(r, cliff);
    ScaleBelow(TWO_64, r, cliff, e, p, fee);
    MulMono(cliff, 1_000_000_000, period);
    ScaleAbove(TWO_64, r, period, cliff, e, p, fee);
    FloorAtLeast(cliff * e, p, fee);
    FloorBelow(cliff * e, p, fee + 2);
  }

  /** The exponential schedule charges the exact decayed fee or one unit less; within a reduction of
      100% it refuses only when the ladder gives up. */
  lemma FeeInPeriodExact(cliff: U64, reductionFactor: U64, period: U16)
    requires cliff < 1_000_000_000 && 0 < reductionFactor <= BASIS_POINT_MAX
    ensures var base := DecayBase(reductionFactor);
            match FeeInPeriod(cliff, reductionFactor, period)
            case Ok(fee) => fee <= DecayedFee(cliff, base, period) <= fee + 1 && fee <= cliff
            case Err(error) => error == MathOverflow && Approx(0, period, base, period)
  {
    var base := DecayBase(reductionFactor);
    PowerError(base, period);
    match Power(base, period)
    case Ok(r) => ScaledPower(cliff, base, period, r);
    case Err(_) =>
  }
}

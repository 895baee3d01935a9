/** Rounded multiply-divide helpers on 64, 128 and 256 bit words, and the integer square root. */
module UtilsMath {
  import opened Checked
  import opened Division

  datatype Rounding = Up | Down

  function Divide(a: nat, d: int, rounding: Rounding): (q: nat)
    requires d > 0
  {
    match rounding
    case Up => CeilDiv(a, d)
    case Down => FloorDiv(a, d)
  }

  function MulDivU64(x: U64, y: U64, denominator: U64, rounding: Rounding): Result<U64> {
    if denominator == 0 then Err(MathOverflow) else Cast64(Divide(x * y, denominator, rounding))
  }

  /** The ceiling goes through a division that panics on a zero denominator. */
  function MulDivU128(x: U128, y: U128, denominator: U128, rounding: Rounding): Result<U128> {
    if denominator == 0 then
      Err(if rounding.Up? then Panic else MathOverflow)
    else
      Cast128(Divide(x * y, denominator, rounding))
  }

  /** `safe_mul_shr_cast::<u64>`. */
  function MulShrCast64(x: U128, y: U128, scale: int): Result<U64>
    requires scale > 0
  {
    var q :- Fit128(FloorDiv(x * y, scale));
    Cast64(q)
  }

  /** `safe_mul_shr_256_cast::<u64>`. */
  function MulShr256Cast64(x: U256, y: U256, scale: int): Result<U64>
    requires scale > 0
  {
    var q :- Fit128(FloorDiv(x * y, scale));
    Cast64(q)
  }

  /** `safe_shl_div_cast::<u128>`, rounding down; the shifted product fits because offsets stay at 64. */
  function ShlDivCast128(x: U128, y: U128): Result<U128> {
    if y == 0 then Err(MathOverflow) else Fit128(FloorDiv(x * TWO_64, y))
  }

  /** `shl_div_256` at the liquidity scale; the quotient always fits because `x < 2^128`. */
  function ShlDiv256(x: U128, y: U128): Result<U256> {
    if y == 0 then Err(MathOverflow) else Fit256(FloorDiv(x * TWO_128, y))
  }

  function Pow2(k: nat): (p: int)
    ensures p > 0
  {
    if k == 0 then 1 else 2 * Pow2(k - 1)
  }

  lemma {:induction false} Pow2Add(j: nat, k: nat)
    ensures Pow2(j + k) == Pow2(j) * Pow2(k)
  {
    if j > 0 {
      var x, y, z := Pow2(j - 1), Pow2(k), Pow2(j - 1 + k);
      Pow2Add(j - 1, k);
      assert Pow2(j) == 2 * x && Pow2(j + k) == 2 * z;
      assert (2 * x) * y == 2 * (x * y);
    }
  }

  lemma {:induction false} Pow2Mono(j: nat, k: nat)
    requires j <= k
    ensures Pow2(j) <= Pow2(k)
  {
    if j < k {
      Pow2Mono(j, k - 1);
    }
  }

  /** The number of significant bits; `leading_zeros` is 256 minus this. */
  function BitLength(n: nat): (bits: nat)
    ensures n < Pow2(bits)
    ensures n > 0 ==> bits > 0 && Pow2(bits - 1) <= n
  {
    if n == 0 then 0 else 1 + BitLength(n / 2)
  }

  /** `1 << (j + j)` when `1 << j` is known. */
  lemma Pow2Double(j: nat, value: int)
    requires Pow2(j) == value
    ensures Pow2(j + j) == value * value
  {
    Pow2Add(j, j);
  }

  lemma Pow2Words(eight: nat)
    requires eight == 8
    ensures Pow2(16 * eight) == TWO_128
    ensures Pow2(32 * eight) == TWO_256
  {
    assert Pow2(eight) == 0x100;
    Pow2Double(eight, 0x100);
    Pow2Double(2 * eight, 0x1_0000);
    Pow2Double(4 * eight, 0x1_0000_0000);
    Pow2Double(8 * eight, TWO_64);
    Pow2Double(16 * eight, TWO_128);
  }

  lemma BitLengthBound(n: nat, width: nat)
    requires n < Pow2(width)
    ensures BitLength(n) <= width
  {
    var bits := BitLength(n);
    if n > 0 && width < bits {
      Pow2Mono(width, bits - 1);
    }
  }

  lemma DoubleSquare(p: int)
    ensures (2 * p) * (2 * p) == 4 * (p * p)
  {
  }

  /** With `bits` significant bits, `2 * k` is the even position the search starts from. */
  lemma LargestPowerOfFour(n: nat, bits: nat, k: nat)
    requires n > 0 && bits == BitLength(n) && k == (bits - 1) / 2
    ensures Pow2(2 * k) == Pow2(k) * Pow2(k)
    ensures Pow2(k) * Pow2(k) <= n < (2 * Pow2(k)) * (2 * Pow2(k))
  {
    Pow2Add(k, k);
    Pow2Mono(k + k, bits - 1);
    Pow2Mono(bits, k + k + 2);
    assert Pow2(k + k + 2) == 2 * Pow2(k + k + 1) == 4 * Pow2(k + k);
    DoubleSquare(Pow2(k));
  }

  lemma Halving(bit: int, half: int)
    requires half > 0 && bit == (2 * half) * (2 * half)
    ensures bit / 4 > 0
  {
    DoubleSquare(half);
    MulStrict(0, half, half);
  }

  ghost predicate IsFloorSqrt(n: int, root: int) {
    0 <= root && root * root <= n < (root + 1) * (root + 1)
  }

  /** The mathematical value the square root computes. */
  function FloorSqrt(n: nat): (root: nat)
    ensures IsFloorSqrt(n, root)
  {
    if n == 0 then 0
    else
      var root := FloorSqrt(n - 1);
      if (root + 1) * (root + 1) <= n then root + 1 else root
  }

  lemma FloorSqrtUnique(n: nat, root: nat)
    requires IsFloorSqrt(n, root)
    ensures root == FloorSqrt(n)
  {
    var other := FloorSqrt(n);
    if root < other {
      SquareMono(root + 1, other);
    } else if other < root {
      SquareMono(other + 1, root);
    }
  }

  lemma SquareMono(x: nat, y: nat)
    requires x <= y
    ensures x * x <= y * y
  {
    MulMono(x, y, x);
    MulMono(x, y, y);
  }

  /** What holds before every pass of the square root loop, with `q` the root found so far and `p`
      the weight of the digit to decide next. */
  ghost predicate RootInvariant(radicand: U256, n: int, result: int, bit: int, q: nat, p: nat) {
    && bit == p * p
    && n == radicand - q * q
    && q + 2 * p <= TWO_128
    && q * q <= radicand < (q + 2 * p) * (q + 2 * p)
    && result == q * (2 * p)
  }

  lemma RootStart(radicand: U256, p: nat)
    requires p * p <= radicand < (2 * p) * (2 * p) && 2 * p <= TWO_128
    ensures RootInvariant(radicand, radicand, 0, p * p, 0, p)
  {
  }

  lemma BitsOfWord(n: U256)
    ensures BitLength(n) <= 256
    ensures forall k: nat {:trigger Pow2(k)} :: k < 128 ==> 2 * Pow2(k) <= TWO_128
  {
    var eight := 8;
    Pow2Words(eight);
    BitLengthBound(n, 32 * eight);
    forall k: nat | k < 128
      ensures 2 * Pow2(k) <= TWO_128
    {
      Pow2Mono(k + 1, 16 * eight);
    }
  }

  /** The starting shift names the largest power of four not above the radicand. */
  lemma FirstShift(radicand: U256) returns (k: nat)
    requires radicand > 0
    ensures var shift := 255 - (256 - BitLength(radicand));
            shift >= 0 && shift - shift % 2 == 2 * k
            && Pow2(2 * k) < TWO_256
            && RootInvariant(radicand, radicand, 0, Pow2(2 * k), 0, Pow2(k))
  {
    var bits := BitLength(radicand);
    BitsOfWord(radicand);
    k := (bits - 1) / 2;
    LargestPowerOfFour(radicand, bits, k);
    RootStart(radicand, Pow2(k));
  }

  /** The trial subtraction asks exactly whether the next digit can be set. */
  lemma RootDigit(radicand: int, q: nat, p: nat)
    ensures (q + p) * (q + p) == q * q + q * (2 * p) + p * p
    ensures radicand - q * q >= q * (2 * p) + p * p <==> (q + p) * (q + p) <= radicand
  {
  }

  /** Neither the trial value nor the updated result leaves 256 bits. */
  lemma RootFits(radicand: U256, n: int, result: int, bit: int, q: nat, p: nat)
    requires RootInvariant(radicand, n, result, bit, q, p) && p > 0
    ensures 0 < bit && 0 <= result && result + bit < TWO_256 && result / 2 + bit < TWO_256
  {
    var s := q + p;
    RootDigit(radicand, q, p);
    MulMono(s, TWO_128 - 1, s);
    MulMono(s, TWO_128 - 1, TWO_128 - 1);
    MulMono(0, q, q);
    MulMono(0, q, 2 * p);
    MulStrict(0, p, p);
  }

  /** `checked_shr(1)` of the wide integers: no one bit may be shifted out. */
  function ShrExact(x: U256): Result<U256> {
    if x % 2 == 0 then Ok(x / 2) else Err(MathOverflow)
  }

  /** The running result is even whenever it is halved, so halving it is exact. */
  lemma HalvingExact(radicand: U256, n: int, result: U256, bit: int, q: nat, p: nat)
    requires RootInvariant(radicand, n, result, bit, q, p)
    ensures ShrExact(result) == Ok(result / 2)
  {
    assert q * (2 * p) == 2 * (q * p);
  }

  /** Both branches of the loop body, for the digit weights that are still to be halved. */
  lemma RootStep(radicand: U256, n: int, result: int, bit: int, q: nat, p: nat, half: nat)
    requires RootInvariant(radicand, n, result, bit, q, p) && p == 2 * half
    ensures n >= result + bit ==>
              RootInvariant(radicand, n - (result + bit), result / 2 + bit, bit / 4, q + p, half)
    ensures n < result + bit ==> RootInvariant(radicand, n, result / 2, bit / 4, q, half)
  {
    RootDigit(radicand, q, p);
    DoubleSquare(half);
    assert q * (2 * p) == 2 * (q * p);
    assert (q + p) * (2 * half) == q * p + p * p;
  }

  /** The last digit has weight one and leaves the floor of the root. */
  lemma RootLast(radicand: U256, n: int, result: int, bit: int, q: nat)
    requires RootInvariant(radicand, n, result, bit, q, 1)
    ensures bit == 1
    ensures IsFloorSqrt(radicand, if n >= result + bit then result / 2 + bit else result / 2)
  {
    RootDigit(radicand, q, 1);
    assert result == 2 * q && bit == 1;
  }

  /** `sqrt_u256`: exactly the floor of the square root for every radicand. Taking `.value` of the
      checked operations, the exact halvings among them, is a proof that none of them ever returns
      `None`. */
  method SqrtU256(radicand: U256) returns (root: Result<U256>)
    ensures root.Ok? && IsFloorSqrt(radicand, root.value)
    ensures root.value == FloorSqrt(radicand)
  {
    if radicand == 0 {
      return Ok(0);
    }
    var maxShift := 256 - 1;
    var shift := maxShift - (256 - BitLength(radicand));
    ghost var k := FirstShift(radicand);
    var bit: U256 := Fit256(Pow2(shift - shift % 2)).value;

    var n: U256 := radicand;
    var result: U256 := 0;
    ghost var q: nat, p: nat := 0, Pow2(k);
    while bit != 0
      invariant if bit == 0 then IsFloorSqrt(radicand, result)
                else p == Pow2(k) && RootInvariant(radicand, n, result, bit, q, p)
      decreases bit
    {
      RootFits(radicand, n, result, bit, q, p);
      HalvingExact(radicand, n, result, bit, q, p);
      if k == 0 {
        RootLast(radicand, n, result, bit, q);
      } else {
        RootStep(radicand, n, result, bit, q, p, Pow2(k - 1));
        Halving(bit, Pow2(k - 1));
      }
      var resultWithBit: U256 := Fit256(result + bit).value;
      if n >= resultWithBit {
        n := Fit256(n - resultWithBit).value;
        result := Fit256(ShrExact(result).value + bit).value;
        q := q + p;
      } else {
        result := ShrExact(result).value;
      }
      bit := bit / 4;
      p := p / 2;
      k := if k == 0 then 0 else k - 1;
    }
    FloorSqrtUnique(radicand, result);
    return Ok(result);
  }
}

/** The Q64.64 power ladder and the exponential fee decay built on it. */
module FeeMath {
  import opened Checked
  import opened Division

  const ONE_Q64: U128 := TWO_64
  const MAX_EXPONENTIAL: int := 0x80000
  const RUNGS: nat := 19
  const BASIS_POINT_MAX: U64 := 10_000

  type I32 = x: int | -0x8000_0000 <= x < 0x8000_0000

  /** `checked_mul` followed by a shift right by 64. */
  function MulShr64(x: U128, y: U128): (r: Result<U128>) {
    var product :- Fit128(x * y);
    Ok(FloorDiv(product, TWO_64) as U128)
  }

  function MulBit(bit: bool, result: U128, squaredBase: U128): Result<U128> {
    if bit then MulShr64(result, squaredBase) else Ok(result)
  }

  /** What the unrolled rungs compute: the lowest bit of the exponent decides whether the running
      power enters the result, then the power is squared for the next bit. */
  function Ladder(result: U128, squaredBase: U128, exp: nat, rungs: nat): Result<U128>
    decreases rungs
  {
    if rungs == 0 then
      Ok(result)
    else
      var result': U128 :- MulBit(exp % 2 == 1, result, squaredBase);
      if rungs == 1 then
        Ok(result')
      else
        var squared': U128 :- MulShr64(squaredBase, squaredBase);
        Ladder(result', squared', exp / 2, rungs - 1)
  }

  /** The value of `pow`, in terms of the ladder. */
  function Power(base: U128, exp: I32): Result<U128> {
    if exp == 0 then
      Ok(ONE_Q64)
    else if exp == -0x8000_0000 then
      Err(Panic)
    else
      var e := if exp < 0 then -exp else exp;
      if e >= MAX_EXPONENTIAL then
        Err(MathOverflow)
      else
        var inverted := base >= ONE_Q64;
        var start := if inverted then FloorDiv(TWO_128 - 1, base) else base;
        var result: U128 :- Ladder(ONE_Q64, start, e, RUNGS);
        if result == 0 then
          Err(MathOverflow)
        else if (exp < 0) != inverted then
          Ok(FloorDiv(TWO_128 - 1, result))
        else
          Ok(result)
  }

  /** One unrolled rung: multiply if the bit is set, then square for the next bit. */
  method Rung(result: U128, squaredBase: U128, bit: bool, ghost e: nat, ghost rungs: nat)
    returns (next: Result<(U128, U128)>)
    requires rungs > 1 && bit == (e % 2 == 1)
    ensures match next
            case Err(error) => Ladder(result, squaredBase, e, rungs) == Err(error)
            case Ok((result', squared')) =>
              Ladder(result, squaredBase, e, rungs) == Ladder(result', squared', e / 2, rungs - 1)
  {
    var result': U128 := result;
    if bit {
      result' :- MulShr64(result, squaredBase);
    }
    var squared': U128 :- MulShr64(squaredBase, squaredBase);
    return Ok((result', squared'));
  }

  /** Bits 0 to 5 of the exponent. */
  method LowRungs(base: U128, e: nat) returns (rungs: Result<(U128, U128)>)
    requires e < MAX_EXPONENTIAL
    ensures match rungs
            case Err(error) => Ladder(ONE_Q64, base, e, RUNGS) == Err(error)
            case Ok((result, squared)) =>
              Ladder(ONE_Q64, base, e, RUNGS) == Ladder(result, squared, e / 0x40, RUNGS - 6)
  {
    var rung: (U128, U128) := (ONE_Q64, base);
    rung :- Rung(rung.0, rung.1, (e / 0x1) % 2 == 1, e / 0x1, RUNGS - 0);
    assert e / 0x2 == e / 0x1 / 2;
    rung :- Rung(rung.0, rung.1, (e / 0x2) % 2 == 1, e / 0x2, RUNGS - 1);
    assert e / 0x4 == e / 0x2 / 2;
    rung :- Rung(rung.0, rung.1, (e / 0x4) % 2 == 1, e / 0x4, RUNGS - 2);
    assert e / 0x8 == e / 0x4 / 2;
    rung :- Rung(rung.0, rung.1, (e / 0x8) % 2 == 1, e / 0x8, RUNGS - 3);
    assert e / 0x10 == e / 0x8 / 2;
    rung :- Rung(rung.0, rung.1, (e / 0x10) % 2 == 1, e / 0x10, RUNGS - 4);
    assert e / 0x20 == e / 0x10 / 2;
    rung :- Rung(rung.0, rung.1, (e / 0x20) % 2 == 1, e / 0x20, RUNGS - 5);
    assert e / 0x40 == e / 0x20 / 2;
    return Ok(rung);
  }

  /** Bits 6 to 11 of the exponent. */
  method MiddleRungs(base: U128, e: nat) returns (rungs: Result<(U128, U128)>)
    requires e < MAX_EXPONENTIAL
    ensures match rungs
            case Err(error) => Ladder(ONE_Q64, base, e, RUNGS) == Err(error)
            case Ok((result, squared)) =>
              Ladder(ONE_Q64, base, e, RUNGS) == Ladder(result, squared, e / 0x1000, RUNGS - 12)
  {
    var rung: (U128, U128) :- LowRungs(base, e);
    rung :- Rung(rung.0, rung.1, (e / 0x40) % 2 == 1, e / 0x40, RUNGS - 6);
    assert e / 0x80 == e / 0x40 / 2;
    rung :- Rung(rung.0, rung.1, (e / 0x80) % 2 == 1, e / 0x80, RUNGS - 7);
    assert e / 0x100 == e / 0x80 / 2;
    rung :- Rung(rung.0, rung.1, (e / 0x100) % 2 == 1, e / 0x100, RUNGS - 8);
    assert e / 0x200 == e / 0x100 / 2;
    rung :- Rung(rung.0, rung.1, (e / 0x200) % 2 == 1, e / 0x200, RUNGS - 9);
    assert e / 0x400 == e / 0x200 / 2;
    rung :- Rung(rung.0, rung.1, (e / 0x400) % 2 == 1, e / 0x400, RUNGS - 10);
    assert e / 0x800 == e / 0x400 / 2;
    rung :- Rung(rung.0, rung.1, (e / 0x800) % 2 == 1, e / 0x800, RUNGS - 11);
    assert e / 0x1000 == e / 0x800 / 2;
    return Ok(rung);
  }

  /** All nineteen unrolled rungs, one for each bit of the exponent. */
  method Rungs(base: U128, e: nat) returns (power: Result<U128>)
    requires e < MAX_EXPONENTIAL
    ensures power == Ladder(ONE_Q64, base, e, RUNGS)
  {
    var rung: (U128, U128) :- MiddleRungs(base, e);
    rung :- Rung(rung.0, rung.1, (e / 0x1000) % 2 == 1, e / 0x1000, RUNGS - 12);
    assert e / 0x2000 == e / 0x1000 / 2;
    rung :- Rung(rung.0, rung.1, (e / 0x2000) % 2 == 1, e / 0x2000, RUNGS - 13);
    assert e / 0x4000 == e / 0x2000 / 2;
    rung :- Rung(rung.0, rung.1, (e / 0x4000) % 2 == 1, e / 0x4000, RUNGS - 14);
    assert e / 0x8000 == e / 0x4000 / 2;
    rung :- Rung(rung.0, rung.1, (e / 0x8000) % 2 == 1, e / 0x8000, RUNGS - 15);
    assert e / 0x10000 == e / 0x8000 / 2;
    rung :- Rung(rung.0, rung.1, (e / 0x10000) % 2 == 1, e / 0x10000, RUNGS - 16);
    assert e / 0x20000 == e / 0x10000 / 2;
    rung :- Rung(rung.0, rung.1, (e / 0x20000) % 2 == 1, e / 0x20000, RUNGS - 17);
    assert e / 0x40000 == e / 0x20000 / 2;
    if (e / 0x40000) % 2 == 1 {
      var result: U128 :- MulShr64(rung.0, rung.1);
      return Ok(result);
    }
    return Ok(rung.0);
  }

  /** `pow` */
  method Pow(base: U128, exp: I32) returns (power: Result<U128>)
    ensures power == Power(base, exp)
  {
    var invert := exp < 0;
    if exp == 0 {
      return Ok(ONE_Q64);
    }
    if exp == -0x8000_0000 {
      return Err(Panic);
    }
    var e := if invert then -exp else exp;
    if e >= MAX_EXPONENTIAL {
      return Err(MathOverflow);
    }
    var squaredBase: U128 := base;
    if squaredBase >= ONE_Q64 {
      squaredBase := FloorDiv(TWO_128 - 1, squaredBase);
      invert := !invert;
    }
    var result: U128 :- Rungs(squaredBase, e);
    if result == 0 {
      return Err(MathOverflow);
    }
    if invert {
      result := FloorDiv(TWO_128 - 1, result);
    }
    return Ok(result);
  }

  function ScaleFee(power: U128, cliff: U64): Result<U64> {
    var product :- Fit128(power * cliff);
    Cast64(FloorDiv(product, TWO_64))
  }

  /** `get_fee_in_period` */
  function FeeInPeriod(cliff: U64, reductionFactor: U64, period: U16): Result<U64> {
    if reductionFactor == 0 then
      Ok(cliff)
    else
      var base :- Fit128(TWO_64 - FloorDiv(reductionFactor * TWO_64, BASIS_POINT_MAX));
      var result :- Power(base, period);
      ScaleFee(result, cliff)
  }
}

/** Constant product arithmetic on Q64.64 square root prices, with the rounding of every token
    amount and every price fixed against the trader. */
module Curve {
  import opened Checked
  import opened Division
  import opened UtilsMath

  const MIN_SQRT_PRICE: U128 := 4_295_048_016
  const MAX_SQRT_PRICE: U128 := 79_226_673_521_066_979_257_578_248_091

  // Products of two 128-bit words are formed in 256 bits, where they always fit (`WideProduct`); only
  // the checks that can fail are spelled out.

  /** `get_delta_amount_a_unsigned`: `L * (upper - lower) / (upper * lower)`. */
  function DeltaA(lower: U128, upper: U128, liquidity: U128, rounding: Rounding): Result<U64> {
    if upper < lower || lower == 0 then
      Err(Panic)
    else
      Fit64(Divide(liquidity * (upper - lower), lower * upper, rounding))
  }

  /** `get_delta_amount_b_unsigned`: `L * (upper - lower)`, scaled down by 2^128. */
  function DeltaB(lower: U128, upper: U128, liquidity: U128, rounding: Rounding): Result<U64> {
    if upper < lower then Err(MathOverflow)
    else Fit64(Divide(liquidity * (upper - lower), TWO_128, rounding))
  }

  function NextPriceFromAmountInA(sqrtPrice: U128, liquidity: U128, amount: U64): Result<U128> {
    if amount == 0 then Ok(sqrtPrice)
    else if liquidity + amount * sqrtPrice == 0 then Err(MathOverflow)
    else Cast128(Divide(liquidity * sqrtPrice, liquidity + amount * sqrtPrice, Up))
  }

  function NextPriceFromAmountOutA(sqrtPrice: U128, liquidity: U128, amount: U64): Result<U128> {
    if amount == 0 then Ok(sqrtPrice)
    else if liquidity - amount * sqrtPrice <= 0 then Err(MathOverflow)
    else Cast128(Divide(liquidity * sqrtPrice, liquidity - amount * sqrtPrice, Up))
  }

  function NextPriceFromAmountInB(sqrtPrice: U128, liquidity: U128, amount: U64): Result<U128> {
    if liquidity == 0 then Err(MathOverflow)
    else Cast128(sqrtPrice + FloorDiv(amount * TWO_128, liquidity))
  }

  function NextPriceFromAmountOutB(sqrtPrice: U128, liquidity: U128, amount: U64): Result<U128> {
    if liquidity == 0 then Err(Panic)
    else
      var difference := sqrtPrice - CeilDiv(amount * TWO_128, liquidity);
      if difference < 0 then Err(MathOverflow) else Ok(difference)
  }

  function NextPriceFromInput(sqrtPrice: U128, liquidity: U128, amount: U64, aForB: bool): Result<U128> {
    if sqrtPrice == 0 || liquidity == 0 then Err(Panic)
    else if aForB then NextPriceFromAmountInA(sqrtPrice, liquidity, amount)
    else NextPriceFromAmountInB(sqrtPrice, liquidity, amount)
  }

  function NextPriceFromOutput(sqrtPrice: U128, liquidity: U128, amount: U64, aForB: bool): Result<U128> {
    if sqrtPrice == 0 || liquidity == 0 then Err(Panic)
    else if aForB then NextPriceFromAmountOutB(sqrtPrice, liquidity, amount)
    else NextPriceFromAmountOutA(sqrtPrice, liquidity, amount)
  }

  /** No intermediate product of the curve overflows 256 bits. */
  lemma WideProduct(x: U128, y: U128)
    ensures 0 <= x * y < TWO_256
  {
    SquareBound(x, y, TWO_128);
    assert TWO_128 * TWO_128 == TWO_256;
  }

  lemma SquareBound(x: nat, y: nat, bound: int)
    requires x < bound && y < bound
    ensures 0 <= x * y < bound * bound
  {
    MulMono(x, bound, y);
    MulStrict(y, bound, bound);
  }

  // ----- What the roundings guarantee, as exact integer inequalities -----

  /** `amount` of token A is at least what moving between the two prices takes out of the curve. */
  ghost predicate CoversA(liquidity: nat, lower: nat, upper: nat, amount: int) {
    liquidity * (upper - lower) <= amount * (lower * upper)
  }

  /** `amount` of token A is at most what moving between the two prices releases. */
  ghost predicate WithinA(liquidity: nat, lower: nat, upper: nat, amount: int) {
    amount * (lower * upper) <= liquidity * (upper - lower)
  }

  ghost predicate CoversB(liquidity: nat, lower: nat, upper: nat, amount: int) {
    liquidity * (upper - lower) <= amount * TWO_128
  }

  ghost predicate WithinB(liquidity: nat, lower: nat, upper: nat, amount: int) {
    amount * TWO_128 <= liquidity * (upper - lower)
  }

  /** Rounding up gives the least amount that covers the move, rounding down the greatest amount the
      move releases. */
  lemma DeltaARounding(lower: U128, upper: U128, liquidity: U128, rounding: Rounding, k: int)
    requires DeltaA(lower, upper, liquidity, rounding).Ok?
    ensures 0 < lower <= upper
    ensures var amount := DeltaA(lower, upper, liquidity, rounding).value;
            match rounding
            case Up => CoversA(liquidity, lower, upper, k) <==> amount <= k
            case Down => WithinA(liquidity, lower, upper, k) <==> k <= amount
  {
    var amount, area := DeltaA(lower, upper, liquidity, rounding).value, lower * upper;
    MulStrict(0, lower, upper);
    CompareMultiples(liquidity * (upper - lower), area, amount, k);
  }

  lemma DeltaBRounding(lower: U128, upper: U128, liquidity: U128, rounding: Rounding, k: int)
    requires DeltaB(lower, upper, liquidity, rounding).Ok?
    ensures lower <= upper
    ensures var amount := DeltaB(lower, upper, liquidity, rounding).value;
            match rounding
            case Up => CoversB(liquidity, lower, upper, k) <==> amount <= k
            case Down => WithinB(liquidity, lower, upper, k) <==> k <= amount
  {
  }

  /** Where an integer lies relative to a rounded quotient decides how its multiple compares. */
  lemma CompareMultiples(a: int, d: int, q: int, k: int)
    requires d > 0
    ensures a <= q * d < a + d ==> (a <= k * d <==> q <= k)
    ensures q * d <= a < (q + 1) * d ==> (k * d <= a <==> k <= q)
  {
    if q <= k {
      MulMono(q, k, d);
    } else {
      MulMono(k, q - 1, d);
    }
    if k <= q {
      MulMono(k, q, d);
    } else {
      MulMono(q + 1, k, d);
    }
  }

  /** An input of token A moves the price down exactly as far as the input covers. */
  lemma PriceAfterInputA(sqrtPrice: U128, liquidity: U128, amount: U64, target: nat)
    requires sqrtPrice > 0 && liquidity > 0
    requires NextPriceFromAmountInA(sqrtPrice, liquidity, amount).Ok?
    ensures var next := NextPriceFromAmountInA(sqrtPrice, liquidity, amount).value;
            && 0 < next <= sqrtPrice
            && (CoversA(liquidity, target, sqrtPrice, amount) <==> next <= target)
  {
    var next := NextPriceFromAmountInA(sqrtPrice, liquidity, amount).value;
    MulStrict(0, liquidity, sqrtPrice);
    if amount == 0 {
      assert CoversA(liquidity, target, sqrtPrice, amount) <==> liquidity * (sqrtPrice - target) <= 0;
      SignOfProduct(liquidity, sqrtPrice - target);
    } else {
      var denominator := liquidity + amount * sqrtPrice;
      MulStrict(0, amount, sqrtPrice);
      CompareMultiples(liquidity * sqrtPrice, denominator, next, target);
      CompareMultiples(liquidity * sqrtPrice, denominator, next, sqrtPrice);
      CompareMultiples(liquidity * sqrtPrice, denominator, next, 0);
      ExpandA(liquidity, sqrtPrice, amount, target);
      FallsFrom(liquidity, sqrtPrice, amount);
    }
  }

  /** The new price is below the old one. */
  lemma FallsFrom(liquidity: nat, price: nat, amount: nat)
    requires 0 < price && 0 < amount
    ensures liquidity * price < price * (liquidity + amount * price)
  {
    MulStrict(0, amount, price);
    MulStrict(0, amount * price, price);
    assert price * (liquidity + amount * price) == liquidity * price + amount * price * price;
  }

  lemma SignOfProduct(x: int, y: int)
    requires x > 0
    ensures x * y <= 0 <==> y <= 0
    ensures 0 <= x * y <==> 0 <= y
  {
  }

  lemma ExpandA(liquidity: int, price: int, amount: int, target: int)
    ensures target * (liquidity + amount * price) - liquidity * price
            == amount * (target * price) - liquidity * (price - target)
  {
  }

  lemma ContractA(liquidity: int, price: int, amount: int, target: int)
    ensures target * (liquidity - amount * price) - liquidity * price
            == liquidity * (target - price) - amount * (price * target)
  {
  }

  lemma OutputAStep(liquidity: int, price: int, amount: int, denominator: int, next: int, target: int)
    requires 0 < denominator <= liquidity && price > 0
    requires denominator == liquidity - amount * price
    requires liquidity * price <= next * denominator < liquidity * price + denominator
    ensures price <= next
    ensures amount * (price * target) <= liquidity * (target - price) <==> next <= target
  {
    CompareMultiples(liquidity * price, denominator, next, target);
    ContractA(liquidity, price, amount, target);
    OutputAMovesUp(liquidity, price, denominator, next);
  }

  lemma OutputAMovesUp(liquidity: int, price: int, denominator: int, next: int)
    requires 0 < denominator && denominator <= liquidity && 0 < price
    requires liquidity * price <= next * denominator
    ensures price <= next
  {
    if next < price {
      MulStrict(next, price, denominator);
      MulMono(denominator, liquidity, price);
    }
  }

  /** An output of token A moves the price up to the least price at which the curve releases it. */
  lemma PriceAfterOutputA(sqrtPrice: U128, liquidity: U128, amount: U64, target: nat)
    requires sqrtPrice > 0 && liquidity > 0
    requires NextPriceFromAmountOutA(sqrtPrice, liquidity, amount).Ok?
    ensures var next := NextPriceFromAmountOutA(sqrtPrice, liquidity, amount).value;
            && sqrtPrice <= next
            && (WithinA(liquidity, sqrtPrice, target, amount) <==> next <= target)
  {
    var next := NextPriceFromAmountOutA(sqrtPrice, liquidity, amount).value;
    assert amount > 0 ==> amount * sqrtPrice > 0 by {
      if amount > 0 {
        MulStrict(0, amount, sqrtPrice);
      }
    }
    if amount == 0 {
      SignOfProduct(liquidity, target - sqrtPrice);
    } else {
      OutputAStep(liquidity, sqrtPrice, amount, liquidity - amount * sqrtPrice, next, target);
    }
  }

  /** An input of token B moves the price up exactly as far as the input covers. */
  lemma PriceAfterInputB(sqrtPrice: U128, liquidity: U128, amount: U64, target: nat)
    requires NextPriceFromAmountInB(sqrtPrice, liquidity, amount).Ok?
    ensures liquidity > 0
    ensures var next := NextPriceFromAmountInB(sqrtPrice, liquidity, amount).value;
            && sqrtPrice <= next
            && (CoversB(liquidity, sqrtPrice, target, amount) <==> target <= next)
  {
    var quotient := FloorDiv(amount * TWO_128, liquidity);
    CompareMultiples(amount * TWO_128, liquidity, quotient, target - sqrtPrice);
  }

  /** An output of token B moves the price down to the greatest price at which the curve releases
      it. */
  lemma PriceAfterOutputB(sqrtPrice: U128, liquidity: U128, amount: U64, target: nat)
    requires NextPriceFromAmountOutB(sqrtPrice, liquidity, amount).Ok?
    ensures liquidity > 0
    ensures var next := NextPriceFromAmountOutB(sqrtPrice, liquidity, amount).value;
            && next <= sqrtPrice
            && (WithinB(liquidity, target, sqrtPrice, amount) <==> target <= next)
  {
    var quotient := CeilDiv(amount * TWO_128, liquidity);
    CompareMultiples(amount * TWO_128, liquidity, quotient, sqrtPrice - target);
  }
}

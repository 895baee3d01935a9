/** The curve as a ledger of receipts: what the vaults have received net of what they paid out always
    covers the exact change of the reserves, so no sequence of swaps pays for nothing. */
module Receipts {
  import opened Checked
  import opened Division
  import opened Curve
  import opened Fees
  import opened PoolState
  import opened SwapQuotes
  import opened SwapProofs

  /** `received` of token A, negative when paid out, covers moving the price from `from` to `to`. */
  ghost predicate ReceiptA(liquidity: nat, from: nat, to: nat, received: int) {
    liquidity * (from - to) <= received * (from * to)
  }

  ghost predicate ReceiptB(liquidity: nat, from: nat, to: nat, received: int) {
    liquidity * (to - from) <= received * TWO_128
  }

  lemma ScaleChain(l: int, s: int, t: int, u: int, d: int, e: int)
    requires l * (s - t) <= d * (s * t) && l * (t - u) <= e * (t * u)
    requires 0 < s && 0 < t && 0 < u
    ensures (l * (s - u)) * t <= ((d + e) * (s * u)) * t
  {
    MulMono(l * (s - t), d * (s * t), u);
    MulMono(l * (t - u), e * (t * u), s);
    assert (l * (s - t)) * u + (l * (t - u)) * s == (l * (s - u)) * t;
    assert (d * (s * t)) * u + (e * (t * u)) * s == ((d + e) * (s * u)) * t;
  }

  /** Receipts add up along a path of prices. */
  lemma ChainA(liquidity: nat, s: nat, t: nat, u: nat, d: int, e: int)
    requires 0 < s && 0 < t && 0 < u
    requires ReceiptA(liquidity, s, t, d) && ReceiptA(liquidity, t, u, e)
    ensures ReceiptA(liquidity, s, u, d + e)
  {
    ScaleChain(liquidity, s, t, u, d, e);
    CancelLe(liquidity * (s - u), (d + e) * (s * u), t);
  }

  lemma ChainB(liquidity: nat, s: nat, t: nat, u: nat, d: int, e: int)
    requires ReceiptB(liquidity, s, t, d) && ReceiptB(liquidity, t, u, e)
    ensures ReceiptB(liquidity, s, u, d + e)
  {
    assert liquidity * (t - s) + liquidity * (u - t) == liquidity * (u - s);
  }

  /** Receiving more keeps a receipt. */
  lemma MoreA(liquidity: nat, s: nat, t: nat, d: int, e: int)
    requires ReceiptA(liquidity, s, t, d) && d <= e
    ensures ReceiptA(liquidity, s, t, e)
  {
    Product(s, t);
    MulMono(d, e, s * t);
  }

  lemma Product(s: nat, t: nat)
    ensures 0 <= s * t
  {
  }

  datatype Receipt = Receipt(a: int, b: int)

  function Plus(r: Receipt, s: Receipt): Receipt {
    Receipt(r.a + s.a, r.b + s.b)
  }

  function InOut(direction: TradeDirection, amountIn: int, amountOut: int): Receipt {
    if direction.AtoB? then Receipt(amountIn, -amountOut) else Receipt(-amountOut, amountIn)
  }

  function OnToken(isA: bool, amount: int): Receipt {
    if isA then Receipt(amount, 0) else Receipt(0, amount)
  }

  ghost predicate Covered(liquidity: nat, from: nat, to: nat, r: Receipt) {
    ReceiptA(liquidity, from, to, r.a) && ReceiptB(liquidity, from, to, r.b)
  }

  /** What a swap adds to the two vaults: the input, less the output, less the referral fee, which is
      paid out of the vault of the fee token. */
  function VaultChange(m: FeeMode, direction: TradeDirection, r: SwapResult): Receipt {
    Plus(
      InOut(direction, r.includedFeeInputAmount, r.outputAmount),
      OnToken(m.feesOnTokenA, 0 - r.fees.referral))
  }

  lemma FairMoveCovered(p: PoolData, direction: TradeDirection, amountIn: int, amountOut: int, next: nat)
    requires FairMove(p, direction, amountIn, amountOut, next)
    ensures Covered(p.liquidity, p.sqrtPrice, next, InOut(direction, amountIn, amountOut))
  {
    var l, s := p.liquidity, p.sqrtPrice;
    assert l * (next - s) == -(l * (s - next));
    assert (-amountOut) * TWO_128 == -(amountOut * TWO_128);
    NegatedProduct(amountOut, s, next);
  }

  lemma NegatedProduct(x: int, s: int, t: int)
    ensures (-x) * (s * t) == -(x * (t * s)) == -(x * (s * t))
    ensures s * t == t * s
  {
  }

  /** Whatever the fees, the vaults gain at least the curve receipts plus the fees they keep. */
  lemma SwapCovered(p: PoolData, m: FeeMode, hasReferral: bool, direction: TradeDirection, r: SwapResult)
    requires FairSwap(p, m, direction, r) && m == GetFeeMode(p.collectFeeMode, direction, hasReferral)
    ensures var change := VaultChange(m, direction, r);
            var kept := OnToken(m.feesOnTokenA, FeeKept(r.fees));
            Covered(
              p.liquidity, p.sqrtPrice, r.nextSqrtPrice, Receipt(change.a - kept.a, change.b - kept.b))
  {
    hide FairMove, Covered;
    var curveIn := r.includedFeeInputAmount - (if m.feesOnInput then FeeTotal(r.fees) else 0);
    var curveOut := r.outputAmount + (if m.feesOnInput then 0 else FeeTotal(r.fees));
    FairMoveCovered(p, direction, curveIn, curveOut, r.nextSqrtPrice);
  }

  // ----- Sequences of swaps -----

  /** One swap of any mode, at any fee rate. */
  datatype Trade = Trade(
    mode: SwapMode, amount: U64, direction: TradeDirection, hasReferral: bool, rate: TradingFee)

  datatype Traded = Traded(price: U128, net: Receipt)

  /** Swapping in turn at fixed liquidity: the final price and the net change of the vaults. */
  ghost function Swaps(p: PoolData, steps: seq<Trade>): Result<Traded>
    decreases |steps|
  {
    if steps == [] then
      Ok(Traded(p.sqrtPrice, Receipt(0, 0)))
    else
      var step := steps[0];
      var m := GetFeeMode(p.collectFeeMode, step.direction, step.hasReferral);
      var r :- Quote(p, step.rate, step.mode, step.amount, m, step.direction);
      var rest :- Swaps(p.(sqrtPrice := r.nextSqrtPrice), steps[1..]);
      Ok(Traded(rest.price, Plus(VaultChange(m, step.direction, r), rest.net)))
  }

  lemma KeepMore(liquidity: nat, s: nat, t: nat, r: Receipt, kept: Receipt)
    requires 0 <= kept.a && 0 <= kept.b
    requires Covered(liquidity, s, t, Receipt(r.a - kept.a, r.b - kept.b))
    ensures Covered(liquidity, s, t, r)
  {
    MoreA(liquidity, s, t, r.a - kept.a, r.a);
  }

  lemma ChainCovered(liquidity: nat, s: nat, t: nat, u: nat, r: Receipt, rest: Receipt)
    requires 0 < s && 0 < t && 0 < u
    requires Covered(liquidity, s, t, r) && Covered(liquidity, t, u, rest)
    ensures Covered(liquidity, s, u, Plus(r, rest))
  {
    ChainA(liquidity, s, t, u, r.a, rest.a);
    ChainB(liquidity, s, t, u, r.b, rest.b);
  }

  lemma {:induction false} SwapsCovered(p: PoolData, steps: seq<Trade>)
    requires InRange(p) && Swaps(p, steps).Ok?
    ensures var outcome := Swaps(p, steps).value;
            && p.sqrtMinPrice <= outcome.price <= p.sqrtMaxPrice
            && Covered(p.liquidity, p.sqrtPrice, outcome.price, outcome.net)
    decreases |steps|
  {
    hide Quote, VaultChange;
    if steps != [] {
      var step := steps[0];
      var m := GetFeeMode(p.collectFeeMode, step.direction, step.hasReferral);
      var r := Quote(p, step.rate, step.mode, step.amount, m, step.direction).value;
      QuoteFair(p, step.rate, step.mode, step.amount, m, step.direction);
      SwapCovered(p, m, step.hasReferral, step.direction, r);
      var next := p.(sqrtPrice := r.nextSqrtPrice);
      SwapsCovered(next, steps[1..]);
      KeepMore(
        p.liquidity, p.sqrtPrice, r.nextSqrtPrice, VaultChange(m, step.direction, r),
        OnToken(m.feesOnTokenA, FeeKept(r.fees)));
      var rest := Swaps(next, steps[1..]).value;
      ChainCovered(
        p.liquidity, p.sqrtPrice, r.nextSqrtPrice, rest.price, VaultChange(m, step.direction, r),
        rest.net);
    }
  }

  lemma SignOfReceipts(liquidity: nat, from: nat, to: nat, r: Receipt)
    requires 0 < from && 0 < to && Covered(liquidity, from, to, r)
    ensures r.a <= 0 ==> 0 <= r.b
    ensures r.b <= 0 ==> 0 <= r.a
  {
    MulStrict(0, from, to);
    if liquidity > 0 {
      SignOfProduct(liquidity, from - to);
      SignOfProduct(liquidity, to - from);
    }
    if r.a < 0 {
      MulStrict(r.a, 0, from * to);
    }
  }

  /** No free lunch: after any sequence of swaps of any modes, directions and fee rates, if the pool
      did not gain one token it did not lose the other. */
  lemma NoFreeLunch(p: PoolData, steps: seq<Trade>)
    requires InRange(p) && Swaps(p, steps).Ok?
    ensures var net := Swaps(p, steps).value.net;
            (net.a <= 0 ==> 0 <= net.b) && (net.b <= 0 ==> 0 <= net.a)
  {
    hide Swaps;
    SwapsCovered(p, steps);
    var outcome := Swaps(p, steps).value;
    SignOfReceipts(p.liquidity, p.sqrtPrice, outcome.price, outcome.net);
  }
}

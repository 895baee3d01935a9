/** Every instruction keeps the vaults covering the curve's exact reserves and the unclaimed fees. */
module Solvency {
  import opened Checked
  import opened Division
  import opened UtilsMath
  import opened Curve
  import opened Fees
  import opened DynamicFee
  import opened PoolState
  import opened SwapQuotes
  import opened SwapProofs
  import opened Rewards
  import opened Positions
  import opened Pools
  import opened Instructions
  import opened Receipts
  import opened Sums
  import opened Ledger
  import opened Balance

  // ----- Liquidity -----

  lemma SplitLiquidity(l: int, m: int, x: int)
    ensures (l + m) * x == l * x + m * x
    ensures (l - m) * x == l * x - m * x
  {
  }

  lemma GrowA(l: nat, m: nat, s: nat, t: nat, d: int, e: int)
    requires ReceiptA(l, s, t, d) && ReceiptA(m, s, t, e)
    ensures ReceiptA(l + m, s, t, d + e)
  {
    SplitLiquidity(l, m, s - t);
    SplitLiquidity(d, e, s * t);
  }

  lemma GrowB(l: nat, m: nat, s: nat, t: nat, d: int, e: int)
    requires ReceiptB(l, s, t, d) && ReceiptB(m, s, t, e)
    ensures ReceiptB(l + m, s, t, d + e)
  {
    SplitLiquidity(l, m, t - s);
  }

  lemma ShrinkA(l: nat, m: nat, s: nat, t: nat, d: int, e: int)
    requires m <= l && ReceiptA(l, s, t, d) && e * (t * s) <= m * (s - t)
    ensures ReceiptA(l - m, s, t, d - e)
  {
    SplitLiquidity(l, m, s - t);
    SplitLiquidity(d, e, s * t);
    assert t * s == s * t;
  }

  lemma ShrinkB(l: nat, m: nat, s: nat, t: nat, d: int, e: int)
    requires m <= l && ReceiptB(l, s, t, d) && e * TWO_128 <= m * (t - s)
    ensures ReceiptB(l - m, s, t, d - e)
  {
    SplitLiquidity(l, m, t - s);
  }

  lemma Commute(x: int, s: int, t: int)
    ensures x * (s * t) == x * (t * s)
  {
  }

  /** Adding liquidity deposits at least the exact reserve of the liquidity added. */
  lemma AddCovered(p: PoolData, p': PoolData, held: Receipt, claimed: Receipt, delta: U128, amounts: Amounts)
    requires ReservesCovered(p, held, claimed) && AmountsForLiquidity(p, delta, Up) == Ok(amounts)
    requires p' == p.(liquidity := p'.liquidity, rewards := p'.rewards)
    requires p'.liquidity == p.liquidity + delta
    ensures ReservesCovered(p', Plus(held, Receipt(amounts.a, amounts.b)), claimed)
  {
    hide DeltaA, DeltaB, ReceiptA, ReceiptB;
    AmountsUp(p, delta, amounts);
    GrowA(
      p.liquidity, delta, p.sqrtMaxPrice, p.sqrtPrice, Free(held.a, p.a, claimed.a), amounts.a);
    GrowB(
      p.liquidity, delta, p.sqrtMinPrice, p.sqrtPrice, Free(held.b, p.b, claimed.b), amounts.b);
  }

  lemma AmountsUp(p: PoolData, delta: U128, amounts: Amounts)
    requires AmountsForLiquidity(p, delta, Up) == Ok(amounts)
    ensures ReceiptA(delta, p.sqrtMaxPrice, p.sqrtPrice, amounts.a)
    ensures ReceiptB(delta, p.sqrtMinPrice, p.sqrtPrice, amounts.b)
  {
    hide DeltaA, DeltaB;
    DeltaARounding(p.sqrtPrice, p.sqrtMaxPrice, delta, Up, amounts.a);
    DeltaBRounding(p.sqrtMinPrice, p.sqrtPrice, delta, Up, amounts.b);
    Commute(amounts.a, p.sqrtPrice, p.sqrtMaxPrice);
  }

  /** Removing liquidity pays out at most the exact reserve of the liquidity removed. */
  lemma RemoveCovered(
      p: PoolData, p': PoolData, held: Receipt, claimed: Receipt, delta: U128, amounts: Amounts)
    requires ReservesCovered(p, held, claimed) && AmountsForLiquidity(p, delta, Down) == Ok(amounts)
    requires p' == p.(liquidity := p'.liquidity, rewards := p'.rewards)
    requires p'.liquidity == p.liquidity - delta
    ensures ReservesCovered(p', Plus(held, Receipt(0 - amounts.a, 0 - amounts.b)), claimed)
  {
    hide DeltaA, DeltaB, ReceiptA, ReceiptB;
    AmountsDown(p, delta, amounts);
    ShrinkA(
      p.liquidity, delta, p.sqrtMaxPrice, p.sqrtPrice, Free(held.a, p.a, claimed.a), amounts.a);
    ShrinkB(
      p.liquidity, delta, p.sqrtMinPrice, p.sqrtPrice, Free(held.b, p.b, claimed.b), amounts.b);
  }

  lemma AmountsDown(p: PoolData, delta: U128, amounts: Amounts)
    requires AmountsForLiquidity(p, delta, Down) == Ok(amounts)
    ensures amounts.a * (p.sqrtPrice * p.sqrtMaxPrice) <= delta * (p.sqrtMaxPrice - p.sqrtPrice)
    ensures amounts.b * TWO_128 <= delta * (p.sqrtPrice - p.sqrtMinPrice)
  {
    hide DeltaA, DeltaB;
    DeltaARounding(p.sqrtPrice, p.sqrtMaxPrice, delta, Down, amounts.a);
    DeltaBRounding(p.sqrtMinPrice, p.sqrtPrice, delta, Down, amounts.b);
  }

  // ----- Swaps -----

  lemma QuoteOfFair(p: PoolData, s: SwapParameters, currentPoint: U64)
    requires PricesInRange(p) && QuoteOf(p, s, currentPoint).Ok?
    ensures var r := QuoteOf(p, s, currentPoint).value;
            && FairSwap(p, FeeModeOf(p, s), s.direction, r)
            && InRange(p.(sqrtPrice := r.nextSqrtPrice))
  {
    hide Quote, FairSwap, TradingFeeOf;
    var cap := MaxFeeNumerator(p.version).value;
    QuoteFair(
      p, TradingFeeOf(p, currentPoint, s.direction, cap), s.mode, s.amount0, FeeModeOf(p, s), s.direction);
  }

  /** What applying a swap changes in the fee books of the pool. */
  lemma ApplySwapLanes(p: PoolData, r: SwapResult, m: FeeMode, now: U64)
    requires ApplySwap(p, r, m, now).Ok?
    ensures var p' := ApplySwap(p, r, m, now).value;
            var kept := OnToken(m.feesOnTokenA, FeeKept(r.fees));
            && p' == p.(sqrtPrice := r.nextSqrtPrice, dynamicFee := p'.dynamicFee, a := p'.a, b := p'.b)
            && PostSwap(p.dynamicFee, p.sqrtPrice, r.nextSqrtPrice, now) == Ok(p'.dynamicFee)
            && (forall held: int, claimed: int ::
                  Free(held, p'.a, claimed) == Free(held, p.a, claimed) - kept.a)
            && (forall held: int, claimed: int ::
                  Free(held, p'.b, claimed) == Free(held, p.b, claimed) - kept.b)
            && (!m.feesOnTokenA ==> p'.a == p.a)
  {
    hide ShlDiv256, PostSwap;
  }

  /** A swap moves the curve along with exactly what the vaults gain less the fees kept. */
  lemma SwapKeepsReserves(
      p: PoolData, p': PoolData, m: FeeMode, hasReferral: bool, direction: TradeDirection, r: SwapResult,
      held: Receipt, claimed: Receipt, now: U64)
    requires PricesInRange(p) && ReservesCovered(p, held, claimed)
    requires FairSwap(p, m, direction, r) && m == GetFeeMode(p.collectFeeMode, direction, hasReferral)
    requires 0 < r.nextSqrtPrice && ApplySwap(p, r, m, now) == Ok(p')
    ensures ReservesCovered(p', Plus(held, VaultChange(m, direction, r)), claimed)
  {
    hide FairSwap, ReceiptA, ReceiptB, ApplySwap, VaultChange, Free, FeeKept;
    ApplySwapLanes(p, r, m, now);
    SwapCovered(p, m, hasReferral, direction, r);
    var change := VaultChange(m, direction, r);
    var kept := OnToken(m.feesOnTokenA, FeeKept(r.fees));
    ChainA(
      p.liquidity, p.sqrtMaxPrice, p.sqrtPrice, r.nextSqrtPrice, Free(held.a, p.a, claimed.a),
      change.a - kept.a);
    ChainB(
      p.liquidity, p.sqrtMinPrice, p.sqrtPrice, r.nextSqrtPrice, Free(held.b, p.b, claimed.b),
      change.b - kept.b);
    MoreHeld(held.a, change.a, p.a, claimed.a);
    MoreHeld(held.b, change.b, p.b, claimed.b);
  }

  lemma MoreHeld(held: int, change: int, lane: FeeLane, claimed: int)
    ensures Free(held + change, lane, claimed) == Free(held, lane, claimed) + change
  {
  }

  lemma SwapAppliedKeeps(
      p: PoolData, s: SwapParameters, now: U64, currentPoint: U64, held: Receipt, claimed: Receipt)
    requires SwapReady(p) && ReservesCovered(p, held, claimed)
    requires SwapApplied(p, s, now, currentPoint).Ok?
    ensures var r := SwapApplied(p, s, now, currentPoint).value;
            && SwapReady(r.pool)
            && ReservesCovered(
                 r.pool, Plus(held, VaultChange(FeeModeOf(p, s), s.direction, r.result)), claimed)
            && (!s.hasReferral ==> r.result.fees.referral == 0)
  {
    hide QuoteOf, FairSwap, ReceiptA, ReceiptB, ApplySwap, VaultChange, PreSwap, PostSwap, Bounded, Free;
    PreSwapBounded(p.dynamicFee, p.sqrtPrice, now);
    var p1 := p.(dynamicFee := PreSwap(p.dynamicFee, p.sqrtPrice, now).value);
    QuoteOfFair(p1, s, currentPoint);
    var r := SwapApplied(p, s, now, currentPoint).value;
    var m := FeeModeOf(p, s);
    ApplySwapLanes(p1, r.result, m, now);
    SwapKeepsReserves(p1, r.pool, m, s.hasReferral, s.direction, r.result, held, claimed, now);
    PostSwapBounded(p1.dynamicFee, p1.sqrtPrice, r.result.nextSqrtPrice, now);
    ReferralOnlyIfAsked(p1, m, s.direction, r.result);
  }

  lemma ReferralOnlyIfAsked(p: PoolData, m: FeeMode, direction: TradeDirection, r: SwapResult)
    requires FairSwap(p, m, direction, r)
    ensures !m.hasReferral ==> r.fees.referral == 0
  {
    hide FairMove;
  }

  // ----- The vaults are never short -----

  lemma FreeNonNegative(p: PoolData, held: Receipt, claimed: Receipt)
    requires PricesInRange(p) && ReservesCovered(p, held, claimed)
    ensures 0 <= Free(held.a, p.a, claimed.a) && 0 <= Free(held.b, p.b, claimed.b)
  {
    hide Free;
    var freeA, freeB := Free(held.a, p.a, claimed.a), Free(held.b, p.b, claimed.b);
    PositiveProduct(p.sqrtMaxPrice, p.sqrtPrice);
    NonNegativeCover(p.liquidity, p.sqrtMaxPrice - p.sqrtPrice, freeA, p.sqrtMaxPrice * p.sqrtPrice);
    NonNegativeCover(p.liquidity, p.sqrtPrice - p.sqrtMinPrice, freeB, TWO_128);
  }

  lemma NonNegativeCover(l: nat, x: nat, d: int, scale: int)
    requires l * x <= d * scale
    ensures 0 < scale ==> 0 <= d
  {
    Product(l, x);
    if 0 < scale && d < 0 {
      MulStrict(d, 0, scale);
    }
  }

  lemma PositiveProduct(x: int, y: int)
    requires 0 < x && 0 < y
    ensures 0 < x * y
  {
  }

  lemma OwedFeeNonNegative(q: PositionData, token: Token, stored: nat)
    requires LaneOf(q, token).checkpoint <= stored
    ensures 0 <= OwedFee(q, token, stored)
  {
    Product(Liquidity(q), stored - LaneOf(q, token).checkpoint);
  }

  /** Fees paid out never exceed fees recorded. */
  lemma ClaimedAtMostRecorded(
      positions: Slots, token: Token, stored: nat, totalLp: int, claimed: int)
    requires FeesConserved(positions, token, stored, totalLp, claimed)
    ensures claimed <= totalLp
  {
    hide OwedFee, LaneOf;
    forall k | 0 <= k < |positions| ensures 0 <= Weight(positions[k], FeeWeight(token, stored)) {
      if positions[k].Some? {
        OwedFeeNonNegative(positions[k].value, token, stored);
      }
    }
    SumNonNegative(positions, FeeWeight(token, stored));
    CancelLe(claimed, totalLp, TWO_128);
  }

  lemma OwedRewardNonNegative(q: PositionData, index: nat, stored: nat)
    requires index < NUM_REWARDS && q.rewards[index].checkpoint <= stored
    ensures 0 <= OwedReward(q, index, stored)
  {
    Product(Liquidity(q), stored - q.rewards[index].checkpoint);
  }

  lemma BackingNonNegative(r: RewardData)
    requires Rewards.WellFormed(r)
    ensures 0 <= Backing(r)
  {
    Product(r.rewardRate, FundedSeconds(r));
  }

  /** A backed stream's vault is not overdrawn. */
  lemma VaultNotOverdrawn(positions: Slots, index: nat, r: RewardData, vault: int)
    requires index < NUM_REWARDS && StreamBooks(positions, index, r, vault)
    ensures 0 <= vault
  {
    hide OwedReward, Backing;
    var stored := r.rewardPerTokenStored;
    forall k | 0 <= k < |positions| ensures 0 <= Weight(positions[k], RewardWeight(index, stored)) {
      if positions[k].Some? {
        OwedRewardNonNegative(positions[k].value, index, stored);
      }
    }
    SumNonNegative(positions, RewardWeight(index, stored));
    BackingNonNegative(r);
    CancelLe(0, vault, TWO_192);
  }

  /** Both vaults hold at least what is unclaimed by protocol, partner and positions. */
  lemma HeldCoversUnclaimed(
      p: PoolData, positions: Slots, held: Receipt, claimed: Receipt, vault0: int, vault1: int)
    requires Balanced(p, positions, claimed, vault0, vault1)
    requires PricesInRange(p) && ReservesCovered(p, held, claimed)
    ensures p.a.protocolFee + p.a.partnerFee <= held.a && p.b.protocolFee + p.b.partnerFee <= held.b
  {
    hide FeesConserved, LiquidityAgrees, StreamBooks, ReservesCovered;
    FreeNonNegative(p, held, claimed);
    ClaimedAtMostRecorded(positions, Token.A, p.a.perLiquidity, p.a.totalLpFee, claimed.a);
    ClaimedAtMostRecorded(positions, Token.B, p.b.perLiquidity, p.b.totalLpFee, claimed.b);
  }
}

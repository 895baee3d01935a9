/** The fee of a swap reaches those it is meant for: the liquidity, up to rounding, and the protocol and
    the partner, exactly. */
module FeeAccrual {
  import opened Checked
  import opened Division
  import opened UtilsMath
  import opened Fees
  import opened PoolState
  import opened Positions
  import opened Pools
  import opened Instructions
  import opened Sums
  import opened Ledger
  import opened Balance
  import opened Runs
  import DynamicFee

  /** `growth` per unit of liquidity is the greatest that hands out no more than `fee`. */
  ghost predicate SpreadOver(fee: nat, liquidity: nat, growth: int) {
    growth * liquidity <= fee * TWO_128 < (growth + 1) * liquidity
  }

  /** Lanes before and after a fee was recorded in them. */
  ghost predicate FeeRecorded(lane: FeeLane, lane': FeeLane, fees: SplitFees, liquidity: nat) {
    && SpreadOver(fees.trading, liquidity, lane'.perLiquidity - lane.perLiquidity)
    && lane'.protocolFee == lane.protocolFee + fees.protocol
    && lane'.partnerFee == lane.partnerFee + fees.partner
    && lane'.totalLpFee == lane.totalLpFee + fees.trading
    && lane'.totalProtocolFee == lane.totalProtocolFee + fees.protocol
    && lane'.totalPartnerFee == lane.totalPartnerFee + fees.partner
  }

  lemma GrowthSpreads(fee: U64, liquidity: U128)
    requires ShlDiv256(fee, liquidity).Ok?
    ensures SpreadOver(fee, liquidity, ShlDiv256(fee, liquidity).value)
  {
  }

  /** A swap that is applied records its fee in the lane of the fee token and leaves the other alone. */
  lemma SwapRecordsFees(p: PoolData, r: SwapResult, m: FeeMode, now: U64)
    requires ApplySwap(p, r, m, now).Ok?
    ensures var p' := ApplySwap(p, r, m, now).value;
            && FeeRecorded(
                 PoolLane(p, FeeToken(m)), PoolLane(p', FeeToken(m)), r.fees, p.liquidity)
            && (if m.feesOnTokenA then p'.b == p.b else p'.a == p.a)
            && p' == p.(sqrtPrice := r.nextSqrtPrice, dynamicFee := p'.dynamicFee, a := p'.a, b := p'.b)
  {
    hide ShlDiv256, DynamicFee.PostSwap, SpreadOver;
    GrowthSpreads(r.fees.trading, p.liquidity);
  }

  // ----- On the ledger -----

  /** What the positions are owed in one token, accrued or pending, if nothing were rounded. */
  ghost function OwedInFees(s: State, token: Token): int {
    Sum(s.positions, FeeWeight(token, PoolLane(s.pool, token).perLiquidity))
  }

  lemma SumsGrow(positions: Slots, token: Token, stored: nat, growth: nat, liquidity: int, permanent: int)
    requires LiquidityAgrees(positions, liquidity, permanent)
    ensures Sum(positions, FeeWeight(token, stored + growth))
            == Sum(positions, FeeWeight(token, stored)) + liquidity * growth
  {
    var before, after, share := FeeWeight(token, stored), FeeWeight(token, stored + growth), LiquidityWeight();
    forall q: PositionData ensures after(q) == before(q) + share(q) * growth {
      MoreGrowth(
        LaneOf(q, token).pending * TWO_128, Liquidity(q), stored, LaneOf(q, token).checkpoint, growth);
    }
    SumGrows(positions, before, after, share, growth);
  }

  lemma SpreadGrows(fee: nat, liquidity: nat, growth: nat)
    requires SpreadOver(fee, liquidity, growth)
    ensures fee * TWO_128 - liquidity < liquidity * growth <= fee * TWO_128
  {
    assert (growth + 1) * liquidity == liquidity * growth + liquidity;
  }

  lemma NoNegativeGrowth(fee: nat, liquidity: nat, growth: int)
    requires SpreadOver(fee, liquidity, growth)
    ensures 0 <= growth
  {
    if growth < 0 {
      MulMono(growth + 1, 0, liquidity);
    }
  }

  /** A swap step credits the positions together with its trading fee, in the token it charges, up to
      less than one unit of the accumulator for each unit of liquidity, and with nothing in the other. */
  lemma SwapCreditsPositions(s: State, e: Event)
    requires Reachable(s) && e.action.Swap? && Step(s, e).Done?
    ensures var s' := Step(s, e).value;
            var parameters := e.action.parameters;
            var token := FeeToken(FeeModeOf(s.pool, parameters));
            var fee := SwapApplied(s.pool, parameters, e.time, e.point).value.result.fees.trading;
            && SwapApplied(s.pool, parameters, e.time, e.point).Ok?
            && OwedInFees(s, token) + fee * TWO_128 - s.pool.liquidity < OwedInFees(s', token)
            && OwedInFees(s', token) <= OwedInFees(s, token) + fee * TWO_128
            && (forall other: Token :: other != token ==> OwedInFees(s', other) == OwedInFees(s, other))
  {
    hide Reachable, QuoteOf, CheckSlippage, ApplySwap, DynamicFee.PreSwap, SwapTransfers, Reserves, FeeWeight,
         SwapReady, VestingsOpen, VestedAgrees, ReservesCovered, FeesConserved, StreamBooks, LiquidityAgrees,
         SpreadOver;
    ReachableHolds(s);
    var parameters := e.action.parameters;
    var m := FeeModeOf(s.pool, parameters);
    var token := FeeToken(m);
    var applied := SwapApplied(s.pool, parameters, e.time, e.point).value;
    var p := s.pool.(dynamicFee := DynamicFee.PreSwap(s.pool.dynamicFee, s.pool.sqrtPrice, e.time).value);
    SwapRecordsFees(p, applied.result, m, e.time);
    var fee := applied.result.fees.trading;
    var stored := PoolLane(s.pool, token).perLiquidity;
    var growth := PoolLane(applied.pool, token).perLiquidity - stored;
    NoNegativeGrowth(fee, p.liquidity, growth);
    SpreadGrows(fee, p.liquidity, growth);
    SumsGrow(s.positions, token, stored, growth, s.pool.liquidity, s.pool.permanentLockLiquidity);
  }
}

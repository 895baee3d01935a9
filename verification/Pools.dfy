/** The pool: applying a swap, moving liquidity, and claiming protocol and partner fees. */
module Pools {
  import opened Checked
  import opened UtilsMath
  import opened Curve
  import opened Fees
  import opened DynamicFee
  import opened PoolState
  import opened Rewards
  import opened Positions

  function PoolLane(p: PoolData, token: Token): FeeLane {
    if token.A? then p.a else p.b
  }

  /** The fee token's half of `apply_swap_result`. The growth is computed before anything is added. */
  function LaneAfterSwap(lane: FeeLane, f: SplitFees, growth: U256): Result<FeeLane> {
    var partner: U64 :- Fit64(lane.partnerFee + f.partner);
    var protocol: U64 :- Fit64(lane.protocolFee + f.protocol);
    var stored: U256 :- Fit256(lane.perLiquidity + growth);
    var totalLp: U128 :- Fit128(lane.totalLpFee + f.trading);
    var totalProtocol: U64 :- Fit64(lane.totalProtocolFee + f.protocol);
    var totalPartner: U64 :- Fit64(lane.totalPartnerFee + f.partner);
    Ok(FeeLane(stored, protocol, partner, totalLp, totalProtocol, totalPartner))
  }

  /** `apply_swap_result` */
  function ApplySwap(p: PoolData, r: SwapResult, m: FeeMode, now: U64): Result<PoolData> {
    var growth: U256 :- ShlDiv256(r.fees.trading, p.liquidity);
    var lane :- LaneAfterSwap(if m.feesOnTokenA then p.a else p.b, r.fees, growth);
    var dynamicFee :- PostSwap(p.dynamicFee, p.sqrtPrice, r.nextSqrtPrice, now);
    var p1 := p.(sqrtPrice := r.nextSqrtPrice, dynamicFee := dynamicFee);
    Ok(if m.feesOnTokenA then p1.(a := lane) else p1.(b := lane))
  }

  datatype Amounts = Amounts(a: U64, b: U64)

  /** `get_amounts_for_modify_liquidity` */
  function AmountsForLiquidity(p: PoolData, delta: U128, rounding: Rounding): Result<Amounts> {
    var a: U64 :- DeltaA(p.sqrtPrice, p.sqrtMaxPrice, delta, rounding);
    var b: U64 :- DeltaB(p.sqrtMinPrice, p.sqrtPrice, delta, rounding);
    Ok(Amounts(a, b))
  }

  /** `get_reserves_amount`; the B amount is computed first. */
  function Reserves(p: PoolData): Result<Amounts> {
    var b: U64 :- DeltaB(p.sqrtMinPrice, p.sqrtPrice, p.liquidity, Down);
    var a: U64 :- DeltaA(p.sqrtPrice, p.sqrtMaxPrice, p.liquidity, Down);
    Ok(Amounts(a, b))
  }

  datatype PoolPosition = PoolPosition(pool: PoolData, position: PositionData)

  /** `apply_add_liquidity` */
  function ApplyAdd(p: PoolData, q: PositionData, delta: U128): Result<PoolPosition> {
    var q1 :- UpdateFee(q, p.a.perLiquidity, p.b.perLiquidity);
    var q2 :- AddUnlocked(q1, delta);
    var liquidity: U128 :- Fit128(p.liquidity + delta);
    Ok(PoolPosition(p.(liquidity := liquidity), q2))
  }

  /** `apply_remove_liquidity` */
  function ApplyRemove(p: PoolData, q: PositionData, delta: U128): Result<PoolPosition> {
    var q1 :- UpdateFee(q, p.a.perLiquidity, p.b.perLiquidity);
    var q2 :- RemoveUnlocked(q1, delta);
    var liquidity: U128 :- Fit128(p.liquidity - delta);
    Ok(PoolPosition(p.(liquidity := liquidity), q2))
  }

  /** `apply_split_position` */
  function ApplySplit(p: PoolData, pair: Pair, n: SplitNumerators): Result<Pair> {
    var first :- UpdateFee(pair.first, p.a.perLiquidity, p.b.perLiquidity);
    var second :- UpdateFee(pair.second, p.a.perLiquidity, p.b.perLiquidity);
    var pair1 :- SplitUnlocked(Pair(first, second), n.unlocked);
    var pair2 :- SplitPermanent(pair1, n.permanent);
    var pair3 :- SplitPending(pair2, n.feeA, n.feeB);
    var pair4 :- SplitReward(pair3, 0, p.rewards[0], n.reward0);
    SplitReward(pair4, 1, p.rewards[1], n.reward1)
  }

  /** `claim_protocol_fee` for one token. */
  function TakeProtocolFee(lane: FeeLane, maxAmount: U64): FeeLane {
    lane.(protocolFee := lane.protocolFee - Min(lane.protocolFee, maxAmount))
  }

  /** `claim_partner_fee` for one token. */
  function TakePartnerFee(lane: FeeLane, maxAmount: U64): FeeLane {
    lane.(partnerFee := lane.partnerFee - Min(lane.partnerFee, maxAmount))
  }

  predicate PoolRewardInitialized(p: PoolData) {
    p.rewards[0].initialized || p.rewards[1].initialized
  }

  /** `Pool::update_rewards` */
  function UpdateRewards(p: PoolData, now: U64): Result<PoolData> {
    var streams: RewardStreams :- UpdateStreams(p.rewards, p.liquidity, now);
    Ok(p.(rewards := streams))
  }

  /** `Position::update_rewards`: first the pool, then the position. */
  function Accrue(p: PoolData, q: PositionData, now: U64): Result<PoolPosition> {
    if PoolRewardInitialized(p) then
      var p1 :- UpdateRewards(p, now);
      var q1 :- UpdatePositionReward(q, p1.rewards);
      Ok(PoolPosition(p1, q1))
    else
      Ok(PoolPosition(p, q))
  }

  // ----- The account as the program updates it -----

  class Pool {
    const baseFee: BaseFee
    const shares: FeeShares
    const hasPartner: bool
    const collectFeeMode: CollectFeeMode
    const activationPoint: U64
    const version: U8
    const sqrtMinPrice: U128
    const sqrtMaxPrice: U128
    const dynamicFee: DynamicFeeStruct
    const rewardInfos: seq<RewardInfo>
    var liquidity: U128
    var sqrtPrice: U128
    var a: FeeLane
    var b: FeeLane
    var permanentLockLiquidity: U128

    ghost predicate Valid() {
      |rewardInfos| == NUM_REWARDS && rewardInfos[0] != rewardInfos[1]
    }

    function View(): PoolData
      requires Valid()
      reads this, dynamicFee, rewardInfos
    {
      PoolData(
        baseFee, shares, dynamicFee.View(), hasPartner, collectFeeMode, activationPoint, version,
        liquidity, sqrtMinPrice, sqrtMaxPrice, sqrtPrice, a, b, permanentLockLiquidity,
        [rewardInfos[0].View(), rewardInfos[1].View()])
    }

    /** `initialize`: `p` is the state of a newly created pool. */
    constructor (p: PoolData)
      requires p.rewards == [NO_REWARD, NO_REWARD]
      ensures Valid() && View() == p && fresh(dynamicFee) && fresh(rewardInfos[0]) && fresh(rewardInfos[1])
    {
      baseFee, shares, hasPartner, collectFeeMode := p.baseFee, p.shares, p.hasPartner, p.collectFeeMode;
      activationPoint, version := p.activationPoint, p.version;
      sqrtMinPrice, sqrtMaxPrice, sqrtPrice := p.sqrtMinPrice, p.sqrtMaxPrice, p.sqrtPrice;
      liquidity, permanentLockLiquidity, a, b := p.liquidity, p.permanentLockLiquidity, p.a, p.b;
      dynamicFee := new DynamicFeeStruct(p.dynamicFee);
      var first := new RewardInfo();
      var second := new RewardInfo();
      rewardInfos := [first, second];
    }

    method UpdateAllRewards(currentTime: U64) returns (r: Result<Unit>)
      requires Valid()
      modifies rewardInfos
      ensures Updated(UpdateRewards(old(View()), currentTime), r, View())
    {
      for rewardIdx := 0 to NUM_REWARDS
        invariant unchanged(this) && unchanged(dynamicFee)
        invariant rewardIdx > 0 ==>
          UpdateReward(old(rewardInfos[0].View()), liquidity, currentTime) == Ok(rewardInfos[0].View())
        invariant rewardIdx > 1 ==>
          UpdateReward(old(rewardInfos[1].View()), liquidity, currentTime) == Ok(rewardInfos[1].View())
        invariant forall k :: rewardIdx <= k < NUM_REWARDS ==>
          rewardInfos[k].View() == old(rewardInfos[k].View())
      {
        var _ :- rewardInfos[rewardIdx].UpdateRewards(liquidity, currentTime);
      }
      return Ok(Unit);
    }

    method UpdatePreSwap(currentTimestamp: U64) returns (r: Result<Unit>)
      requires Valid()
      modifies dynamicFee
      ensures Updated(PreSwap(old(View()).dynamicFee, sqrtPrice, currentTimestamp), r, dynamicFee.View())
    {
      if dynamicFee.initialized {
        r := dynamicFee.UpdateReferences(sqrtPrice, currentTimestamp);
      } else {
        r := Ok(Unit);
      }
    }

    method UpdatePostSwap(oldSqrtPrice: U128, currentTimestamp: U64) returns (r: Result<Unit>)
      requires Valid()
      modifies dynamicFee
      ensures Updated(
                PostSwap(old(dynamicFee.View()), oldSqrtPrice, sqrtPrice, currentTimestamp), r,
                dynamicFee.View())
    {
      if dynamicFee.initialized {
        var _ :- dynamicFee.UpdateVolatilityAccumulator(sqrtPrice);
        var deltaPrice: U128 :- DeltaBinId(dynamicFee.binStepU128, oldSqrtPrice, sqrtPrice);
        if deltaPrice > 0 {
          dynamicFee.lastUpdateTimestamp := currentTimestamp;
        }
      }
      return Ok(Unit);
    }

    method ApplySwapResult(swap: SwapResult, feeMode: FeeMode, currentTimestamp: U64) returns (r: Result<Unit>)
      requires Valid()
      modifies this, dynamicFee
      ensures Updated(ApplySwap(old(View()), swap, feeMode, currentTimestamp), r, View())
    {
      var oldSqrtPrice := sqrtPrice;
      sqrtPrice := swap.nextSqrtPrice;
      var feePerTokenStored: U256 :- ShlDiv256(swap.fees.trading, liquidity);
      if feeMode.feesOnTokenA {
        a :- LaneAfterSwap(a, swap.fees, feePerTokenStored);
      } else {
        b :- LaneAfterSwap(b, swap.fees, feePerTokenStored);
      }
      r := UpdatePostSwap(oldSqrtPrice, currentTimestamp);
    }

    method ApplyAddLiquidity(position: Position, delta: U128) returns (r: Result<Unit>)
      requires Valid() && position.Valid()
      modifies this`liquidity, position
      ensures match ApplyAdd(old(View()), old(position.View()), delta)
              case Ok(next) => r.Ok? && View() == next.pool && position.View() == next.position
              case Err(error) => r == Err(error)
    {
      var _ :- position.UpdateFeeOf(a.perLiquidity, b.perLiquidity);
      var _ :- position.AddLiquidity(delta);
      liquidity :- Fit128(liquidity + delta);
      return Ok(Unit);
    }

    method ApplyRemoveLiquidity(position: Position, delta: U128) returns (r: Result<Unit>)
      requires Valid() && position.Valid()
      modifies this`liquidity, position
      ensures match ApplyRemove(old(View()), old(position.View()), delta)
              case Ok(next) => r.Ok? && View() == next.pool && position.View() == next.position
              case Err(error) => r == Err(error)
    {
      var _ :- position.UpdateFeeOf(a.perLiquidity, b.perLiquidity);
      var _ :- position.RemoveUnlockedLiquidity(delta);
      liquidity :- Fit128(liquidity - delta);
      return Ok(Unit);
    }

    /** `Position::update_rewards`, which updates the pool's streams first. */
    method AccrueRewards(position: Position, currentTime: U64) returns (r: Result<Unit>)
      requires Valid() && position.Valid()
      modifies rewardInfos, position.rewardInfos
      ensures match Accrue(old(View()), old(position.View()), currentTime)
              case Ok(next) => r.Ok? && View() == next.pool && position.View() == next.position
              case Err(error) => r == Err(error)
    {
      if rewardInfos[0].initialized || rewardInfos[1].initialized {
        var _ :- UpdateAllRewards(currentTime);
        r := position.UpdatePositionRewards([rewardInfos[0].View(), rewardInfos[1].View()]);
      } else {
        r := Ok(Unit);
      }
    }

    method AccumulatePermanentLockedLiquidity(amount: U128) returns (r: Result<Unit>)
      requires Valid()
      modifies this`permanentLockLiquidity
      ensures match Fit128(old(permanentLockLiquidity) + amount)
              case Ok(total) => r.Ok? && View() == old(View()).(permanentLockLiquidity := total)
              case Err(error) => r == Err(error)
    {
      permanentLockLiquidity :- Fit128(permanentLockLiquidity + amount);
      return Ok(Unit);
    }

    /** Takes what is there up to a limit; the subtraction never fails. */
    method TakeProtocolFees(maxAmountA: U64, maxAmountB: U64) returns (amountA: U64, amountB: U64)
      requires Valid()
      modifies this`a, this`b
      ensures amountA == Min(old(a.protocolFee), maxAmountA) && amountB == Min(old(b.protocolFee), maxAmountB)
      ensures View() == old(View()).(
                          a := TakeProtocolFee(old(a), maxAmountA), b := TakeProtocolFee(old(b), maxAmountB))
    {
      amountA := Min(a.protocolFee, maxAmountA);
      amountB := Min(b.protocolFee, maxAmountB);
      a := a.(protocolFee := a.protocolFee - amountA);
      b := b.(protocolFee := b.protocolFee - amountB);
    }

    method TakePartnerFees(maxAmountA: U64, maxAmountB: U64) returns (amountA: U64, amountB: U64)
      requires Valid()
      modifies this`a, this`b
      ensures amountA == Min(old(a.partnerFee), maxAmountA) && amountB == Min(old(b.partnerFee), maxAmountB)
      ensures View() == old(View()).(
                          a := TakePartnerFee(old(a), maxAmountA), b := TakePartnerFee(old(b), maxAmountB))
    {
      amountA := Min(a.partnerFee, maxAmountA);
      amountB := Min(b.partnerFee, maxAmountB);
      a := a.(partnerFee := a.partnerFee - amountA);
      b := b.(partnerFee := b.partnerFee - amountB);
    }
  }
}

/** The accounts of the AMM as values: a pool, its positions and its reward streams. */
module PoolState {
  import opened Checked
  import opened Fees
  import opened DynamicFee
  import FeeScheduler
  import RateLimiter

  const NUM_REWARDS: nat := 2

  /** Per token: the cumulative fee per liquidity, unclaimed protocol and partner fees, and the
      lifetime metrics. */
  datatype FeeLane = FeeLane(
    perLiquidity: U256,
    protocolFee: U64,
    partnerFee: U64,
    totalLpFee: U128,
    totalProtocolFee: U64,
    totalPartnerFee: U64)

  datatype RewardData = RewardData(
    initialized: bool,
    rewardDuration: U64,
    rewardDurationEnd: U64,
    rewardRate: U128,
    rewardPerTokenStored: U256,
    lastUpdateTime: U64,
    cumulativeSecondsWithEmptyLiquidityReward: U64)

  const NO_REWARD := RewardData(false, 0, 0, 0, 0, 0, 0)

  type RewardStreams = s: seq<RewardData> | |s| == 2 witness [NO_REWARD, NO_REWARD]

  datatype BaseFee = Schedule(scheduler: FeeScheduler.Scheduler) | Limit(limiter: RateLimiter.Limiter)

  datatype PoolData = PoolData(
    baseFee: BaseFee,
    shares: FeeShares,
    dynamicFee: DynamicFeeData,
    hasPartner: bool,
    collectFeeMode: CollectFeeMode,
    activationPoint: U64,
    version: U8,
    liquidity: U128,
    sqrtMinPrice: U128,
    sqrtMaxPrice: U128,
    sqrtPrice: U128,
    a: FeeLane,
    b: FeeLane,
    permanentLockLiquidity: U128,
    rewards: RewardStreams)

  datatype PositionLane = PositionLane(checkpoint: U256, pending: U64, totalClaimed: U64)

  const NO_FEE_YET := PositionLane(0, 0, 0)

  datatype UserReward = UserReward(checkpoint: U256, pending: U64, totalClaimed: U64)

  type UserRewards = s: seq<UserReward> | |s| == 2 witness [UserReward(0, 0, 0), UserReward(0, 0, 0)]

  datatype PositionData = PositionData(
    a: PositionLane,
    b: PositionLane,
    unlockedLiquidity: U128,
    vestedLiquidity: U128,
    permanentLockedLiquidity: U128,
    rewards: UserRewards)

  /** `Position::initialize` on a fresh account. */
  function NewPosition(liquidity: U128): PositionData {
    PositionData(
      NO_FEE_YET, NO_FEE_YET, liquidity, 0, 0, [UserReward(0, 0, 0), UserReward(0, 0, 0)])
  }

  datatype Token = A | B

  datatype SwapResult = SwapResult(
    includedFeeInputAmount: U64,
    excludedFeeInputAmount: U64,
    amountLeft: U64,
    outputAmount: U64,
    nextSqrtPrice: U128,
    fees: SplitFees)
}

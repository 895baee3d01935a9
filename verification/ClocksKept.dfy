/** No step leaves a reward stream ahead of the clock. */
module ClocksKept {
  import opened Checked
  import opened PoolState
  import opened Rewards
  import opened Positions
  import opened Pools
  import opened Instructions
  import opened Ledger
  import DynamicFee

  lemma UpdateRewardClock(r: RewardData, supply: U128, time: int, now: U64)
    requires ClockBehind(r, time) && time <= now && UpdateReward(r, supply, now).Ok?
    ensures ClockBehind(UpdateReward(r, supply, now).value, now)
  {
  }

  lemma UpdateRewardsClocks(p: PoolData, time: int, now: U64)
    requires ClocksBehind(p, time) && time <= now && UpdateRewards(p, now).Ok?
    ensures ClocksBehind(UpdateRewards(p, now).value, now)
  {
    hide UpdateReward, ClockBehind;
    UpdateRewardClock(p.rewards[0], p.liquidity, time, now);
    UpdateRewardClock(p.rewards[1], p.liquidity, time, now);
  }

  lemma AccrueClocks(p: PoolData, q: PositionData, time: int, now: U64)
    requires ClocksBehind(p, time) && time <= now && Accrue(p, q, now).Ok?
    ensures ClocksBehind(Accrue(p, q, now).value.pool, now)
  {
    hide UpdateRewards, UpdatePositionReward;
    if PoolRewardInitialized(p) {
      UpdateRewardsClocks(p, time, now);
    }
  }

  lemma FundClock(r: RewardData, now: U64, amount: U64, carryForward: bool)
    requires Fund(r, now, amount, carryForward).Ok?
    ensures ClockBehind(Fund(r, now, amount, carryForward).value, now)
  {
    hide Leftover, Ineligible;
  }

  lemma FundClocks(p: PoolData, index: nat, amount: U64, carryForward: bool, time: int, now: U64)
    requires ClocksBehind(p, time) && time <= now && RewardFunded(p, index, amount, carryForward, now).Ok?
    ensures ClocksBehind(RewardFunded(p, index, amount, carryForward, now).value, now)
  {
    hide UpdateRewards, Fund, ClockBehind;
    UpdateRewardsClocks(p, time, now);
    FundClock(StreamAt(UpdateRewards(p, now).value, index), now, amount, carryForward);
  }

  lemma IneligibleClocks(p: PoolData, index: nat, time: int, now: U64)
    requires ClocksBehind(p, time) && time <= now && IneligibleOf(p, index, now).Ok?
    ensures ClocksBehind(IneligibleOf(p, index, now).value.pool, now)
  {
    hide UpdateRewards, Ineligible;
    UpdateRewardsClocks(p, time, now);
  }

  /** Swapping, claiming fees, locking and the like leave the streams alone. */
  lemma SameStreams(p: PoolData, p': PoolData, time: int, now: int)
    requires ClocksBehind(p, time) && time <= now && p'.rewards == p.rewards
    ensures ClocksBehind(p', now)
  {
  }

  lemma LiquidityClocks(s: State, e: Event)
    requires ClocksBehind(s.pool, s.time) && s.time <= e.time && Step(s, e).Done?
    requires e.action.AddLiquidity? || e.action.RemoveLiquidity? || e.action.SplitPosition?
    ensures ClocksBehind(Step(s, e).value.pool, e.time)
  {
    hide Accrue, UpdateRewards, AmountsForLiquidity, UpdateFee, ApplySplit, DepositBoth, WithdrawBoth,
         Reserves, ClockBehind, UpdatePositionReward, ValidateSplit, TotalLiquidity;
    match e.action
    case AddLiquidity(i, delta, thresholds) =>
      AccrueClocks(s.pool, s.positions[i].value, s.time, e.time);
    case RemoveLiquidity(i, requested, thresholds) =>
      AccrueClocks(s.pool, s.positions[i].value, s.time, e.time);
    case SplitPosition(i, j, n) => UpdateRewardsClocks(s.pool, s.time, e.time);
  }

  lemma RewardClocks(s: State, e: Event)
    requires ClocksBehind(s.pool, s.time) && s.time <= e.time && Step(s, e).Done?
    requires e.action.FundReward? || e.action.ClaimReward? || e.action.WithdrawIneligibleReward?
             || e.action.InitializeReward? || e.action.UpdateRewardDuration?
    ensures ClocksBehind(Step(s, e).value.pool, e.time)
  {
    hide Accrue, RewardFunded, IneligibleOf;
    match e.action
    case FundReward(index, amount, carryForward) =>
      FundClocks(s.pool, index, amount, carryForward, s.time, e.time);
    case ClaimReward(i, index, frozen, skip) =>
      AccrueClocks(s.pool, s.positions[i].value, s.time, e.time);
    case WithdrawIneligibleReward(index) => IneligibleClocks(s.pool, index, s.time, e.time);
    case InitializeReward(index, duration) =>
    case UpdateRewardDuration(index, duration) =>
  }

  lemma OtherClocks(s: State, e: Event)
    requires ClocksBehind(s.pool, s.time) && s.time <= e.time && Step(s, e).Done?
    requires e.action.CreatePosition? || e.action.Swap? || e.action.ClaimPositionFee?
             || e.action.ClaimProtocolFee? || e.action.ClaimPartnerFee? || e.action.LockPosition?
             || e.action.PermanentLockPosition? || e.action.RefreshVesting? || e.action.ClosePosition?
             || e.action.Donate? || e.action.DonateReward?
    ensures ClocksBehind(Step(s, e).value.pool, e.time)
  {
    hide ClocksBehind, DynamicFee.PreSwap, QuoteOf, ApplySwap, Reserves, SwapTransfers, FeesOf,
         Instructions.LockPosition, PermanentLock, Instructions.RefreshVesting, WithdrawBoth, DepositBoth,
         CheckSlippage;
    if e.action.Swap? {
      SwapStreams(s.pool, e.action.parameters, e.time, e.point);
    }
    SameStreams(s.pool, Step(s, e).value.pool, s.time, e.time);
  }

  lemma SwapStreams(p: PoolData, parameters: SwapParameters, now: U64, point: U64)
    requires SwapApplied(p, parameters, now, point).Ok?
    ensures SwapApplied(p, parameters, now, point).value.pool.rewards == p.rewards
  {
    hide DynamicFee.PreSwap, DynamicFee.PostSwap, QuoteOf, CheckSlippage, LaneAfterSwap;
  }

  /** Every step that succeeds leaves the streams at or before its time. */
  lemma StepClocks(s: State, e: Event)
    requires ClocksBehind(s.pool, s.time) && s.time <= e.time && Step(s, e).Done?
    ensures ClocksBehind(Step(s, e).value.pool, e.time)
  {
    hide Step, ClocksBehind;
    match e.action
    case AddLiquidity(_, _, _) => LiquidityClocks(s, e);
    case RemoveLiquidity(_, _, _) => LiquidityClocks(s, e);
    case SplitPosition(_, _, _) => LiquidityClocks(s, e);
    case FundReward(_, _, _) => RewardClocks(s, e);
    case ClaimReward(_, _, _, _) => RewardClocks(s, e);
    case WithdrawIneligibleReward(_) => RewardClocks(s, e);
    case InitializeReward(_, _) => RewardClocks(s, e);
    case UpdateRewardDuration(_, _) => RewardClocks(s, e);
    case _ => OtherClocks(s, e);
  }
}

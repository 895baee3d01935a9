/** What each step of the ledger changes, and what it leaves alone. */
module Frames {
  import opened Checked
  import opened PoolState
  import opened Positions
  import opened Pools
  import opened Vestings
  import opened Instructions
  import opened Ledger

  /** The account in slot `i` was open and is now as the instruction left it; nothing else of the positions
      changed. */
  ghost predicate OnlyPosition(s: State, s': State, i: nat, q: Option<PositionData>) {
    i < |s.positions| && s.positions[i].Some? && s'.positions == s.positions[i := q]
  }

  /** Only one reward vault changed. */
  ghost predicate OnlyRewardVault(s: State, s': State, index: nat, balance: U64) {
    if index == 0 then s'.rewardVaults == [balance, s.rewardVaults[1]]
    else s'.rewardVaults == [s.rewardVaults[0], balance]
  }

  ghost predicate KeepsPool(s: State, s': State) {
    s'.pool == s.pool
  }

  ghost predicate KeepsPositions(s: State, s': State) {
    s'.positions == s.positions
  }

  ghost predicate KeepsVestings(s: State, s': State) {
    s'.vestings == s.vestings
  }

  ghost predicate KeepsTokens(s: State, s': State) {
    s'.vaults == s.vaults && s'.rewardVaults == s.rewardVaults
  }

  /** Steps on liquidity, swaps and fees: what the instruction yields for the pool, the position and the
      vaults is what the state has afterwards. */
  lemma TradingSteps(s: State, e: Event)
    requires Step(s, e).Done?
    ensures var s' := Step(s, e).value;
            match e.action
            case AddLiquidity(i, delta, thresholds) =>
              i < |s.positions| && s.positions[i].Some?
              && var r := Instructions.AddLiquidity(
                            s.pool, s.positions[i].value, s.vaults, e.time, delta, thresholds);
                 r.Done? && OnlyPosition(s, s', i, Some(r.value.position)) && KeepsVestings(s, s')
                 && s'.pool == r.value.pool && s'.vaults == r.value.vaults
                 && s'.rewardVaults == s.rewardVaults && s'.claimed == s.claimed
            case RemoveLiquidity(i, requested, thresholds) =>
              i < |s.positions| && s.positions[i].Some?
              && var r := Instructions.RemoveLiquidity(
                            s.pool, s.positions[i].value, s.vaults, e.time, requested, thresholds);
                 r.Done? && OnlyPosition(s, s', i, Some(r.value.position)) && KeepsVestings(s, s')
                 && s'.pool == r.value.pool && s'.vaults == r.value.vaults
                 && s'.rewardVaults == s.rewardVaults && s'.claimed == s.claimed
            case Swap(parameters) =>
              var r := Instructions.Swap(s.pool, s.vaults, parameters, e.time, e.point);
              r.Done? && KeepsPositions(s, s') && KeepsVestings(s, s') && s'.pool == r.value.pool
              && s'.vaults == r.value.vaults && s'.rewardVaults == s.rewardVaults && s'.claimed == s.claimed
            case ClaimPositionFee(i) =>
              i < |s.positions| && s.positions[i].Some?
              && var r := Instructions.ClaimPositionFee(s.pool, s.positions[i].value, s.vaults);
                 r.Done? && OnlyPosition(s, s', i, Some(r.value.position)) && KeepsVestings(s, s')
                 && KeepsPool(s, s') && s'.vaults == r.value.vaults && s'.rewardVaults == s.rewardVaults
                 && s'.claimed.a - s.claimed.a == s.vaults.a - s'.vaults.a
                 && s'.claimed.b - s.claimed.b == s.vaults.b - s'.vaults.b
            case ClaimProtocolFee(most) =>
              var r := Instructions.ClaimProtocolFee(s.pool, s.vaults, most);
              r.Done? && KeepsPositions(s, s') && KeepsVestings(s, s') && s'.pool == r.value.pool
              && s'.vaults == r.value.vaults && s'.rewardVaults == s.rewardVaults && s'.claimed == s.claimed
            case ClaimPartnerFee(most) =>
              var r := Instructions.ClaimPartnerFee(s.pool, s.vaults, most);
              r.Done? && KeepsPositions(s, s') && KeepsVestings(s, s') && s'.pool == r.value.pool
              && s'.vaults == r.value.vaults && s'.rewardVaults == s.rewardVaults && s'.claimed == s.claimed
            case Donate(amounts) =>
              KeepsPool(s, s') && KeepsPositions(s, s') && KeepsVestings(s, s')
              && s'.vaults.a == s.vaults.a + amounts.a && s'.vaults.b == s.vaults.b + amounts.b
              && s'.rewardVaults == s.rewardVaults && s'.claimed == s.claimed
            case _ => s'.vaults == s.vaults && s'.claimed == s.claimed
  {
    hide AddedLiquidity, RemovedLiquidity, SwapApplied, SwapTransfers, Reserves, UpdateFee,
         Instructions.SplitPosition, Instructions.LockPosition, Instructions.RefreshVesting, UpdateRewards,
         RewardFunded, RewardOf, IneligibleOf, Instructions.InitializeReward,
         Instructions.UpdateRewardDuration, Instructions.PermanentLockPosition;
  }

  /** Steps on positions and their locks move no token. */
  lemma PositionSteps(s: State, e: Event)
    requires Step(s, e).Done?
    ensures var s' := Step(s, e).value;
            match e.action
            case CreatePosition =>
              KeepsPool(s, s') && KeepsVestings(s, s') && KeepsTokens(s, s')
              && s'.positions == s.positions + [Some(NewPosition(0))]
            case LockPosition(i, schedule, maxDuration) =>
              i < |s.positions| && s.positions[i].Some?
              && var r := Instructions.LockPosition(s.positions[i].value, i, schedule, e.point, maxDuration);
                 r.Ok? && OnlyPosition(s, s', i, Some(r.value.position))
                 && s'.vestings == s.vestings + [Some(r.value.vesting)] && KeepsPool(s, s')
                 && KeepsTokens(s, s')
            case PermanentLockPosition(i, amount) =>
              i < |s.positions| && s.positions[i].Some?
              && var r := Instructions.PermanentLockPosition(s.pool, s.positions[i].value, amount);
                 r.Ok? && OnlyPosition(s, s', i, Some(r.value.position)) && s'.pool == r.value.pool
                 && KeepsVestings(s, s') && KeepsTokens(s, s')
            case RefreshVesting(i, slots) =>
              i < |s.positions| && s.positions[i].Some?
              && var r := Instructions.RefreshVesting(s.positions[i].value, i, s.vestings, slots, e.point);
                 r.Ok? && OnlyPosition(s, s', i, Some(r.value.position)) && s'.vestings == r.value.vestings
                 && KeepsPool(s, s') && KeepsTokens(s, s')
            case SplitPosition(i, j, n) =>
              i != j && i < |s.positions| && s.positions[i].Some? && j < |s.positions| && s.positions[j].Some?
              && var r := Instructions.SplitPosition(
                            s.pool, Pair(s.positions[i].value, s.positions[j].value), n, e.time);
                 r.Ok? && s'.pool == r.value.pool && KeepsVestings(s, s') && KeepsTokens(s, s')
                 && s'.positions
                    == s.positions[i := Some(r.value.pair.first)][j := Some(r.value.pair.second)]
            case ClosePosition(i) =>
              OnlyPosition(s, s', i, None) && Instructions.ClosePosition(s.positions[i].value).Ok?
              && KeepsPool(s, s') && KeepsVestings(s, s') && KeepsTokens(s, s')
            case _ => true
  {
    hide AddedLiquidity, RemovedLiquidity, SwapApplied, SwapTransfers, Reserves, UpdateFee,
         Instructions.SplitPosition, Instructions.LockPosition, Instructions.RefreshVesting, UpdateRewards,
         RewardFunded, RewardOf, IneligibleOf, Instructions.InitializeReward,
         Instructions.UpdateRewardDuration, Instructions.PermanentLockPosition;
  }

  /** Steps on rewards touch one reward vault at most. */
  lemma RewardSteps(s: State, e: Event)
    requires Step(s, e).Done?
    ensures var s' := Step(s, e).value;
            match e.action
            case InitializeReward(index, duration) =>
              Instructions.InitializeReward(s.pool, index, duration) == Ok(s'.pool)
              && KeepsPositions(s, s') && KeepsVestings(s, s') && KeepsTokens(s, s')
            case UpdateRewardDuration(index, duration) =>
              Instructions.UpdateRewardDuration(s.pool, index, duration, e.time) == Ok(s'.pool)
              && KeepsPositions(s, s') && KeepsVestings(s, s') && KeepsTokens(s, s')
            case FundReward(index, amount, carryForward) =>
              var r := Instructions.FundReward(
                         s.pool, RewardVaultOf(s, index), index, amount, carryForward, e.time);
              r.Done? && s'.pool == r.value.pool && OnlyRewardVault(s, s', index, r.value.vault)
              && KeepsPositions(s, s') && KeepsVestings(s, s')
            case ClaimReward(i, index, frozen, skip) =>
              i < |s.positions| && s.positions[i].Some?
              && var r := Instructions.ClaimReward(
                            s.pool, s.positions[i].value, RewardVaultOf(s, index), index, frozen, skip, e.time);
                 r.Done? && s'.pool == r.value.pool && OnlyRewardVault(s, s', index, r.value.vault)
                 && OnlyPosition(s, s', i, Some(r.value.position)) && KeepsVestings(s, s')
            case WithdrawIneligibleReward(index) =>
              var r := Instructions.WithdrawIneligibleReward(s.pool, RewardVaultOf(s, index), index, e.time);
              r.Done? && s'.pool == r.value.pool && OnlyRewardVault(s, s', index, r.value.vault)
              && KeepsPositions(s, s') && KeepsVestings(s, s')
            case DonateReward(index, gift) =>
              RewardVaultOf(s, index) + gift <= U64_MAX
              && OnlyRewardVault(s, s', index, RewardVaultOf(s, index) + gift) && KeepsPool(s, s')
              && KeepsPositions(s, s') && KeepsVestings(s, s')
            case _ => s'.rewardVaults == s.rewardVaults
  {
    hide AddedLiquidity, RemovedLiquidity, SwapApplied, SwapTransfers, Reserves, UpdateFee,
         Instructions.SplitPosition, Instructions.LockPosition, Instructions.RefreshVesting, UpdateRewards,
         RewardFunded, RewardOf, IneligibleOf, Instructions.InitializeReward,
         Instructions.UpdateRewardDuration, Instructions.PermanentLockPosition;
  }

  /** A step that fails changes nothing but the clocks. */
  lemma FailureChangesNothing(s: State, e: Event)
    ensures After(s, e).time == e.time && After(s, e).point == e.point
    ensures !Step(s, e).Done? ==> After(s, e) == s.(time := e.time, point := e.point)
  {
    hide Step;
  }
}

/** The instruction handlers as the program runs them, updating accounts in place, each proved to do
    what its instruction function says. After a failure the transaction is rolled back, so nothing is
    said about the accounts then. */
module Handlers {
  import opened Checked
  import opened UtilsMath
  import opened Fees
  import opened PoolState
  import opened Rewards
  import opened Positions
  import opened Pools
  import opened Vestings
  import opened Instructions

  class TokenAccount {
    var amount: U64

    method TransferIn(value: U64) returns (r: Outcome<Unit>)
      modifies this
      ensures match Deposit(old(amount), value)
              case Done(balance) => r.Done? && amount == balance
              case Aborted(error) => r == Aborted(error)
              case Unfunded => r == Unfunded
    {
      amount :- Computed(Fit64(amount + value));
      return Done(Unit);
    }

    method TransferOut(value: U64) returns (r: Outcome<Unit>)
      modifies this
      ensures match Withdraw(old(amount), value)
              case Done(balance) => r.Done? && amount == balance
              case Aborted(error) => r == Aborted(error)
              case Unfunded => r == Unfunded
    {
      if value > amount {
        return Unfunded;
      }
      amount := amount - value;
      return Done(Unit);
    }
  }

  /** How a handler relates to the function that specifies it. */
  ghost predicate Handled<T(!new)>(spec: Outcome<T>, r: Outcome<Unit>, view: T) {
    match spec
    case Done(value) => r.Done? && view == value
    case Aborted(error) => r == Aborted(error)
    case Unfunded => r == Unfunded
  }

  function VaultsOf(vaultA: TokenAccount, vaultB: TokenAccount): Vaults
    reads vaultA, vaultB
  {
    Vaults(vaultA.amount, vaultB.amount)
  }

  // ----- Liquidity -----

  method AddToPosition(pool: Pool, position: Position, now: U64, delta: U128, thresholds: Amounts)
    returns (r: Result<Amounts>)
    requires pool.Valid() && position.Valid()
    modifies pool`liquidity, pool.rewardInfos, position, position.rewardInfos
    ensures match AddedLiquidity(old(pool.View()), old(position.View()), now, delta, thresholds)
            case Ok(m) =>
              r == Ok(m.amounts) && pool.View() == m.pool && position.View() == m.position
            case Err(error) => r == Err(error)
  {
    hide Accrue, ApplyAdd, AmountsForLiquidity, PoolRewardInitialized;
    var _ :- Require(delta > 0, InvalidParameters);
    var _ :- pool.AccrueRewards(position, now);
    var amounts :- AmountsForLiquidity(pool.View(), delta, Up);
    var _ :- Require(amounts.a > 0 || amounts.b > 0, AmountIsZero);
    var _ :- pool.ApplyAddLiquidity(position, delta);
    var _ :- Require(amounts.a <= thresholds.a, ExceededSlippage);
    var _ :- Require(amounts.b <= thresholds.b, ExceededSlippage);
    return Ok(amounts);
  }

  method HandleAddLiquidity(
      pool: Pool, position: Position, vaultA: TokenAccount, vaultB: TokenAccount, now: U64, delta: U128,
      thresholds: Amounts)
    returns (r: Outcome<Unit>)
    requires pool.Valid() && position.Valid() && vaultA != vaultB
    modifies pool`liquidity, pool.rewardInfos, position, position.rewardInfos, vaultA, vaultB
    ensures Handled(
              Instructions.AddLiquidity(
                old(pool.View()), old(position.View()), old(VaultsOf(vaultA, vaultB)), now, delta,
                thresholds),
              r, LiquidityChange(pool.View(), position.View(), VaultsOf(vaultA, vaultB)))
  {
    hide AddedLiquidity, Pools.Reserves;
    var added := AddToPosition(pool, position, now, delta, thresholds);
    var amounts :- Computed(added);
    var _ :- vaultA.TransferIn(amounts.a);
    var _ :- vaultB.TransferIn(amounts.b);
    var _ :- Computed(Pools.Reserves(pool.View()));
    return Done(Unit);
  }

  method RemoveFromPosition(
      pool: Pool, position: Position, now: U64, requested: Option<U128>, thresholds: Amounts)
    returns (r: Result<Amounts>)
    requires pool.Valid() && position.Valid()
    modifies pool`liquidity, pool.rewardInfos, position, position.rewardInfos
    ensures match RemovedLiquidity(old(pool.View()), old(position.View()), now, requested, thresholds)
            case Ok(m) =>
              r == Ok(m.amounts) && pool.View() == m.pool && position.View() == m.position
            case Err(error) => r == Err(error)
  {
    hide Accrue, ApplyRemove, AmountsForLiquidity, PoolRewardInitialized;
    var delta := if requested.Some? then requested.value else position.unlockedLiquidity;
    var _ :- Require(delta <= position.unlockedLiquidity && delta > 0, InsufficientLiquidity);
    var _ :- pool.AccrueRewards(position, now);
    var amounts :- AmountsForLiquidity(pool.View(), delta, Down);
    var _ :- Require(amounts.a > 0 || amounts.b > 0, AmountIsZero);
    var _ :- Require(amounts.a >= thresholds.a, ExceededSlippage);
    var _ :- Require(amounts.b >= thresholds.b, ExceededSlippage);
    var _ :- pool.ApplyRemoveLiquidity(position, delta);
    return Ok(amounts);
  }

  method HandleRemoveLiquidity(
      pool: Pool, position: Position, vaultA: TokenAccount, vaultB: TokenAccount, now: U64,
      requested: Option<U128>, thresholds: Amounts)
    returns (r: Outcome<Unit>)
    requires pool.Valid() && position.Valid() && vaultA != vaultB
    modifies pool`liquidity, pool.rewardInfos, position, position.rewardInfos, vaultA, vaultB
    ensures Handled(
              Instructions.RemoveLiquidity(
                old(pool.View()), old(position.View()), old(VaultsOf(vaultA, vaultB)), now, requested,
                thresholds),
              r, LiquidityChange(pool.View(), position.View(), VaultsOf(vaultA, vaultB)))
  {
    hide RemovedLiquidity, Pools.Reserves;
    var removed := RemoveFromPosition(pool, position, now, requested, thresholds);
    var amounts :- Computed(removed);
    var _ :- vaultA.TransferOut(amounts.a);
    var _ :- vaultB.TransferOut(amounts.b);
    var _ :- Computed(Pools.Reserves(pool.View()));
    return Done(Unit);
  }

  // ----- Swap -----

  method HandleSwapTransfers(
      vaultA: TokenAccount, vaultB: TokenAccount, parameters: SwapParameters, feeMode: FeeMode,
      swap: SwapResult)
    returns (r: Outcome<Unit>)
    requires vaultA != vaultB
    modifies vaultA, vaultB
    ensures Handled(
              SwapTransfers(old(VaultsOf(vaultA, vaultB)), parameters, feeMode, swap), r,
              VaultsOf(vaultA, vaultB))
  {
    var inputVault, outputVault :=
      if parameters.direction.AtoB? then vaultA else vaultB,
      if parameters.direction.AtoB? then vaultB else vaultA;
    var _ :- inputVault.TransferIn(swap.includedFeeInputAmount);
    var _ :- outputVault.TransferOut(swap.outputAmount);
    if parameters.hasReferral {
      var feeVault := if feeMode.feesOnTokenA then vaultA else vaultB;
      r := feeVault.TransferOut(swap.fees.referral);
    } else {
      r := Done(Unit);
    }
  }

  method HandleSwap(
      pool: Pool, vaultA: TokenAccount, vaultB: TokenAccount, parameters: SwapParameters, now: U64,
      currentPoint: U64)
    returns (r: Outcome<Unit>)
    requires pool.Valid() && vaultA != vaultB
    modifies pool, pool.dynamicFee, vaultA, vaultB
    ensures Handled(
              Instructions.Swap(
                old(pool.View()), old(VaultsOf(vaultA, vaultB)), parameters, now, currentPoint),
              r, SwapChange(pool.View(), VaultsOf(vaultA, vaultB)))
  {
    hide QuoteOf, ApplySwap, SwapTransfers, Pools.Reserves, DynamicFee.PreSwap, CheckSlippage;
    var _ :- Computed(Require(parameters.amount0 > 0, AmountIsZero));
    var updated := pool.UpdatePreSwap(now);
    var _ :- Computed(updated);
    var feeMode := GetFeeMode(pool.collectFeeMode, parameters.direction, parameters.hasReferral);
    var swap :- Computed(QuoteOf(pool.View(), parameters, currentPoint));
    var _ :- Computed(CheckSlippage(parameters.mode, parameters.amount1, swap));
    var applied := pool.ApplySwapResult(swap, feeMode, now);
    var _ :- Computed(applied);
    var _ :- HandleSwapTransfers(vaultA, vaultB, parameters, feeMode, swap);
    var _ :- Computed(Pools.Reserves(pool.View()));
    return Done(Unit);
  }

  // ----- Fees -----

  method HandleClaimPositionFee(pool: Pool, position: Position, vaultA: TokenAccount, vaultB: TokenAccount)
    returns (r: Outcome<Unit>, paid: Amounts)
    requires pool.Valid() && position.Valid() && vaultA != vaultB
    modifies position, vaultA, vaultB
    ensures Handled(
              Instructions.ClaimPositionFee(
                pool.View(), old(position.View()), old(VaultsOf(vaultA, vaultB))),
              r, FeeClaim(position.View(), VaultsOf(vaultA, vaultB), paid))
  {
    hide UpdateFee, TakeFees;
    paid := Amounts(0, 0);
    var updated := position.UpdateFeeOf(pool.a.perLiquidity, pool.b.perLiquidity);
    r := Computed(updated);
    if !r.Done? {
      return;
    }
    paid := Amounts(position.feeAPending, position.feeBPending);
    var taken := position.TakePendingFees();
    r := Computed(taken);
    if !r.Done? {
      return;
    }
    if paid.a > 0 {
      r := vaultA.TransferOut(paid.a);
      if !r.Done? {
        return;
      }
    }
    if paid.b > 0 {
      r := vaultB.TransferOut(paid.b);
    }
  }

  method HandleClaimProtocolFee(pool: Pool, vaultA: TokenAccount, vaultB: TokenAccount, most: Amounts)
    returns (r: Outcome<Unit>)
    requires pool.Valid() && vaultA != vaultB
    modifies pool`a, pool`b, vaultA, vaultB
    ensures Handled(
              Instructions.ClaimProtocolFee(old(pool.View()), old(VaultsOf(vaultA, vaultB)), most), r,
              PoolVaults(pool.View(), VaultsOf(vaultA, vaultB)))
  {
    var amountA, amountB := pool.TakeProtocolFees(most.a, most.b);
    if amountA > 0 {
      var _ :- vaultA.TransferOut(amountA);
    }
    if amountB > 0 {
      var _ :- vaultB.TransferOut(amountB);
    }
    return Done(Unit);
  }

  method HandleClaimPartnerFee(pool: Pool, vaultA: TokenAccount, vaultB: TokenAccount, most: Amounts)
    returns (r: Outcome<Unit>)
    requires pool.Valid() && vaultA != vaultB
    modifies pool`a, pool`b, vaultA, vaultB
    ensures Handled(
              Instructions.ClaimPartnerFee(old(pool.View()), old(VaultsOf(vaultA, vaultB)), most), r,
              PoolVaults(pool.View(), VaultsOf(vaultA, vaultB)))
  {
    var amountA, amountB := pool.TakePartnerFees(most.a, most.b);
    if most.a > 0 {
      var _ :- vaultA.TransferOut(amountA);
    }
    if most.b > 0 {
      var _ :- vaultB.TransferOut(amountB);
    }
    return Done(Unit);
  }

  // ----- Locks -----

  method HandleLockPosition(
      position: Position, owner: nat, parameters: VestingParameters, currentPoint: U64, maxDuration: U64)
    returns (r: Result<Vesting>)
    requires position.Valid()
    modifies position`unlockedLiquidity, position`vestedLiquidity
    ensures match Instructions.LockPosition(
                old(position.View()), owner, parameters, currentPoint, maxDuration)
            case Ok(change) =>
              && r.Ok? && fresh(r.value)
              && position.View() == change.position && r.value.Slot() == Some(change.vesting)
            case Err(error) => r == Err(error)
  {
    hide ValidateParameters, ParametersTotal, Positions.Lock;
    var _ :- ValidateParameters(parameters, currentPoint, maxDuration);
    var totalLockLiquidity: U128 :- ParametersTotal(parameters);
    var cliffPoint := CliffPoint(parameters, currentPoint);
    var vesting := new Vesting(owner, parameters, cliffPoint);
    var _ :- position.LockLiquidity(totalLockLiquidity);
    return Ok(vesting);
  }

  method HandlePermanentLock(pool: Pool, position: Position, amount: U128) returns (r: Result<Unit>)
    requires pool.Valid() && position.Valid()
    modifies pool`permanentLockLiquidity, position`unlockedLiquidity, position`permanentLockedLiquidity
    ensures match Instructions.PermanentLockPosition(old(pool.View()), old(position.View()), amount)
            case Ok(next) => r.Ok? && pool.View() == next.pool && position.View() == next.position
            case Err(error) => r == Err(error)
  {
    hide PermanentLock;
    var _ :- position.PermanentLockLiquidity(amount);
    r := pool.AccumulatePermanentLockedLiquidity(amount);
  }

  // ----- Refreshing vestings -----

  /** What the vesting accounts hold, closed ones being empty. */
  function SlotsOf(vestings: seq<Vesting>): (slots: seq<Option<VestingData>>)
    reads vestings
    ensures |slots| == |vestings|
    ensures forall k :: 0 <= k < |vestings| ==> slots[k] == vestings[k].Slot()
  {
    seq(|vestings|, k requires 0 <= k < |vestings| reads vestings => vestings[k].Slot())
  }

  ghost predicate DistinctAccounts(vestings: seq<Vesting>) {
    forall j, k :: 0 <= j < k < |vestings| ==> vestings[j] != vestings[k]
  }

  /** `release_vesting_liquidity_to_position`, and closing the account once it is done. */
  method ReleaseToPosition(vesting: Vesting, position: Position, owner: nat, currentPoint: U64)
    returns (r: Result<Unit>)
    requires position.Valid() && vesting.isOpen
    modifies vesting, position
    ensures match RefreshOne(old(position.View()), owner, old(vesting.View()), currentPoint)
            case Ok(next) => r.Ok? && position.View() == next.0 && vesting.Slot() == next.1
            case Err(error) => r == Err(error)
  {
    hide NewRelease;
    var _ :- Require(vesting.position == owner, InvalidVestingAccount);
    var released: U128 :- NewRelease(vesting.View(), currentPoint);
    if released > 0 {
      var _ :- position.ReleaseVestedLiquidity(released);
      var _ := vesting.AccumulateReleasedLiquidity(released); // at most what is unlocked
    }
    var done: bool :- Vestings.Done(vesting.View());
    if done {
      vesting.Close();
    }
    return Ok(Unit);
  }

  /** `handle_refresh_vesting`: the loop over the vesting accounts passed in. */
  method HandleRefreshVesting(
      position: Position, owner: nat, vestings: seq<Vesting>, slots: seq<nat>, currentPoint: U64)
    returns (r: Result<Unit>)
    requires position.Valid() && DistinctAccounts(vestings)
    modifies position, vestings
    ensures match Instructions.RefreshVesting(
                old(position.View()), owner, old(SlotsOf(vestings)), slots, currentPoint)
            case Ok(change) =>
              r.Ok? && position.View() == change.position && SlotsOf(vestings) == change.vestings
            case Err(error) => r == Err(error)
  {
    hide RefreshOne;
    for next := 0 to |slots|
      invariant unchanged(position.rewardInfos)
      invariant Instructions.RefreshVesting(
                  old(position.View()), owner, old(SlotsOf(vestings)), slots, currentPoint)
                == Instructions.RefreshVesting(
                     position.View(), owner, SlotsOf(vestings), slots[next..], currentPoint)
    {
      var slot := slots[next];
      assert slots[next..][1..] == slots[next + 1..];
      if slot >= |vestings| || !vestings[slot].isOpen {
        return Err(AccountNotFound);
      }
      ghost var before := SlotsOf(vestings);
      var _ :- ReleaseToPosition(vestings[slot], position, owner, currentPoint);
      assert SlotsOf(vestings) == before[slot := vestings[slot].Slot()];
    }
    return Ok(Unit);
  }

  // ----- Splitting -----

  ghost predicate Apart(first: Position, second: Position) {
    first.Valid() && second.Valid() && first != second && first.rewardInfos != second.rewardInfos
  }

  function PairOf(first: Position, second: Position): Pair
    requires Apart(first, second)
    reads first, first.rewardInfos, second, second.rewardInfos
  {
    Pair(first.View(), second.View())
  }

  method MoveUnlocked(first: Position, second: Position, numerator: U32) returns (r: Result<Unit>)
    requires Apart(first, second)
    modifies first`unlockedLiquidity, second`unlockedLiquidity
    ensures Updated(SplitUnlocked(old(PairOf(first, second)), numerator), r, PairOf(first, second))
  {
    hide ShareOfLiquidity;
    if numerator > 0 {
      var delta: U128 :- ShareOfLiquidity(first.unlockedLiquidity, numerator);
      var _ :- first.RemoveUnlockedLiquidity(delta);
      var _ :- second.AddLiquidity(delta);
    }
    return Ok(Unit);
  }

  method MovePermanent(first: Position, second: Position, numerator: U32) returns (r: Result<Unit>)
    requires Apart(first, second)
    modifies first`permanentLockedLiquidity, second`permanentLockedLiquidity
    ensures Updated(SplitPermanent(old(PairOf(first, second)), numerator), r, PairOf(first, second))
  {
    hide ShareOfLiquidity;
    if numerator > 0 {
      var delta: U128 :- ShareOfLiquidity(first.permanentLockedLiquidity, numerator);
      var _ :- first.RemovePermanentLocked(delta);
      var _ :- second.AddPermanentLocked(delta);
    }
    return Ok(Unit);
  }

  method MovePending(first: Position, second: Position, numeratorA: U32, numeratorB: U32)
    returns (r: Result<Unit>)
    requires Apart(first, second)
    modifies first`feeAPending, first`feeBPending, second`feeAPending, second`feeBPending
    ensures Updated(
              SplitPending(old(PairOf(first, second)), numeratorA, numeratorB), r, PairOf(first, second))
  {
    hide ShareOfPending;
    if numeratorA > 0 || numeratorB > 0 {
      var a: U64 :- ShareOfPending(first.feeAPending, numeratorA);
      var b: U64 :- ShareOfPending(first.feeBPending, numeratorB);
      var _ :- first.MoveFeePending(0 - a, 0 - b);
      var _ :- second.MoveFeePending(a, b);
    }
    return Ok(Unit);
  }

  method MoveReward(first: Position, second: Position, index: nat, stream: RewardData, numerator: U32)
    returns (r: Result<Unit>)
    requires Apart(first, second) && index < NUM_REWARDS
    modifies first.rewardInfos, second.rewardInfos
    ensures Updated(
              SplitReward(old(PairOf(first, second)), index, stream, numerator), r, PairOf(first, second))
  {
    hide ShareOfPending;
    if numerator > 0 && stream.initialized {
      var delta: U64 :- ShareOfPending(first.rewardInfos[index].pending, numerator);
      var _ :- first.MoveRewardPending(index, 0 - delta);
      var _ :- second.MoveRewardPending(index, delta);
      assert first.View().rewards
          == old(first.View()).rewards[index := first.rewardInfos[index]];
      assert second.View().rewards
          == old(second.View()).rewards[index := second.rewardInfos[index]];
    }
    return Ok(Unit);
  }

  /** `apply_split_position` */
  method ApplySplitPosition(pool: Pool, first: Position, second: Position, n: SplitNumerators)
    returns (r: Result<Unit>)
    requires pool.Valid() && Apart(first, second)
    modifies first, first.rewardInfos, second, second.rewardInfos
    ensures Updated(ApplySplit(pool.View(), old(PairOf(first, second)), n), r, PairOf(first, second))
  {
    hide UpdateFee, SplitUnlocked, SplitPermanent, SplitPending, SplitReward;
    var _ :- first.UpdateFeeOf(pool.a.perLiquidity, pool.b.perLiquidity);
    var _ :- second.UpdateFeeOf(pool.a.perLiquidity, pool.b.perLiquidity);
    var _ :- MoveUnlocked(first, second, n.unlocked);
    var _ :- MovePermanent(first, second, n.permanent);
    var _ :- MovePending(first, second, n.feeA, n.feeB);
    var _ :- MoveReward(first, second, 0, pool.rewardInfos[0].View(), n.reward0);
    r := MoveReward(first, second, 1, pool.rewardInfos[1].View(), n.reward1);
  }

  method HandleSplitPosition(pool: Pool, first: Position, second: Position, n: SplitNumerators, now: U64)
    returns (r: Result<Unit>)
    requires pool.Valid() && Apart(first, second)
    modifies pool.rewardInfos, first, first.rewardInfos, second, second.rewardInfos
    ensures Updated(
              Instructions.SplitPosition(old(pool.View()), old(PairOf(first, second)), n, now), r,
              SplitChange(pool.View(), PairOf(first, second)))
  {
    hide UpdateReward, UpdatePositionReward, ApplySplit, ValidateSplit;
    var _ :- ValidateSplit(n);
    var _ :- Require(first.vestedLiquidity == 0, UnsupportPositionHasVestingLock);
    var _ :- pool.UpdateAllRewards(now);
    var _ :- first.UpdatePositionRewards(pool.View().rewards);
    var _ :- second.UpdatePositionRewards(pool.View().rewards);
    var _ :- ApplySplitPosition(pool, first, second, n);
    var _ :- first.GetTotalLiquidity();
    var _ :- second.GetTotalLiquidity();
    return Ok(Unit);
  }

  // ----- Closing -----

  method HandleClosePosition(position: Position) returns (r: Result<Unit>)
    requires position.Valid()
    ensures r == Instructions.ClosePosition(position.View())
  {
    hide IsEmpty;
    var empty: bool :- position.CheckEmpty();
    r := Require(empty, PositionIsNotEmpty);
  }

  // ----- Rewards -----

  /** Steps 1 and 2 of `handle_fund_reward`: accrue, then set the new rate of the funded stream. */
  method SetFundedRate(pool: Pool, index: nat, amount: U64, carryForward: bool, now: U64)
    returns (r: Result<Unit>)
    requires pool.Valid()
    modifies pool.rewardInfos
    ensures Updated(RewardFunded(old(pool.View()), index, amount, carryForward, now), r, pool.View())
  {
    hide UpdateReward, RateAfterFunding, Ineligible;
    var _ :- Require(index < NUM_REWARDS, InvalidRewardIndex);
    var rewardInfo := pool.rewardInfos[index];
    var _ :- Require(rewardInfo.initialized, RewardUninitialized);
    var _ :- Require(amount > 0, AmountIsZero);
    var _ :- pool.UpdateAllRewards(now);
    var totalAmount: U64 := amount;
    if carryForward {
      var carried: U64 :- rewardInfo.ClaimIneligible();
      totalAmount :- Fit64(amount + carried);
    } else {
      var _ :- Require(
        rewardInfo.cumulativeSecondsWithEmptyLiquidityReward == 0, MustWithdrawnIneligibleReward);
    }
    r := rewardInfo.UpdateRateAfterFunding(now, totalAmount);
  }

  method HandleFundReward(
      pool: Pool, vault: TokenAccount, index: nat, amount: U64, carryForward: bool, now: U64)
    returns (r: Outcome<Unit>)
    requires pool.Valid()
    modifies pool.rewardInfos, vault
    ensures Handled(
              Instructions.FundReward(old(pool.View()), old(vault.amount), index, amount, carryForward, now),
              r, RewardChange(pool.View(), vault.amount))
  {
    hide RewardFunded;
    var funded := SetFundedRate(pool, index, amount, carryForward, now);
    var _ :- Computed(funded);
    r := vault.TransferIn(amount);
  }

  method HandleClaimReward(
      pool: Pool, position: Position, vault: TokenAccount, index: nat, frozen: bool, skip: bool, now: U64)
    returns (r: Outcome<Unit>)
    requires pool.Valid() && position.Valid()
    modifies pool.rewardInfos, position.rewardInfos, vault
    ensures Handled(
              Instructions.ClaimReward(
                old(pool.View()), old(position.View()), old(vault.amount), index, frozen, skip, now),
              r, RewardClaim(pool.View(), position.View(), vault.amount))
  {
    hide Accrue;
    var _ :- Computed(Require(index < NUM_REWARDS, InvalidRewardIndex));
    var _ :- Computed(Require(pool.rewardInfos[index].initialized, RewardUninitialized));
    var accrued := pool.AccrueRewards(position, now);
    var _ :- Computed(accrued);
    var reward := position.ClaimReward(index);
    if reward > 0 {
      if frozen {
        var _ :- Computed(Require(skip, RewardVaultFrozenSkipRequired));
      } else {
        var _ :- vault.TransferOut(reward);
      }
    }
    return Done(Unit);
  }

  method HandleWithdrawIneligibleReward(pool: Pool, vault: TokenAccount, index: nat, now: U64)
    returns (r: Outcome<Unit>)
    requires pool.Valid()
    modifies pool.rewardInfos, vault
    ensures Handled(
              Instructions.WithdrawIneligibleReward(old(pool.View()), old(vault.amount), index, now), r,
              RewardChange(pool.View(), vault.amount))
  {
    hide UpdateReward, Ineligible;
    var _ :- Computed(Require(index < NUM_REWARDS, InvalidRewardIndex));
    var rewardInfo := pool.rewardInfos[index];
    var _ :- Computed(Require(rewardInfo.initialized, RewardUninitialized));
    var _ :- Computed(Require(now > rewardInfo.rewardDurationEnd, RewardNotEnded));
    var updated := pool.UpdateAllRewards(now);
    var _ :- Computed(updated);
    var ineligible := rewardInfo.ClaimIneligible();
    var paid: U64 :- Computed(ineligible);
    if paid > 0 {
      var _ :- vault.TransferOut(paid);
    }
    return Done(Unit);
  }
}

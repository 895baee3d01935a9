/** Every step keeps the invariant and no step is ever refused for lack of funds; hence both hold over
    every run. */
module Safety {
  import opened Checked
  import opened Fees
  import opened PoolState
  import opened Positions
  import opened Pools
  import opened Vestings
  import opened Instructions
  import opened Receipts
  import opened Ledger
  import opened Balance
  import opened BalanceKept
  import opened SplitKept
  import opened Solvency
  import opened VestingsKept

  /** A step is safe: it is not refused for lack of funds, and if it succeeds the invariant holds. */
  ghost predicate Safe(r: Outcome<State>, point: U64) {
    !r.Unfunded? && (r.Done? ==> Holds(r.value, point))
  }

  // ----- Transfers -----

  lemma WithdrawBothDefined(v: Vaults, amounts: Amounts)
    ensures amounts.a <= v.a && amounts.b <= v.b ==>
              WithdrawBoth(v, amounts) == Done(Vaults(v.a - amounts.a, v.b - amounts.b))
  {
  }

  lemma DepositBothAdds(v: Vaults, amounts: Amounts)
    ensures !DepositBoth(v, amounts).Unfunded?
    ensures DepositBoth(v, amounts).Done? ==>
              DepositBoth(v, amounts).value == Vaults(v.a + amounts.a, v.b + amounts.b)
  {
  }

  /** The transfers of a swap go through whenever their sum leaves both vaults non-negative. */
  lemma SwapTransfersAdd(v: Vaults, s: SwapParameters, m: FeeMode, r: SwapResult)
    requires !s.hasReferral ==> r.fees.referral == 0
    requires m.feesOnInput ==> m.feesOnTokenA == s.direction.AtoB?
    requires !m.feesOnInput ==> m.feesOnTokenA == s.direction.BtoA?
    requires var after := Plus(Held(v), VaultChange(m, s.direction, r)); 0 <= after.a && 0 <= after.b
    ensures !SwapTransfers(v, s, m, r).Unfunded?
    ensures SwapTransfers(v, s, m, r).Done? ==>
              Held(SwapTransfers(v, s, m, r).value) == Plus(Held(v), VaultChange(m, s.direction, r))
  {
  }

  // ----- Liquidity -----

  lemma CreateSafe(s: State, point: U64)
    requires Holds(s, point)
    ensures Safe(CreatePositionStep(s), point)
  {
    hide Balanced, ReservesCovered, SwapReady, VestedAgrees, VestingsOpen, Blank;
    NewIsBlank();
    OpenSafe(s, NewPosition(0), point);
  }

  lemma OpenSafe(s: State, q: PositionData, point: U64)
    requires Holds(s, point) && Blank(q)
    ensures Holds(s.(positions := s.positions + [Some(q)]), point)
  {
    hide Balanced, ReservesCovered, SwapReady, VestedAgrees, VestingsOpen;
    OpenKeeps(s.pool, s.positions, q, s.claimed, s.rewardVaults[0], s.rewardVaults[1]);
    OpenKeepsVested(s.positions, s.vestings, q, point);
    LaterOpen(s.vestings, |s.positions|, |s.positions| + 1, point, point);
  }

  lemma AddSafe(s: State, i: nat, delta: U128, thresholds: Amounts, now: U64, point: U64)
    requires Holds(s, point)
    ensures Safe(AddLiquidityStep(s, i, delta, thresholds, now), point)
  {
    hide Balanced, ReservesCovered, VestedAgrees, VestingsOpen, AddedLiquidity, DepositBoth, Reserves,
         AmountsForLiquidity;
    var slot := SlotOf(s.positions, i);
    if slot.Ok? && AddedLiquidity(s.pool, slot.value, now, delta, thresholds).Ok? {
      AddedKeeps(
        s.pool, s.positions, i, s.claimed, s.rewardVaults[0], s.rewardVaults[1], now, delta, thresholds);
      var r := AddedLiquidity(s.pool, slot.value, now, delta, thresholds).value;
      DepositBothAdds(s.vaults, r.amounts);
      AddCovered(s.pool, r.pool, Held(s.vaults), s.claimed, delta, r.amounts);
      KeepVested(s.positions, s.vestings, i, Some(r.position));
    }
  }

  lemma RemoveSafe(s: State, i: nat, requested: Option<U128>, thresholds: Amounts, now: U64, point: U64)
    requires Holds(s, point)
    ensures Safe(RemoveLiquidityStep(s, i, requested, thresholds, now), point)
  {
    hide Balanced, ReservesCovered, VestedAgrees, VestingsOpen, RemovedLiquidity, WithdrawBoth, Reserves,
         AmountsForLiquidity;
    var slot := SlotOf(s.positions, i);
    if slot.Ok? && RemovedLiquidity(s.pool, slot.value, now, requested, thresholds).Ok? {
      var delta := RemovedKeeps(
        s.pool, s.positions, i, s.claimed, s.rewardVaults[0], s.rewardVaults[1], now, requested,
        thresholds);
      var r := RemovedLiquidity(s.pool, slot.value, now, requested, thresholds).value;
      RemoveCovered(s.pool, r.pool, Held(s.vaults), s.claimed, delta, r.amounts);
      HeldCoversUnclaimed(
        r.pool, s.positions[i := Some(r.position)],
        Plus(Held(s.vaults), Receipt(0 - r.amounts.a, 0 - r.amounts.b)), s.claimed, s.rewardVaults[0],
        s.rewardVaults[1]);
      WithdrawBothDefined(s.vaults, r.amounts);
      KeepVested(s.positions, s.vestings, i, Some(r.position));
    }
  }

  // ----- Swaps and fees -----

  lemma SwapAppliedBalanced(s: State, parameters: SwapParameters, now: U64, currentPoint: U64)
    requires Balanced(s.pool, s.positions, s.claimed, s.rewardVaults[0], s.rewardVaults[1])
    requires SwapApplied(s.pool, parameters, now, currentPoint).Ok?
    ensures Balanced(
              SwapApplied(s.pool, parameters, now, currentPoint).value.pool, s.positions, s.claimed,
              s.rewardVaults[0], s.rewardVaults[1])
  {
    hide LiquidityAgrees, FeesConserved, StreamBooks, ApplySwap, QuoteOf, DynamicFee.PreSwap, FeeModeOf;
    var p1 := s.pool.(dynamicFee := DynamicFee.PreSwap(s.pool.dynamicFee, s.pool.sqrtPrice, now).value);
    SwapKeeps(
      p1, s.positions, s.claimed, s.rewardVaults[0], s.rewardVaults[1],
      QuoteOf(p1, parameters, currentPoint).value, FeeModeOf(s.pool, parameters), now);
  }

  lemma SwapSafe(s: State, parameters: SwapParameters, now: U64, currentPoint: U64, point: U64)
    requires Holds(s, point)
    ensures Safe(SwapStep(s, parameters, now, currentPoint), point)
  {
    hide Balanced, ReservesCovered, VestedAgrees, VestingsOpen, SwapApplied, SwapTransfers, VaultChange,
         Reserves, SwapReady;
    if SwapApplied(s.pool, parameters, now, currentPoint).Ok? {
      var r := SwapApplied(s.pool, parameters, now, currentPoint).value;
      var m := FeeModeOf(s.pool, parameters);
      SwapAppliedBalanced(s, parameters, now, currentPoint);
      SwapAppliedKeeps(s.pool, parameters, now, currentPoint, Held(s.vaults), s.claimed);
      var after := Plus(Held(s.vaults), VaultChange(m, parameters.direction, r.result));
      ReadyPrices(r.pool);
      HeldCoversUnclaimed(
        r.pool, s.positions, after, s.claimed, s.rewardVaults[0], s.rewardVaults[1]);
      SwapTransfersAdd(s.vaults, parameters, m, r.result);
    }
  }

  lemma ReadyPrices(p: PoolData)
    requires SwapReady(p)
    ensures PricesInRange(p)
  {
  }

  lemma ClaimFeeSafe(s: State, i: nat, point: U64)
    requires Holds(s, point)
    ensures Safe(ClaimPositionFeeStep(s, i), point)
  {
    hide Balanced, VestedAgrees, VestingsOpen, FeesOf, WithdrawBoth;
    var slot := SlotOf(s.positions, i);
    if slot.Ok? && FeesOf(s.pool, slot.value).Ok? {
      var taken := FeesOf(s.pool, slot.value).value;
      FeesOfKeeps(s.pool, s.positions, i, s.claimed, s.rewardVaults[0], s.rewardVaults[1]);
      var claimed := Plus(s.claimed, Receipt(taken.paid.a, taken.paid.b));
      HeldCoversUnclaimed(
        s.pool, s.positions[i := Some(taken.position)],
        Receipt(s.vaults.a - taken.paid.a, s.vaults.b - taken.paid.b), claimed, s.rewardVaults[0],
        s.rewardVaults[1]);
      WithdrawBothDefined(s.vaults, taken.paid);
      KeepVested(s.positions, s.vestings, i, Some(taken.position));
    }
  }

  /** Lanes that differ only in what protocol and partner may still claim. */
  lemma LanesKeep(
      p: PoolData, a: FeeLane, b: FeeLane, positions: Slots, claimed: Receipt, vault0: int, vault1: int)
    requires Balanced(p, positions, claimed, vault0, vault1)
    requires a == p.a.(protocolFee := a.protocolFee, partnerFee := a.partnerFee)
    requires b == p.b.(protocolFee := b.protocolFee, partnerFee := b.partnerFee)
    ensures Balanced(p.(a := a, b := b), positions, claimed, vault0, vault1)
  {
    hide LiquidityAgrees, FeesConserved, StreamBooks;
  }

  lemma ClaimProtocolSafe(s: State, most: Amounts, point: U64)
    requires Holds(s, point)
    ensures Safe(ClaimProtocolFeeStep(s, most), point)
  {
    hide Balanced, VestedAgrees, VestingsOpen, WithdrawBoth;
    HeldCoversUnclaimed(
      s.pool, s.positions, Held(s.vaults), s.claimed, s.rewardVaults[0], s.rewardVaults[1]);
    WithdrawBothDefined(
      s.vaults, Amounts(Min(s.pool.a.protocolFee, most.a), Min(s.pool.b.protocolFee, most.b)));
    LanesKeep(
      s.pool, TakeProtocolFee(s.pool.a, most.a), TakeProtocolFee(s.pool.b, most.b), s.positions,
      s.claimed, s.rewardVaults[0], s.rewardVaults[1]);
  }

  lemma ClaimPartnerSafe(s: State, most: Amounts, point: U64)
    requires Holds(s, point)
    ensures Safe(ClaimPartnerFeeStep(s, most), point)
  {
    hide Balanced, VestedAgrees, VestingsOpen, WithdrawBoth;
    HeldCoversUnclaimed(
      s.pool, s.positions, Held(s.vaults), s.claimed, s.rewardVaults[0], s.rewardVaults[1]);
    WithdrawBothDefined(
      s.vaults, Amounts(Min(s.pool.a.partnerFee, most.a), Min(s.pool.b.partnerFee, most.b)));
    LanesKeep(
      s.pool, TakePartnerFee(s.pool.a, most.a), TakePartnerFee(s.pool.b, most.b), s.positions,
      s.claimed, s.rewardVaults[0], s.rewardVaults[1]);
  }

  lemma DonateSafe(s: State, amounts: Amounts, point: U64)
    requires Holds(s, point)
    ensures Safe(DonateStep(s, amounts), point)
  {
    hide Balanced, VestedAgrees, VestingsOpen, DepositBoth;
    DepositBothAdds(s.vaults, amounts);
    var freeA, freeB := Free(s.vaults.a, s.pool.a, s.claimed.a), Free(s.vaults.b, s.pool.b, s.claimed.b);
    MoreA(s.pool.liquidity, s.pool.sqrtMaxPrice, s.pool.sqrtPrice, freeA, freeA + amounts.a);
  }

  // ----- Locks -----

  lemma LockSafe(
      s: State, i: nat, schedule: VestingParameters, maxDuration: U64, point: U64)
    requires Holds(s, point)
    ensures Safe(LockPositionStep(s, i, schedule, maxDuration, point), point)
  {
    hide Balanced, ReservesCovered, VestedAgrees, VestingsOpen, Unreleased, Lags, SwapReady;
    var slot := SlotOf(s.positions, i);
    if slot.Ok? && Instructions.LockPosition(slot.value, i, schedule, point, maxDuration).Ok? {
      var r := Instructions.LockPosition(slot.value, i, schedule, point, maxDuration).value;
      LockOpens(slot.value, i, schedule, point, maxDuration);
      RelabelKeeps(
        s.pool, s.pool, s.positions, i, r.position, s.claimed, s.rewardVaults[0], s.rewardVaults[1]);
      LockKeepsVested(s.positions, s.vestings, i, r.position, r.vesting, point);
    }
  }

  lemma PermanentLockSafe(s: State, i: nat, amount: U128, point: U64)
    requires Holds(s, point)
    ensures Safe(PermanentLockStep(s, i, amount), point)
  {
    hide Balanced, VestedAgrees, VestingsOpen;
    var slot := SlotOf(s.positions, i);
    if slot.Ok? && Instructions.PermanentLockPosition(s.pool, slot.value, amount).Ok? {
      var r := Instructions.PermanentLockPosition(s.pool, slot.value, amount).value;
      RelabelKeeps(
        s.pool, r.pool, s.positions, i, r.position, s.claimed, s.rewardVaults[0], s.rewardVaults[1]);
      KeepVested(s.positions, s.vestings, i, Some(r.position));
    }
  }

  lemma RefreshSafe(s: State, i: nat, slots: seq<nat>, point: U64)
    requires Holds(s, point)
    ensures Safe(RefreshVestingStep(s, i, slots, point), point)
  {
    hide Balanced, ReservesCovered, VestedAgrees, VestingsOpen, SwapReady;
    var slot := SlotOf(s.positions, i);
    if slot.Ok? && Instructions.RefreshVesting(slot.value, i, s.vestings, slots, point).Ok? {
      var r := Instructions.RefreshVesting(slot.value, i, s.vestings, slots, point).value;
      RefreshKeeps(s.positions, s.vestings, i, slots, point);
      RelabelKeeps(
        s.pool, s.pool, s.positions, i, r.position, s.claimed, s.rewardVaults[0], s.rewardVaults[1]);
    }
  }

  // ----- Splitting and closing -----

  lemma SplitSafe(s: State, i: nat, j: nat, n: SplitNumerators, now: U64, point: U64)
    requires Holds(s, point)
    ensures Safe(SplitPositionStep(s, i, j, n, now), point)
  {
    hide Balanced, VestedAgrees, VestingsOpen;
    var first, second := SlotOf(s.positions, i), SlotOf(s.positions, j);
    if first.Ok? && second.Ok? && i != j
       && Instructions.SplitPosition(s.pool, Pair(first.value, second.value), n, now).Ok? {
      var r := Instructions.SplitPosition(s.pool, Pair(first.value, second.value), n, now).value;
      SplitKeeps(
        s.pool, s.positions, i, j, s.claimed, s.rewardVaults[0], s.rewardVaults[1], n, now);
      KeepVested(s.positions, s.vestings, i, Some(r.pair.first));
      KeepVested(s.positions[i := Some(r.pair.first)], s.vestings, j, Some(r.pair.second));
    }
  }

  lemma CloseSafe(s: State, i: nat, point: U64)
    requires Holds(s, point)
    ensures Safe(ClosePositionStep(s, i), point)
  {
    hide Balanced, ReservesCovered, VestedAgrees, VestingsOpen, SwapReady, IsEmpty;
    var slot := SlotOf(s.positions, i);
    if slot.Ok? && Instructions.ClosePosition(slot.value).Ok? {
      CloseKeeps(s.pool, s.positions, i, s.claimed, s.rewardVaults[0], s.rewardVaults[1]);
      KeepVested(s.positions, s.vestings, i, None);
    }
  }

  // ----- Rewards -----

  /** Streams play no part in the reserves. */
  lemma StreamsKeepReserves(p: PoolData, p': PoolData, held: Receipt, claimed: Receipt)
    requires p' == p.(rewards := p'.rewards) && SwapReady(p) && ReservesCovered(p, held, claimed)
    ensures SwapReady(p') && ReservesCovered(p', held, claimed)
  {
  }

  lemma FundSafe(s: State, index: nat, amount: U64, carryForward: bool, now: U64, point: U64)
    requires Holds(s, point)
    ensures Safe(FundRewardStep(s, index, amount, carryForward, now), point)
  {
    hide Balanced, ReservesCovered, VestedAgrees, VestingsOpen, SwapReady, RewardFunded;
    if RewardFunded(s.pool, index, amount, carryForward, now).Ok? {
      RewardFundedKeeps(
        s.pool, s.positions, s.claimed, s.rewardVaults[0], s.rewardVaults[1], index, amount, carryForward,
        now);
      StreamsKeepReserves(
        s.pool, RewardFunded(s.pool, index, amount, carryForward, now).value, Held(s.vaults), s.claimed);
    }
  }

  lemma BothNotOverdrawn(p: PoolData, positions: Slots, claimed: Receipt, vault0: int, vault1: int)
    requires Balanced(p, positions, claimed, vault0, vault1)
    ensures 0 <= vault0 && 0 <= vault1
  {
    hide LiquidityAgrees, FeesConserved, StreamBooks;
    VaultNotOverdrawn(positions, 0, p.rewards[0], vault0);
    VaultNotOverdrawn(positions, 1, p.rewards[1], vault1);
  }

  lemma ClaimRewardSafe(s: State, i: nat, index: nat, frozen: bool, skip: bool, now: U64, point: U64)
    requires Holds(s, point)
    ensures Safe(ClaimRewardStep(s, i, index, frozen, skip, now), point)
  {
    hide Balanced, ReservesCovered, VestedAgrees, VestingsOpen, SwapReady, RewardOf;
    var slot := SlotOf(s.positions, i);
    if slot.Ok? && RewardOf(s.pool, slot.value, index, frozen, skip, now).Ok? {
      var taken := RewardOf(s.pool, slot.value, index, frozen, skip, now).value;
      RewardOfKeeps(
        s.pool, s.positions, i, s.claimed, s.rewardVaults[0], s.rewardVaults[1], index, frozen, skip, now);
      BothNotOverdrawn(
        taken.pool, s.positions[i := Some(taken.position)], s.claimed,
        s.rewardVaults[0] - OnIndex(index, 0, taken.paid),
        s.rewardVaults[1] - OnIndex(index, 1, taken.paid));
      StreamsKeepReserves(s.pool, taken.pool, Held(s.vaults), s.claimed);
      KeepVested(s.positions, s.vestings, i, Some(taken.position));
    }
  }

  lemma WithdrawIneligibleSafe(s: State, index: nat, now: U64, point: U64)
    requires Holds(s, point)
    ensures Safe(WithdrawIneligibleStep(s, index, now), point)
  {
    hide Balanced, ReservesCovered, VestedAgrees, VestingsOpen, SwapReady, IneligibleOf;
    if IneligibleOf(s.pool, index, now).Ok? {
      var taken := IneligibleOf(s.pool, index, now).value;
      IneligibleKeeps(s.pool, s.positions, s.claimed, s.rewardVaults[0], s.rewardVaults[1], index, now);
      BothNotOverdrawn(
        taken.pool, s.positions, s.claimed, s.rewardVaults[0] + OnIndex(index, 0, 0 - taken.paid),
        s.rewardVaults[1] + OnIndex(index, 1, 0 - taken.paid));
      StreamsKeepReserves(s.pool, taken.pool, Held(s.vaults), s.claimed);
    }
  }

  lemma DurationSafe(s: State, index: nat, duration: U64, point: U64)
    requires Holds(s, point) && index < NUM_REWARDS
    ensures Holds(
              s.(pool := WithStream(
                           s.pool, index,
                           StreamAt(s.pool, index).(initialized := true, rewardDuration := duration))),
              point)
  {
    hide Balanced, ReservesCovered, VestedAgrees, VestingsOpen, SwapReady;
    DurationKeeps(s.pool, s.positions, s.claimed, s.rewardVaults[0], s.rewardVaults[1], index, duration);
    StreamsKeepReserves(
      s.pool,
      WithStream(
        s.pool, index, StreamAt(s.pool, index).(initialized := true, rewardDuration := duration)),
      Held(s.vaults), s.claimed);
  }

  lemma DonateRewardSafe(s: State, index: nat, amount: U64, point: U64)
    requires Holds(s, point)
    ensures Safe(DonateRewardStep(s, index, amount), point)
  {
    hide Balanced, ReservesCovered, VestedAgrees, VestingsOpen, SwapReady;
    VaultGrows(
      s.pool, s.positions, s.claimed, s.rewardVaults[0], s.rewardVaults[1],
      if index == 0 then amount else 0, if index == 0 then 0 else amount);
  }

  /** Tokens nobody is promised break no promise. */
  lemma VaultGrows(
      p: PoolData, positions: Slots, claimed: Receipt, vault0: int, vault1: int, more0: nat, more1: nat)
    requires Balanced(p, positions, claimed, vault0, vault1)
    ensures Balanced(p, positions, claimed, vault0 + more0, vault1 + more1)
  {
    hide LiquidityAgrees, FeesConserved, RewardCheckpoints, RewardWeight, Rewards.WellFormed;
  }

  // ----- All steps -----

  lemma StepSafe(s: State, e: Event)
    requires Holds(s, e.point)
    ensures Safe(Step(s, e), e.point)
  {
    hide Holds, CreatePositionStep, AddLiquidityStep, RemoveLiquidityStep, SwapStep, ClaimPositionFeeStep,
         ClaimProtocolFeeStep, ClaimPartnerFeeStep, LockPositionStep, PermanentLockStep,
         RefreshVestingStep, SplitPositionStep, ClosePositionStep, FundRewardStep, ClaimRewardStep,
         WithdrawIneligibleStep, DonateStep, DonateRewardStep;
    match e.action
    case CreatePosition => CreateSafe(s, e.point);
    case AddLiquidity(i, delta, thresholds) => AddSafe(s, i, delta, thresholds, e.time, e.point);
    case RemoveLiquidity(i, requested, thresholds) =>
      RemoveSafe(s, i, requested, thresholds, e.time, e.point);
    case Swap(parameters) => SwapSafe(s, parameters, e.time, e.point, e.point);
    case ClaimPositionFee(i) => ClaimFeeSafe(s, i, e.point);
    case ClaimProtocolFee(most) => ClaimProtocolSafe(s, most, e.point);
    case ClaimPartnerFee(most) => ClaimPartnerSafe(s, most, e.point);
    case LockPosition(i, schedule, maxDuration) => LockSafe(s, i, schedule, maxDuration, e.point);
    case PermanentLockPosition(i, amount) => PermanentLockSafe(s, i, amount, e.point);
    case RefreshVesting(i, slots) => RefreshSafe(s, i, slots, e.point);
    case SplitPosition(i, j, n) => SplitSafe(s, i, j, n, e.time, e.point);
    case ClosePosition(i) => CloseSafe(s, i, e.point);
    case InitializeReward(index, duration) =>
      if index < NUM_REWARDS {
        DurationSafe(s, index, duration, e.point);
      }
    case FundReward(index, amount, carryForward) =>
      FundSafe(s, index, amount, carryForward, e.time, e.point);
    case ClaimReward(i, index, frozen, skip) =>
      ClaimRewardSafe(s, i, index, frozen, skip, e.time, e.point);
    case WithdrawIneligibleReward(index) => WithdrawIneligibleSafe(s, index, e.time, e.point);
    case UpdateRewardDuration(index, duration) =>
      if index < NUM_REWARDS {
        DurationSafe(s, index, duration, e.point);
      }
    case Donate(amounts) => DonateSafe(s, amounts, e.point);
    case DonateReward(index, amount) => DonateRewardSafe(s, index, amount, e.point);
  }
}

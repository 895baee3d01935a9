/** What each instruction hands over: to the unit, in both directions, and within the limits its caller
    set. */
module Settlements {
  import opened Checked
  import opened UtilsMath
  import opened Curve
  import opened PoolState
  import opened Rewards
  import opened Positions
  import opened Pools
  import opened SwapQuotes
  import opened Vestings
  import opened Fees
  import opened QuoteValues
  import opened Instructions
  import DynamicFee

  // ----- Swaps -----

  /** The limit the caller sets holds of every swap that goes through, in every mode: a least output, or a
      most input. An exact output is exactly the output asked for. */
  lemma SwapWithinLimits(p: PoolData, v: Vaults, s: SwapParameters, now: U64, currentPoint: U64)
    requires Instructions.Swap(p, v, s, now, currentPoint).Done?
    ensures SwapApplied(p, s, now, currentPoint).Ok?
    ensures var r := SwapApplied(p, s, now, currentPoint).value.result;
            match s.mode
            case ExactIn => r.includedFeeInputAmount == s.amount0 && s.amount1 <= r.outputAmount
            case PartialFill => 0 < r.includedFeeInputAmount && s.amount1 <= r.outputAmount
            case ExactOut => r.outputAmount == s.amount0 && r.includedFeeInputAmount <= s.amount1
  {
    hide DynamicFee.PreSwap, ApplySwap, Reserves, SwapTransfers, TradingFeeOf, FromAmountIn,
         FromAmountOut, PartialInput, InputAfterFee, OutputAfterFee, ChargeIf;
  }

  /** The vaults change by what is paid in, what is given out, and a referrer's part of the fee. */
  lemma SwapMovesTokens(p: PoolData, v: Vaults, s: SwapParameters, now: U64, currentPoint: U64)
    requires Instructions.Swap(p, v, s, now, currentPoint).Done?
    ensures var r := SwapApplied(p, s, now, currentPoint).value.result;
            var v' := Instructions.Swap(p, v, s, now, currentPoint).value.vaults;
            var referral := if s.hasReferral then r.fees.referral else 0;
            var onInput := FeeToken(FeeModeOf(p, s)) == TokenIn(s.direction);
            && BalanceOf(v', TokenIn(s.direction))
               == BalanceOf(v, TokenIn(s.direction)) + r.includedFeeInputAmount
                  - (if onInput then referral else 0)
            && BalanceOf(v', TokenOut(s.direction))
               == BalanceOf(v, TokenOut(s.direction)) - r.outputAmount - (if onInput then 0 else referral)
  {
    hide SwapApplied, Reserves;
  }

  /** A swap is quoted on the pool with its references brought up to date, at the rate of its version's
      cap, with the fee on the side that the pool collects it; and what was quoted is what is recorded. */
  lemma SwapPriced(p: PoolData, s: SwapParameters, now: U64, currentPoint: U64)
    requires SwapApplied(p, s, now, currentPoint).Ok?
    ensures 0 < s.amount0 && DynamicFee.PreSwap(p.dynamicFee, p.sqrtPrice, now).Ok?
    ensures MaxFeeNumerator(p.version).Ok?
    ensures var p1 := p.(dynamicFee := DynamicFee.PreSwap(p.dynamicFee, p.sqrtPrice, now).value);
            var f := TradingFeeOf(p1, currentPoint, s.direction, MaxFeeNumerator(p.version).value);
            var m := GetFeeMode(p.collectFeeMode, s.direction, s.hasReferral);
            var r := SwapApplied(p, s, now, currentPoint).value.result;
            && Quote(p1, f, s.mode, s.amount0, m, s.direction) == Ok(r)
            && PricedAs(f, s.mode, s.amount0, m, r) && Divided(p1, m, r)
            && ApplySwap(p1, r, m, now) == Ok(SwapApplied(p, s, now, currentPoint).value.pool)
  {
    hide DynamicFee.PreSwap, ApplySwap, TradingFeeOf, ExactInput, PartialInput, ExactOutput, PricedAs,
         Divided, MaxFeeNumerator;
    var p1 := p.(dynamicFee := DynamicFee.PreSwap(p.dynamicFee, p.sqrtPrice, now).value);
    var f := TradingFeeOf(p1, currentPoint, s.direction, MaxFeeNumerator(p.version).value);
    var m := GetFeeMode(p.collectFeeMode, s.direction, s.hasReferral);
    match s.mode
    case ExactIn => ExactInputPriced(p1, f, s.amount0, m, s.direction);
    case PartialFill => var _ := PartialInputPriced(p1, f, s.amount0, m, s.direction);
    case ExactOut => ExactOutputPriced(p1, f, s.amount0, m, s.direction);
  }

  // ----- Liquidity -----

  /** The least amounts that cover the liquidity at the pool's price, or the greatest it is worth. */
  ghost predicate AmountsExact(p: PoolData, delta: nat, rounding: Rounding, amounts: Amounts) {
    && (forall k: int {:trigger CoversA(delta, p.sqrtPrice, p.sqrtMaxPrice, k)}
                      {:trigger WithinA(delta, p.sqrtPrice, p.sqrtMaxPrice, k)} ::
          if rounding.Up? then amounts.a <= k <==> CoversA(delta, p.sqrtPrice, p.sqrtMaxPrice, k)
          else k <= amounts.a <==> WithinA(delta, p.sqrtPrice, p.sqrtMaxPrice, k))
    && (forall k: int {:trigger CoversB(delta, p.sqrtMinPrice, p.sqrtPrice, k)}
                      {:trigger WithinB(delta, p.sqrtMinPrice, p.sqrtPrice, k)} ::
          if rounding.Up? then amounts.b <= k <==> CoversB(delta, p.sqrtMinPrice, p.sqrtPrice, k)
          else k <= amounts.b <==> WithinB(delta, p.sqrtMinPrice, p.sqrtPrice, k))
  }

  lemma AmountsAreExact(p: PoolData, delta: U128, rounding: Rounding)
    requires AmountsForLiquidity(p, delta, rounding).Ok?
    ensures AmountsExact(p, delta, rounding, AmountsForLiquidity(p, delta, rounding).value)
  {
    hide DeltaA, DeltaB, CoversA, CoversB, WithinA, WithinB;
    var amounts := AmountsForLiquidity(p, delta, rounding).value;
    forall k: int
      ensures if rounding.Up? then amounts.a <= k <==> CoversA(delta, p.sqrtPrice, p.sqrtMaxPrice, k)
              else k <= amounts.a <==> WithinA(delta, p.sqrtPrice, p.sqrtMaxPrice, k)
      ensures if rounding.Up? then amounts.b <= k <==> CoversB(delta, p.sqrtMinPrice, p.sqrtPrice, k)
              else k <= amounts.b <==> WithinB(delta, p.sqrtMinPrice, p.sqrtPrice, k)
    {
      DeltaARounding(p.sqrtPrice, p.sqrtMaxPrice, delta, rounding, k);
      DeltaBRounding(p.sqrtMinPrice, p.sqrtPrice, delta, rounding, k);
    }
  }

  /** What the handlers of this module leave of a pool: everything but its liquidity and its streams. */
  ghost predicate OnlyLiquidity(p: PoolData, p': PoolData, change: int) {
    p' == p.(liquidity := p'.liquidity, rewards := p'.rewards) && p'.liquidity == p.liquidity + change
  }

  lemma AccruedSame(p: PoolData, q: PositionData, now: U64)
    requires Accrue(p, q, now).Ok?
    ensures var r := Accrue(p, q, now).value;
            && r.pool == p.(rewards := r.pool.rewards) && r.position == q.(rewards := r.position.rewards)
            && (forall delta: U128, rounding: Rounding ::
                  AmountsForLiquidity(r.pool, delta, rounding) == AmountsForLiquidity(p, delta, rounding))
  {
    hide UpdateStreams, UserRewardFor, DeltaA, DeltaB;
  }

  lemma AppliedAddition(p: PoolData, q: PositionData, delta: U128)
    requires ApplyAdd(p, q, delta).Ok?
    ensures var r := ApplyAdd(p, q, delta).value;
            && r.pool == p.(liquidity := r.pool.liquidity) && r.pool.liquidity == p.liquidity + delta
            && r.position == q.(
                 a := r.position.a, b := r.position.b, unlockedLiquidity := r.position.unlockedLiquidity)
            && r.position.unlockedLiquidity == q.unlockedLiquidity + delta
  {
    hide Credit;
  }

  lemma AppliedRemoval(p: PoolData, q: PositionData, delta: U128)
    requires ApplyRemove(p, q, delta).Ok?
    ensures var r := ApplyRemove(p, q, delta).value;
            && r.pool == p.(liquidity := r.pool.liquidity) && r.pool.liquidity == p.liquidity - delta
            && r.position == q.(
                 a := r.position.a, b := r.position.b, unlockedLiquidity := r.position.unlockedLiquidity)
            && r.position.unlockedLiquidity == q.unlockedLiquidity - delta
  {
    hide Credit;
  }

  /** Adding liquidity takes the least amounts that cover it, within the caller's most, puts them in the
      vaults, and makes it unlocked liquidity of the position. */
  lemma AdditionExact(
      p: PoolData, q: PositionData, v: Vaults, now: U64, delta: U128, thresholds: Amounts)
    returns (amounts: Amounts)
    requires Instructions.AddLiquidity(p, q, v, now, delta, thresholds).Done?
    ensures AmountsExact(p, delta, Up, amounts)
    ensures amounts.a <= thresholds.a && amounts.b <= thresholds.b && (amounts.a > 0 || amounts.b > 0)
    ensures delta > 0
    ensures var r := Instructions.AddLiquidity(p, q, v, now, delta, thresholds).value;
            && r.vaults.a == v.a + amounts.a && r.vaults.b == v.b + amounts.b
            && OnlyLiquidity(p, r.pool, delta)
            && r.position.unlockedLiquidity == q.unlockedLiquidity + delta
            && r.position.vestedLiquidity == q.vestedLiquidity
            && r.position.permanentLockedLiquidity == q.permanentLockedLiquidity
  {
    hide Accrue, AmountsForLiquidity, ApplyAdd, Reserves, AmountsExact;
    AccruedSame(p, q, now);
    var accrued := Accrue(p, q, now).value;
    AppliedAddition(accrued.pool, accrued.position, delta);
    amounts := AmountsForLiquidity(p, delta, Up).value;
    AmountsAreExact(p, delta, Up);
  }

  /** Removing liquidity pays the greatest amounts it is worth, at least the caller's least, out of the
      vaults, and takes it from the unlocked liquidity of the position: what was asked for, or all. */
  lemma RemovalExact(
      p: PoolData, q: PositionData, v: Vaults, now: U64, requested: Option<U128>, thresholds: Amounts)
    returns (delta: U128, amounts: Amounts)
    requires Instructions.RemoveLiquidity(p, q, v, now, requested, thresholds).Done?
    ensures 0 < delta <= q.unlockedLiquidity
    ensures delta == match requested case Some(amount) => amount case None => q.unlockedLiquidity
    ensures AmountsExact(p, delta, Down, amounts)
    ensures thresholds.a <= amounts.a && thresholds.b <= amounts.b && (amounts.a > 0 || amounts.b > 0)
    ensures var r := Instructions.RemoveLiquidity(p, q, v, now, requested, thresholds).value;
            && r.vaults.a == v.a - amounts.a && r.vaults.b == v.b - amounts.b
            && OnlyLiquidity(p, r.pool, 0 - delta)
            && r.position.unlockedLiquidity == q.unlockedLiquidity - delta
            && r.position.vestedLiquidity == q.vestedLiquidity
            && r.position.permanentLockedLiquidity == q.permanentLockedLiquidity
  {
    hide Accrue, AmountsForLiquidity, ApplyRemove, Reserves, AmountsExact;
    AccruedSame(p, q, now);
    var accrued := Accrue(p, q, now).value;
    delta := if requested.Some? then requested.value else q.unlockedLiquidity;
    AppliedRemoval(accrued.pool, accrued.position, delta);
    amounts := AmountsForLiquidity(p, delta, Down).value;
    AmountsAreExact(p, delta, Down);
  }

  /** A pool as its creator asked for it, with nothing recorded yet. */
  ghost predicate AsAsked(c: PoolParameters, p: PoolData) {
    && p.baseFee == c.baseFee && p.shares == c.shares && p.hasPartner == c.hasPartner
    && p.collectFeeMode == c.collectFeeMode && p.activationPoint == c.activationPoint
    && p.version == CURRENT_POOL_VERSION && p.liquidity == c.liquidity
    && p.sqrtMinPrice == c.sqrtMinPrice && p.sqrtMaxPrice == c.sqrtMaxPrice && p.sqrtPrice == c.sqrtPrice
    && (forall token: Token :: PoolLane(p, token) == FeeLane(0, 0, 0, 0, 0, 0))
    && p.permanentLockLiquidity == 0 && p.rewards == [NO_REWARD, NO_REWARD]
    && match c.dynamicFee
       case None => !p.dynamicFee.initialized
       case Some(d) =>
         && p.dynamicFee.initialized
         && p.dynamicFee.binStep == d.binStep && p.dynamicFee.binStepU128 == d.binStepU128
         && p.dynamicFee.filterPeriod == d.filterPeriod && p.dynamicFee.decayPeriod == d.decayPeriod
         && p.dynamicFee.reductionFactor == d.reductionFactor
         && p.dynamicFee.maxVolatilityAccumulator == d.maxVolatilityAccumulator
         && p.dynamicFee.variableFeeControl == d.variableFeeControl
         && p.dynamicFee.lastUpdateTimestamp == 0 == p.dynamicFee.sqrtPriceReference
         && p.dynamicFee.volatilityAccumulator == 0 == p.dynamicFee.volatilityReference
  }

  /** A new pool is deposited the least amounts that cover its liquidity, and, if it is customizable, at
      least one unit of each token. The first position holds all of it, unlocked. */
  lemma CreationExact(c: PoolParameters) returns (amounts: Amounts)
    requires InitializePool(c).Done?
    ensures AmountsExact(NewPool(c), c.liquidity, Up, amounts) && (amounts.a > 0 || amounts.b > 0)
    ensures var r := InitializePool(c).value;
            && r.vaults == (if c.creation.Customizable? then Vaults(Max(1, amounts.a), Max(1, amounts.b))
                            else Vaults(amounts.a, amounts.b))
            && r.pool == NewPool(c) && AsAsked(c, r.pool) && c.liquidity > 0
            && r.position.unlockedLiquidity == c.liquidity == Liquidity(r.position)
            && (forall token: Token :: LaneOf(r.position, token) == PositionLane(0, 0, 0))
            && r.position.rewards == [UserReward(0, 0, 0), UserReward(0, 0, 0)]
            && MIN_SQRT_PRICE <= c.sqrtMinPrice <= c.sqrtPrice <= c.sqrtMaxPrice <= MAX_SQRT_PRICE
            && c.sqrtMinPrice < c.sqrtMaxPrice
            && ValidateBaseFee(c.baseFee, c.collectFeeMode, c.activationType).Ok?
            && (c.dynamicFee.Some? ==> DynamicFee.ValidParameters(r.pool.dynamicFee))
  {
    hide AmountsForLiquidity, ValidateBaseFee, AmountsExact;
    amounts := AmountsForLiquidity(NewPool(c), c.liquidity, Up).value;
    AmountsAreExact(NewPool(c), c.liquidity, Up);
  }

  // ----- Locks -----

  /** A permanent lock moves what was asked for, in the position and in the pool. */
  lemma PermanentLockExact(p: PoolData, q: PositionData, amount: U128)
    requires Instructions.PermanentLockPosition(p, q, amount).Ok?
    ensures var r := Instructions.PermanentLockPosition(p, q, amount).value;
            && r.pool == p.(permanentLockLiquidity := r.pool.permanentLockLiquidity)
            && r.pool.permanentLockLiquidity == p.permanentLockLiquidity + amount
            && r.position == q.(
                 unlockedLiquidity := r.position.unlockedLiquidity,
                 permanentLockedLiquidity := r.position.permanentLockedLiquidity)
            && r.position.unlockedLiquidity == q.unlockedLiquidity - amount
            && r.position.permanentLockedLiquidity == q.permanentLockedLiquidity + amount
  {
  }

  /** A lock moves the whole amount of its schedule out of the unlocked liquidity. */
  lemma LockExact(
      q: PositionData, owner: nat, parameters: VestingParameters, currentPoint: U64, maxDuration: U64)
    requires Instructions.LockPosition(q, owner, parameters, currentPoint, maxDuration).Ok?
    ensures var r := Instructions.LockPosition(q, owner, parameters, currentPoint, maxDuration).value;
            var total := parameters.cliffUnlockLiquidity
                         + parameters.liquidityPerPeriod * parameters.numberOfPeriod;
            && r.position.unlockedLiquidity == q.unlockedLiquidity - total
            && r.position.vestedLiquidity == q.vestedLiquidity + total
            && r.position == q.(
                 unlockedLiquidity := r.position.unlockedLiquidity,
                 vestedLiquidity := r.position.vestedLiquidity)
            && ValidateParameters(parameters, currentPoint, maxDuration).Ok?
            && r.vesting
               == Vestings.Initialize(owner, parameters, CliffPoint(parameters, currentPoint))
  {
  }

  // ----- Claims -----

  /** The protocol is paid what is unclaimed, up to the amounts it asks for, and that is what leaves the
      vaults and the books. */
  lemma ProtocolClaimExact(p: PoolData, v: Vaults, most: Amounts)
    requires Instructions.ClaimProtocolFee(p, v, most).Done?
    ensures var r := Instructions.ClaimProtocolFee(p, v, most).value;
            var a, b := v.a - r.vaults.a, v.b - r.vaults.b;
            && a == Min(p.a.protocolFee, most.a) && b == Min(p.b.protocolFee, most.b)
            && r.pool == p.(
                 a := p.a.(protocolFee := p.a.protocolFee - a), b := p.b.(protocolFee := p.b.protocolFee - b))
  {
  }

  /** The same for the partner. */
  lemma PartnerClaimExact(p: PoolData, v: Vaults, most: Amounts)
    requires Instructions.ClaimPartnerFee(p, v, most).Done?
    ensures var r := Instructions.ClaimPartnerFee(p, v, most).value;
            var a, b := v.a - r.vaults.a, v.b - r.vaults.b;
            && a == Min(p.a.partnerFee, most.a) && b == Min(p.b.partnerFee, most.b)
            && r.pool == p.(
                 a := p.a.(partnerFee := p.a.partnerFee - a), b := p.b.(partnerFee := p.b.partnerFee - b))
  {
  }

  /** A position is empty, and can be closed, exactly when it holds nothing and nothing is pending. */
  lemma ClosableIff(q: PositionData)
    ensures Instructions.ClosePosition(q).Ok?
            <==> && Liquidity(q) == 0 && q.a.pending == 0 && q.b.pending == 0
                 && q.rewards[0].pending == 0 && q.rewards[1].pending == 0
  {
  }

  /** Ineligible reward is paid to the unit: the floor of the rate times the seconds without liquidity,
      accrued up to now, which are then forgotten. */
  lemma IneligibleExact(p: PoolData, vault: U64, index: nat, now: U64)
    requires Instructions.WithdrawIneligibleReward(p, vault, index, now).Done?
    ensures index < NUM_REWARDS && p.rewards[index].initialized && p.rewards[index].rewardDurationEnd < now
    ensures UpdateRewards(p, now).Ok?
    ensures var r := Instructions.WithdrawIneligibleReward(p, vault, index, now).value;
            var stream := UpdateRewards(p, now).value.rewards[index];
            var paid := vault - r.vault;
            && paid * TWO_64 <= stream.cumulativeSecondsWithEmptyLiquidityReward * stream.rewardRate
               < (paid + 1) * TWO_64
            && r.pool.rewards[index] == stream.(cumulativeSecondsWithEmptyLiquidityReward := 0)
  {
    hide UpdateStreams;
  }

  /** Funding brings in exactly the amount funded. */
  lemma FundingExact(
      p: PoolData, vault: U64, index: nat, amount: U64, carryForward: bool, now: U64)
    requires Instructions.FundReward(p, vault, index, amount, carryForward, now).Done?
    ensures index < NUM_REWARDS && p.rewards[index].initialized && amount > 0
    ensures UpdateRewards(p, now).Ok?
    ensures var r := Instructions.FundReward(p, vault, index, amount, carryForward, now).value;
            && r.vault == vault + amount
            && Fund(UpdateRewards(p, now).value.rewards[index], now, amount, carryForward)
               == Ok(r.pool.rewards[index])
            && r.pool.rewards[1 - index] == UpdateRewards(p, now).value.rewards[1 - index]
  {
    hide UpdateStreams, Fund;
  }

  /** A reward is claimed only of a stream that has been initialized, and a stream pays only itself. */
  lemma ClaimNeedsStream(
      p: PoolData, q: PositionData, vault: U64, index: nat, frozen: bool, skip: bool, now: U64)
    requires Instructions.ClaimReward(p, q, vault, index, frozen, skip, now).Done?
    ensures index < NUM_REWARDS && p.rewards[index].initialized && Accrue(p, q, now).Ok?
    ensures var r, accrued := Instructions.ClaimReward(p, q, vault, index, frozen, skip, now).value,
                              Accrue(p, q, now).value;
            && r.pool == accrued.pool
            && r.position == accrued.position.(rewards := r.position.rewards)
            && r.position.rewards[1 - index] == accrued.position.rewards[1 - index]
  {
    hide Accrue;
  }

  predicate DurationAllowed(duration: U64) {
    MIN_REWARD_DURATION <= duration <= MAX_REWARD_DURATION
  }

  /** A stream is initialized once, for an allowed duration, and promises nothing yet. */
  lemma StreamInitializedOnce(p: PoolData, index: nat, duration: U64)
    ensures var r := Instructions.InitializeReward(p, index, duration);
            && (r.Ok? <==> index < NUM_REWARDS && DurationAllowed(duration) && !p.rewards[index].initialized)
            && (r.Ok? ==>
                  r.value == p.(rewards := p.rewards[
                                  index := p.rewards[index].(initialized := true, rewardDuration := duration)]))
  {
  }

  /** The duration of a stream can be changed only between campaigns, and to another one. */
  lemma DurationChangedBetweenCampaigns(p: PoolData, index: nat, duration: U64, now: U64)
    ensures var r := Instructions.UpdateRewardDuration(p, index, duration, now);
            && (r.Ok? <==>
                  && index < NUM_REWARDS && p.rewards[index].initialized && DurationAllowed(duration)
                  && p.rewards[index].rewardDuration != duration && p.rewards[index].rewardDurationEnd < now)
            && (r.Ok? ==>
                  r.value == p.(rewards := p.rewards[
                                  index := p.rewards[index].(rewardDuration := duration)]))
  {
  }

  // ----- Splitting -----

  /** `share` is the numerator's part of `amount`, rounded down; nothing for a numerator of zero, all for
      one equal to the denominator. */
  ghost predicate IsShare(share: int, numerator: nat, amount: int) {
    share * SPLIT_POSITION_DENOMINATOR <= amount * numerator < (share + 1) * SPLIT_POSITION_DENOMINATOR
  }

  /** What one position gives and the other gets. */
  ghost predicate Shared(first: int, second: int, first': int, second': int, numerator: nat) {
    IsShare(second' - second, numerator, first) && first - first' == second' - second
  }

  lemma LiquidityShared(pair: Pair, unlocked: U32, permanent: U32)
    ensures SplitUnlocked(pair, unlocked).Ok? ==>
              var r := SplitUnlocked(pair, unlocked).value;
              && Shared(
                   pair.first.unlockedLiquidity, pair.second.unlockedLiquidity,
                   r.first.unlockedLiquidity, r.second.unlockedLiquidity, unlocked)
              && r.first == pair.first.(unlockedLiquidity := r.first.unlockedLiquidity)
              && r.second == pair.second.(unlockedLiquidity := r.second.unlockedLiquidity)
    ensures SplitPermanent(pair, permanent).Ok? ==>
              var r := SplitPermanent(pair, permanent).value;
              && Shared(
                   pair.first.permanentLockedLiquidity, pair.second.permanentLockedLiquidity,
                   r.first.permanentLockedLiquidity, r.second.permanentLockedLiquidity, permanent)
              && r.first == pair.first.(permanentLockedLiquidity := r.first.permanentLockedLiquidity)
              && r.second == pair.second.(permanentLockedLiquidity := r.second.permanentLockedLiquidity)
  {
  }

  lemma FeesShared(pair: Pair, a: U32, b: U32)
    requires SplitPending(pair, a, b).Ok?
    ensures var r := SplitPending(pair, a, b).value;
            && Shared(pair.first.a.pending, pair.second.a.pending, r.first.a.pending, r.second.a.pending, a)
            && Shared(pair.first.b.pending, pair.second.b.pending, r.first.b.pending, r.second.b.pending, b)
            && r.first == pair.first.(a := r.first.a, b := r.first.b)
            && r.second == pair.second.(a := r.second.a, b := r.second.b)
  {
  }

  lemma RewardShared(pair: Pair, index: nat, stream: RewardData, numerator: U32)
    requires index < NUM_REWARDS && SplitReward(pair, index, stream, numerator).Ok?
    ensures var r := SplitReward(pair, index, stream, numerator).value;
            && (stream.initialized ==>
                  Shared(
                    pair.first.rewards[index].pending, pair.second.rewards[index].pending,
                    r.first.rewards[index].pending, r.second.rewards[index].pending, numerator))
            && r.first == pair.first.(rewards := r.first.rewards)
            && r.second == pair.second.(rewards := r.second.rewards)
            && r.first.rewards[1 - index] == pair.first.rewards[1 - index]
            && r.second.rewards[1 - index] == pair.second.rewards[1 - index]
  {
  }

  /** A split moves of everything the share that its own numerator names: of the liquidity, and of the
      fees and rewards that were pending once both positions were brought up to date. */
  lemma SplitMovesShares(p: PoolData, pair: Pair, n: SplitNumerators) returns (current: Pair)
    requires ApplySplit(p, pair, n).Ok?
    ensures UpdateFee(pair.first, p.a.perLiquidity, p.b.perLiquidity) == Ok(current.first)
    ensures UpdateFee(pair.second, p.a.perLiquidity, p.b.perLiquidity) == Ok(current.second)
    ensures var first, second := current.first, current.second;
            var r := ApplySplit(p, pair, n).value;
            && Shared(
                 first.unlockedLiquidity, second.unlockedLiquidity, r.first.unlockedLiquidity,
                 r.second.unlockedLiquidity, n.unlocked)
            && Shared(
                 first.permanentLockedLiquidity, second.permanentLockedLiquidity,
                 r.first.permanentLockedLiquidity, r.second.permanentLockedLiquidity, n.permanent)
            && Shared(first.a.pending, second.a.pending, r.first.a.pending, r.second.a.pending, n.feeA)
            && Shared(first.b.pending, second.b.pending, r.first.b.pending, r.second.b.pending, n.feeB)
            && (p.rewards[0].initialized ==>
                  Shared(
                    first.rewards[0].pending, second.rewards[0].pending, r.first.rewards[0].pending,
                    r.second.rewards[0].pending, n.reward0))
            && (p.rewards[1].initialized ==>
                  Shared(
                    first.rewards[1].pending, second.rewards[1].pending, r.first.rewards[1].pending,
                    r.second.rewards[1].pending, n.reward1))
  {
    hide UpdateFee, SplitUnlocked, SplitPermanent, SplitPending, SplitReward, Shared;
    current := Pair(
      UpdateFee(pair.first, p.a.perLiquidity, p.b.perLiquidity).value,
      UpdateFee(pair.second, p.a.perLiquidity, p.b.perLiquidity).value);
    LiquidityShared(current, n.unlocked, n.permanent);
    var pair1 := SplitUnlocked(current, n.unlocked).value;
    LiquidityShared(pair1, n.unlocked, n.permanent);
    var pair2 := SplitPermanent(pair1, n.permanent).value;
    FeesShared(pair2, n.feeA, n.feeB);
    var pair3 := SplitPending(pair2, n.feeA, n.feeB).value;
    RewardShared(pair3, 0, p.rewards[0], n.reward0);
    var pair4 := SplitReward(pair3, 0, p.rewards[0], n.reward0).value;
    RewardShared(pair4, 1, p.rewards[1], n.reward1);
  }

  /** A split is refused for a position with vested liquidity, for a numerator above the denominator, and
      if nothing is asked for. */
  lemma SplitAllowed(p: PoolData, pair: Pair, n: SplitNumerators, now: U64)
    requires Instructions.SplitPosition(p, pair, n, now).Ok?
    ensures pair.first.vestedLiquidity == 0
    ensures var asked := [n.unlocked, n.permanent, n.feeA, n.feeB, n.reward0, n.reward1];
            && (forall k :: 0 <= k < |asked| ==> asked[k] <= SPLIT_POSITION_DENOMINATOR)
            && exists k :: 0 <= k < |asked| && asked[k] > 0
    ensures UpdateRewards(p, now).Ok?
    ensures var p' := UpdateRewards(p, now).value;
            && UpdatePositionReward(pair.first, p'.rewards).Ok?
            && UpdatePositionReward(pair.second, p'.rewards).Ok?
            && ApplySplit(
                 p', Pair(UpdatePositionReward(pair.first, p'.rewards).value,
                          UpdatePositionReward(pair.second, p'.rewards).value), n)
               == Ok(Instructions.SplitPosition(p, pair, n, now).value.pair)
            && Instructions.SplitPosition(p, pair, n, now).value.pool == p'
  {
    hide UpdateStreams, UserRewardFor, ApplySplit, TotalLiquidity;
    var asked := [n.unlocked, n.permanent, n.feeA, n.feeB, n.reward0, n.reward1];
    assert asked[0] > 0 || asked[1] > 0 || asked[2] > 0 || asked[3] > 0 || asked[4] > 0 || asked[5] > 0;
  }
}

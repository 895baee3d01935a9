/** Every instruction as a function of the accounts it touches. A result of `Err` aborts the
    transaction and leaves every account as it was. Mints take no transfer fee. */
module Instructions {
  import opened Checked
  import opened UtilsMath
  import opened Curve
  import opened Fees
  import opened DynamicFee
  import opened PoolState
  import opened SwapQuotes
  import opened Rewards
  import opened Positions
  import opened Pools
  import opened Vestings
  import RateLimiter

  // ----- Token accounts -----

  function Deposit(balance: U64, amount: U64): Outcome<U64> {
    Computed(Fit64(balance + amount))
  }

  function Withdraw(balance: U64, amount: U64): Outcome<U64> {
    if amount <= balance then Done(balance - amount) else Unfunded
  }

  datatype Vaults = Vaults(a: U64, b: U64)

  function BalanceOf(v: Vaults, token: Token): U64 {
    if token.A? then v.a else v.b
  }

  function WithBalance(v: Vaults, token: Token, balance: U64): Vaults {
    if token.A? then v.(a := balance) else v.(b := balance)
  }

  function DepositTo(v: Vaults, token: Token, amount: U64): Outcome<Vaults> {
    var balance: U64 :- Deposit(BalanceOf(v, token), amount);
    Done(WithBalance(v, token, balance))
  }

  function WithdrawFrom(v: Vaults, token: Token, amount: U64): Outcome<Vaults> {
    var balance: U64 :- Withdraw(BalanceOf(v, token), amount);
    Done(WithBalance(v, token, balance))
  }

  function DepositBoth(v: Vaults, amounts: Amounts): Outcome<Vaults> {
    var v1 :- DepositTo(v, Token.A, amounts.a);
    DepositTo(v1, Token.B, amounts.b)
  }

  function WithdrawBoth(v: Vaults, amounts: Amounts): Outcome<Vaults> {
    var v1 :- WithdrawFrom(v, Token.A, amounts.a);
    WithdrawFrom(v1, Token.B, amounts.b)
  }

  // ----- Creating a pool -----

  datatype DynamicFeeParameters = DynamicFeeParameters(
    binStep: U16,
    binStepU128: U128,
    filterPeriod: U16,
    decayPeriod: U16,
    reductionFactor: U16,
    maxVolatilityAccumulator: U32,
    variableFeeControl: U32)

  /** `to_dynamic_fee_struct`; without parameters the struct stays zero. */
  function NewDynamicFee(parameters: Option<DynamicFeeParameters>): DynamicFeeData {
    match parameters
    case None => DynamicFeeData(false, 0, 0, 0, 0, 0, 0, 0, 0, 0, 0, 0)
    case Some(d) =>
      DynamicFeeData(
        true, d.maxVolatilityAccumulator, d.variableFeeControl, d.binStep, d.filterPeriod,
        d.decayPeriod, d.reductionFactor, 0, d.binStepU128, 0, 0, 0)
  }

  /** The three instructions that create pools. */
  datatype Creation = Customizable | FromStaticConfig | FromDynamicConfig

  datatype PoolParameters = PoolParameters(
    creation: Creation,
    baseFee: BaseFee,
    shares: FeeShares,
    dynamicFee: Option<DynamicFeeParameters>,
    hasPartner: bool,
    collectFeeMode: CollectFeeMode,
    activationType: RateLimiter.ActivationType,
    activationPoint: U64,
    sqrtMinPrice: U128,
    sqrtMaxPrice: U128,
    sqrtPrice: U128,
    liquidity: U128)

  function ValidateBaseFee(
      baseFee: BaseFee, collect: CollectFeeMode, activation: RateLimiter.ActivationType): Result<Unit>
  {
    match baseFee
    case Schedule(scheduler) => FeeScheduler.Validate(scheduler)
    case Limit(limiter) => RateLimiter.Validate(limiter, collect, activation)
  }

  /** `PoolFeeParameters::validate` */
  function ValidateFees(c: PoolParameters): Result<Unit> {
    var _ :- ValidateBaseFee(c.baseFee, c.collectFeeMode, c.activationType);
    Require(c.dynamicFee.Some? ==> ValidParameters(NewDynamicFee(c.dynamicFee)), InvalidInput)
  }

  /** `InitializeCustomizablePoolParameters::validate` */
  function ValidateCustomizable(c: PoolParameters): Result<Unit> {
    var _ :- Require(c.sqrtMinPrice >= MIN_SQRT_PRICE && c.sqrtMaxPrice <= MAX_SQRT_PRICE, InvalidPriceRange);
    var _ :- Require(c.sqrtMinPrice <= c.sqrtPrice <= c.sqrtMaxPrice, InvalidPriceRange);
    var _ :- Require(c.sqrtMinPrice < c.sqrtMaxPrice, InvalidPriceRange);
    var _ :- Require(c.liquidity > 0, InvalidMinimumLiquidity);
    ValidateFees(c)
  }

  /** What `handle_create_static_config` has checked of the range and the fees of a pool made from the
      config, and then the checks of `handle_initialize_pool` itself. */
  function ValidateStatic(c: PoolParameters): Result<Unit> {
    var _ :- Require(c.sqrtMinPrice >= MIN_SQRT_PRICE && c.sqrtMaxPrice <= MAX_SQRT_PRICE, InvalidPriceRange);
    var _ :- Require(c.sqrtMinPrice < c.sqrtMaxPrice, InvalidPriceRange);
    var _ :- ValidateFees(c);
    var _ :- Require(c.liquidity > 0, InvalidMinimumLiquidity);
    Require(c.sqrtMinPrice <= c.sqrtPrice <= c.sqrtMaxPrice, InvalidPriceRange)
  }

  function ValidatePool(c: PoolParameters): Result<Unit> {
    if c.creation.FromStaticConfig? then ValidateStatic(c) else ValidateCustomizable(c)
  }

  /** `Pool::initialize` on a fresh account. */
  function NewPool(c: PoolParameters): PoolData {
    PoolData(
      c.baseFee, c.shares, NewDynamicFee(c.dynamicFee), c.hasPartner, c.collectFeeMode,
      c.activationPoint, CURRENT_POOL_VERSION, c.liquidity, c.sqrtMinPrice, c.sqrtMaxPrice,
      c.sqrtPrice, FeeLane(0, 0, 0, 0, 0, 0), FeeLane(0, 0, 0, 0, 0, 0), 0, [NO_REWARD, NO_REWARD])
  }

  datatype NewAccounts = NewAccounts(pool: PoolData, position: PositionData, amounts: Amounts)

  /** Only a customizable pool takes at least one lamport of each token, as proof that they exist. */
  function FirstDeposit(creation: Creation, amounts: Amounts): Amounts {
    if creation.Customizable? then Amounts(Max(amounts.a, 1), Max(amounts.b, 1)) else amounts
  }

  function PoolInitialized(c: PoolParameters): Result<NewAccounts> {
    var _ :- ValidatePool(c);
    var amounts :- AmountsForLiquidity(NewPool(c), c.liquidity, Up);
    var _ :- Require(amounts.a > 0 || amounts.b > 0, AmountIsZero);
    Ok(NewAccounts(NewPool(c), NewPosition(c.liquidity), FirstDeposit(c.creation, amounts)))
  }

  datatype LiquidityChange = LiquidityChange(pool: PoolData, position: PositionData, vaults: Vaults)

  /** `handle_initialize_pool`, `handle_initialize_pool_with_dynamic_config` and
      `handle_initialize_customizable_pool`: a pool, its first position, and the deposit behind it. */
  function InitializePool(c: PoolParameters): Outcome<LiquidityChange> {
    var r :- Computed(PoolInitialized(c));
    var v :- DepositBoth(Vaults(0, 0), r.amounts);
    Done(LiquidityChange(r.pool, r.position, v))
  }

  // ----- Liquidity -----

  datatype Modified = Modified(pool: PoolData, position: PositionData, amounts: Amounts)

  function AddedLiquidity(
      p: PoolData, q: PositionData, now: U64, delta: U128, thresholds: Amounts): Result<Modified>
  {
    var _ :- Require(delta > 0, InvalidParameters);
    var accrued :- Accrue(p, q, now);
    var amounts :- AmountsForLiquidity(accrued.pool, delta, Up);
    var _ :- Require(amounts.a > 0 || amounts.b > 0, AmountIsZero);
    var added :- ApplyAdd(accrued.pool, accrued.position, delta);
    var _ :- Require(amounts.a <= thresholds.a, ExceededSlippage);
    var _ :- Require(amounts.b <= thresholds.b, ExceededSlippage);
    Ok(Modified(added.pool, added.position, amounts))
  }

  /** `handle_add_liquidity` */
  function AddLiquidity(
      p: PoolData, q: PositionData, v: Vaults, now: U64, delta: U128, thresholds: Amounts)
    : Outcome<LiquidityChange>
  {
    var r :- Computed(AddedLiquidity(p, q, now, delta, thresholds));
    var v1 :- DepositBoth(v, r.amounts);
    var _ :- Computed(Reserves(r.pool));
    Done(LiquidityChange(r.pool, r.position, v1))
  }

  /** Without an amount all unlocked liquidity is removed. */
  function RemovedLiquidity(
      p: PoolData, q: PositionData, now: U64, requested: Option<U128>, thresholds: Amounts)
    : Result<Modified>
  {
    var delta := if requested.Some? then requested.value else q.unlockedLiquidity;
    var _ :- Require(delta <= q.unlockedLiquidity && delta > 0, InsufficientLiquidity);
    var accrued :- Accrue(p, q, now);
    var amounts :- AmountsForLiquidity(accrued.pool, delta, Down);
    var _ :- Require(amounts.a > 0 || amounts.b > 0, AmountIsZero);
    var _ :- Require(amounts.a >= thresholds.a, ExceededSlippage);
    var _ :- Require(amounts.b >= thresholds.b, ExceededSlippage);
    var removed :- ApplyRemove(accrued.pool, accrued.position, delta);
    Ok(Modified(removed.pool, removed.position, amounts))
  }

  /** `handle_remove_liquidity` */
  function RemoveLiquidity(
      p: PoolData, q: PositionData, v: Vaults, now: U64, requested: Option<U128>, thresholds: Amounts)
    : Outcome<LiquidityChange>
  {
    var r :- Computed(RemovedLiquidity(p, q, now, requested, thresholds));
    var v1 :- WithdrawBoth(v, r.amounts);
    var _ :- Computed(Reserves(r.pool));
    Done(LiquidityChange(r.pool, r.position, v1))
  }

  // ----- Swap -----

  datatype SwapParameters = SwapParameters(
    mode: SwapMode, amount0: U64, amount1: U64, direction: TradeDirection, hasReferral: bool)

  /** The checks of the three `process_swap_*` functions. */
  function CheckSlippage(mode: SwapMode, amount1: U64, r: SwapResult): Result<Unit> {
    match mode
    case ExactIn => Require(r.outputAmount >= amount1, ExceededSlippage)
    case PartialFill =>
      var _ :- Require(r.includedFeeInputAmount > 0, AmountIsZero);
      Require(r.outputAmount >= amount1, ExceededSlippage)
    case ExactOut => Require(r.includedFeeInputAmount <= amount1, ExceededSlippage)
  }

  function FeeModeOf(p: PoolData, s: SwapParameters): FeeMode {
    GetFeeMode(p.collectFeeMode, s.direction, s.hasReferral)
  }

  /** The quote of a swap on a pool whose volatility references are up to date. */
  function QuoteOf(p: PoolData, s: SwapParameters, currentPoint: U64): Result<SwapResult> {
    var cap: U64 :- MaxFeeNumerator(p.version);
    Quote(
      p, TradingFeeOf(p, currentPoint, s.direction, cap), s.mode, s.amount0, FeeModeOf(p, s),
      s.direction)
  }

  datatype Swapped = Swapped(pool: PoolData, result: SwapResult)

  function SwapApplied(p: PoolData, s: SwapParameters, now: U64, currentPoint: U64): Result<Swapped> {
    var _ :- Require(s.amount0 > 0, AmountIsZero);
    var dynamicFee :- PreSwap(p.dynamicFee, p.sqrtPrice, now);
    var p1 := p.(dynamicFee := dynamicFee);
    var r :- QuoteOf(p1, s, currentPoint);
    var _ :- CheckSlippage(s.mode, s.amount1, r);
    var p2 :- ApplySwap(p1, r, FeeModeOf(p, s), now);
    Ok(Swapped(p2, r))
  }

  function TokenIn(direction: TradeDirection): Token {
    if direction.AtoB? then Token.A else Token.B
  }

  function TokenOut(direction: TradeDirection): Token {
    if direction.AtoB? then Token.B else Token.A
  }

  function FeeToken(m: FeeMode): Token {
    if m.feesOnTokenA then Token.A else Token.B
  }

  /** The transfers of a swap, in order: input, output, referral fee. */
  function SwapTransfers(v: Vaults, s: SwapParameters, m: FeeMode, r: SwapResult): Outcome<Vaults> {
    var v1 :- DepositTo(v, TokenIn(s.direction), r.includedFeeInputAmount);
    var v2 :- WithdrawFrom(v1, TokenOut(s.direction), r.outputAmount);
    if s.hasReferral then WithdrawFrom(v2, FeeToken(m), r.fees.referral) else Done(v2)
  }

  datatype SwapChange = SwapChange(pool: PoolData, vaults: Vaults)

  /** `handle_swap_wrapper` */
  function Swap(p: PoolData, v: Vaults, s: SwapParameters, now: U64, currentPoint: U64): Outcome<SwapChange> {
    var r :- Computed(SwapApplied(p, s, now, currentPoint));
    var v1 :- SwapTransfers(v, s, FeeModeOf(p, s), r.result);
    var _ :- Computed(Reserves(r.pool));
    Done(SwapChange(r.pool, v1))
  }

  // ----- Claiming fees -----

  datatype FeesTaken = FeesTaken(position: PositionData, paid: Amounts)

  datatype FeeClaim = FeeClaim(position: PositionData, vaults: Vaults, paid: Amounts)

  function FeesOf(p: PoolData, q: PositionData): Result<FeesTaken> {
    var q1 :- UpdateFee(q, p.a.perLiquidity, p.b.perLiquidity);
    var q2 :- TakeFees(q1);
    Ok(FeesTaken(q2, Amounts(q1.a.pending, q1.b.pending)))
  }

  /** `handle_claim_position_fee` */
  function ClaimPositionFee(p: PoolData, q: PositionData, v: Vaults): Outcome<FeeClaim> {
    var taken :- Computed(FeesOf(p, q));
    var v1 :- WithdrawBoth(v, taken.paid);
    Done(FeeClaim(taken.position, v1, taken.paid))
  }

  datatype PoolVaults = PoolVaults(pool: PoolData, vaults: Vaults)

  /** `handle_claim_protocol_fee` */
  function ClaimProtocolFee(p: PoolData, v: Vaults, most: Amounts): Outcome<PoolVaults> {
    var paid := Amounts(Min(p.a.protocolFee, most.a), Min(p.b.protocolFee, most.b));
    var v1 :- WithdrawBoth(v, paid);
    Done(PoolVaults(p.(a := TakeProtocolFee(p.a, most.a), b := TakeProtocolFee(p.b, most.b)), v1))
  }

  /** `handle_claim_partner_fee` */
  function ClaimPartnerFee(p: PoolData, v: Vaults, most: Amounts): Outcome<PoolVaults> {
    var paid := Amounts(Min(p.a.partnerFee, most.a), Min(p.b.partnerFee, most.b));
    var v1 :- WithdrawBoth(v, paid);
    Done(PoolVaults(p.(a := TakePartnerFee(p.a, most.a), b := TakePartnerFee(p.b, most.b)), v1))
  }

  // ----- Locks -----

  datatype LockChange = LockChange(position: PositionData, vesting: VestingData)

  /** `handle_lock_position` */
  function LockPosition(
      q: PositionData, owner: nat, parameters: VestingParameters, currentPoint: U64,
      maxDuration: U64)
    : Result<LockChange>
  {
    var _ :- ValidateParameters(parameters, currentPoint, maxDuration);
    var total: U128 :- ParametersTotal(parameters);
    var q1 :- Lock(q, total);
    Ok(LockChange(
      q1, Vestings.Initialize(owner, parameters, CliffPoint(parameters, currentPoint))))
  }

  /** `handle_permanent_lock_position` */
  function PermanentLockPosition(p: PoolData, q: PositionData, amount: U128): Result<PoolPosition> {
    var q1 :- PermanentLock(q, amount);
    var locked: U128 :- Fit128(p.permanentLockLiquidity + amount);
    Ok(PoolPosition(p.(permanentLockLiquidity := locked), q1))
  }

  datatype Refreshed = Refreshed(position: PositionData, vestings: seq<Option<VestingData>>)

  /** The vesting after one round of the loop of `handle_refresh_vesting`: closed once done. */
  function RefreshOne(
      q: PositionData, owner: nat, v: VestingData, currentPoint: U64)
    : Result<(PositionData, Option<VestingData>)>
  {
    var _ :- Require(v.position == owner, InvalidVestingAccount);
    var released :- Vestings.Release(v, currentPoint);
    var q1 :- if released.0 > 0 then ReleaseVested(q, released.0) else Ok(q);
    var done :- Vestings.Done(released.1);
    Ok((q1, if done then None else Some(released.1)))
  }

  /** `handle_refresh_vesting` over the vesting accounts passed in, named by their slots. */
  function RefreshVesting(
      q: PositionData, owner: nat, vestings: seq<Option<VestingData>>,
      slots: seq<nat>, currentPoint: U64)
    : Result<Refreshed>
    decreases |slots|
  {
    if slots == [] then
      Ok(Refreshed(q, vestings))
    else
      var slot := slots[0];
      if slot >= |vestings| || vestings[slot].None? then
        Err(AccountNotFound)
      else
        var r :- RefreshOne(q, owner, vestings[slot].value, currentPoint);
        RefreshVesting(r.0, owner, vestings[slot := r.1], slots[1..], currentPoint)
  }

  // ----- Splitting and closing -----

  datatype SplitChange = SplitChange(pool: PoolData, pair: Pair)

  /** `handle_split_position2` */
  function SplitPosition(p: PoolData, pair: Pair, n: SplitNumerators, now: U64): Result<SplitChange> {
    var _ :- ValidateSplit(n);
    var _ :- Require(pair.first.vestedLiquidity == 0, UnsupportPositionHasVestingLock);
    var p1 :- UpdateRewards(p, now);
    var first :- UpdatePositionReward(pair.first, p1.rewards);
    var second :- UpdatePositionReward(pair.second, p1.rewards);
    var pair1 :- ApplySplit(p1, Pair(first, second), n);
    var _ :- TotalLiquidity(pair1.first);
    var _ :- TotalLiquidity(pair1.second);
    Ok(SplitChange(p1, pair1))
  }

  /** `handle_close_position` */
  function ClosePosition(q: PositionData): Result<Unit> {
    var empty :- IsEmpty(q);
    Require(empty, PositionIsNotEmpty)
  }

  // ----- Rewards -----

  const MIN_REWARD_DURATION: int := 86_400
  const MAX_REWARD_DURATION: int := 31_536_000

  /** `handle_initialize_reward` */
  function InitializeReward(p: PoolData, index: nat, duration: U64): Result<PoolData> {
    var _ :- Require(index < NUM_REWARDS, InvalidRewardIndex);
    var _ :- Require(MIN_REWARD_DURATION <= duration <= MAX_REWARD_DURATION, InvalidRewardDuration);
    var _ :- Require(!StreamAt(p, index).initialized, RewardInitialized);
    Ok(WithStream(p, index, StreamAt(p, index).(initialized := true, rewardDuration := duration)))
  }

  function StreamAt(p: PoolData, index: nat): RewardData {
    if index == 0 then p.rewards[0] else p.rewards[1]
  }

  function WithStream(p: PoolData, index: nat, r: RewardData): PoolData {
    p.(rewards := if index == 0 then [r, p.rewards[1]] else [p.rewards[0], r])
  }

  datatype RewardChange = RewardChange(pool: PoolData, vault: U64)

  function RewardFunded(p: PoolData, index: nat, amount: U64, carryForward: bool, now: U64): Result<PoolData> {
    var _ :- Require(index < NUM_REWARDS, InvalidRewardIndex);
    var _ :- Require(StreamAt(p, index).initialized, RewardUninitialized);
    var _ :- Require(amount > 0, AmountIsZero);
    var p1 :- UpdateRewards(p, now);
    var r :- Fund(StreamAt(p1, index), now, amount, carryForward);
    Ok(WithStream(p1, index, r))
  }

  /** `handle_fund_reward` */
  function FundReward(
      p: PoolData, vault: U64, index: nat, amount: U64, carryForward: bool, now: U64)
    : Outcome<RewardChange>
  {
    var p1 :- Computed(RewardFunded(p, index, amount, carryForward, now));
    var vault1: U64 :- Deposit(vault, amount);
    Done(RewardChange(p1, vault1))
  }

  function PendingReward(q: PositionData, index: nat): U64 {
    if index == 0 then q.rewards[0].pending else q.rewards[1].pending
  }

  function TakeRewardAt(q: PositionData, index: nat): PositionData {
    q.(rewards := if index == 0 then [TakeReward(q.rewards[0]), q.rewards[1]]
                  else [q.rewards[0], TakeReward(q.rewards[1])])
  }

  datatype RewardTaken = RewardTaken(pool: PoolData, position: PositionData, paid: U64)

  /** Out of a frozen vault nothing is paid, and the claim is forfeited if the caller asks to skip it. */
  function RewardOf(
      p: PoolData, q: PositionData, index: nat, frozen: bool, skip: bool, now: U64): Result<RewardTaken>
  {
    var _ :- Require(index < NUM_REWARDS, InvalidRewardIndex);
    var _ :- Require(StreamAt(p, index).initialized, RewardUninitialized);
    var accrued :- Accrue(p, q, now);
    var reward := PendingReward(accrued.position, index);
    var _ :- Require(reward > 0 && frozen ==> skip, RewardVaultFrozenSkipRequired);
    Ok(RewardTaken(accrued.pool, TakeRewardAt(accrued.position, index), if frozen then 0 else reward))
  }

  datatype RewardClaim = RewardClaim(pool: PoolData, position: PositionData, vault: U64)

  /** `handle_claim_reward` */
  function ClaimReward(
      p: PoolData, q: PositionData, vault: U64, index: nat, frozen: bool, skip: bool, now: U64)
    : Outcome<RewardClaim>
  {
    var taken :- Computed(RewardOf(p, q, index, frozen, skip, now));
    var vault1: U64 :- Withdraw(vault, taken.paid);
    Done(RewardClaim(taken.pool, taken.position, vault1))
  }

  datatype IneligibleTaken = IneligibleTaken(pool: PoolData, paid: U64)

  /** `claim_ineligible_reward` after the accrual. */
  function IneligibleOf(p: PoolData, index: nat, now: U64): Result<IneligibleTaken> {
    var _ :- Require(index < NUM_REWARDS, InvalidRewardIndex);
    var _ :- Require(StreamAt(p, index).initialized, RewardUninitialized);
    var _ :- Require(now > StreamAt(p, index).rewardDurationEnd, RewardNotEnded);
    var p1 :- UpdateRewards(p, now);
    var paid: U64 :- Ineligible(StreamAt(p1, index));
    Ok(IneligibleTaken(
      WithStream(p1, index, StreamAt(p1, index).(cumulativeSecondsWithEmptyLiquidityReward := 0)),
      paid))
  }

  /** `handle_withdraw_ineligible_reward` */
  function WithdrawIneligibleReward(p: PoolData, vault: U64, index: nat, now: U64): Outcome<RewardChange> {
    var taken :- Computed(IneligibleOf(p, index, now));
    var vault1: U64 :- Withdraw(vault, taken.paid);
    Done(RewardChange(taken.pool, vault1))
  }

  /** `handle_update_reward_duration` */
  function UpdateRewardDuration(p: PoolData, index: nat, duration: U64, now: U64): Result<PoolData> {
    var _ :- Require(index < NUM_REWARDS, InvalidRewardIndex);
    var _ :- Require(MIN_REWARD_DURATION <= duration <= MAX_REWARD_DURATION, InvalidRewardDuration);
    var r := StreamAt(p, index);
    var _ :- Require(r.initialized, RewardInitialized);
    var _ :- Require(r.rewardDuration != duration, IdenticalRewardDuration);
    var _ :- Require(r.rewardDurationEnd < now, RewardCampaignInProgress);
    Ok(WithStream(p, index, r.(rewardDuration := duration)))
  }
}

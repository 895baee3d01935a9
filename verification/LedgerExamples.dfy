/** Two runs of the ledger that show what the program does not promise: a partial fill that charges more
    than it was offered, and a reward stream that can never be updated again. */
module LedgerExamples {
  import opened Checked
  import opened Division
  import opened UtilsMath
  import opened Curve
  import opened Fees
  import opened RateLimiter
  import opened TieredFee
  import opened RateLimiterProofs
  import opened PoolState
  import opened SwapQuotes
  import opened Rewards
  import opened Pools
  import opened Instructions
  import opened Ledger
  import opened Runs
  import opened Liveness
  import FeeScheduler

  // ----- A rate limiter with steep tiers -----

  const STEEP := Limiter(10_000_000, 473, 43_200, 4_031, 10)

  lemma SteepNumbers()
    ensures ToNumerator(473) == Ok(47_300_000) && ToNumerator(4_031) == Ok(403_100_000)
    ensures MaxIndex(STEEP) == Ok(8)
    ensures TiersOf(STEEP) == Tiers(10_000_000, 47_300_000, 403_100_000, 10) && Sound(TiersOf(STEEP))
  {
  }

  /** An amount in the second tier: the tiered fee, rounded to a unit and to a numerator. */
  lemma SteepSecondTier(input: U64)
    requires 10 < input < 20
    ensures NumeratorFromIncluded(STEEP, input) == NumeratorFromFee(57_300_000 * input - 473_000_000, input)
  {
    hide ToNumerator, MaxIndex, NumeratorFromFee;
    SteepNumbers();
    assert FloorDiv(input - 10, 10) == 0;
    assert RatesOfTiers(10_000_000, 47_300_000, 0) == 10_000_000;
  }

  /** An offer of 16 leaves 15. */
  lemma SteepOffer()
    ensures NumeratorFromIncluded(STEEP, 16) == Ok(62_500_000)
    ensures ExcludedFee(62_500_000, 16) == Ok(FeeAmount(15, 1))
  {
    hide NumeratorFromIncluded;
    SteepSecondTier(16);
  }

  /** What it leaves of the amounts the inverse looks at. */
  lemma SteepLeft()
    ensures ExcludedAmount(STEEP, 10) == Ok(9) && ExcludedAmount(STEEP, 14) == Ok(12)
  {
    hide NumeratorFromIncluded;
    SteepFirstTier(10);
    SteepSecondTier(14);
  }

  lemma SteepFirstTier(input: U64)
    requires input <= 10
    ensures NumeratorFromIncluded(STEEP, input) == Ok(10_000_000)
  {
  }

  lemma SteepEdge()
    ensures GetCheckedAmounts(STEEP) == Ok(CheckedAmounts(72, 90, false))
  {
    hide NumeratorFromIncluded, MaxIndex;
    SteepNumbers();
    SteepLastTier();
  }

  lemma SteepLastTier()
    ensures NumeratorFromIncluded(STEEP, 90) == Ok(200_000_000)
  {
    hide ToNumerator, MaxIndex;
    SteepNumbers();
    assert FloorDiv(80, 10) == 8;
    assert RatesOfTiers(10_000_000, 47_300_000, 8) == 1_792_800_000;
  }

  lemma SteepRoot()
    ensures SmallerRoot(Quadratic(47_300_000, 20_273_000_000, 280_000_000_000)) == Ok(14)
  {
    hide FloorSqrt;
    var q := Quadratic(47_300_000, 20_273_000_000, 280_000_000_000);
    assert q.Discriminant() == 358_018_529_000_000_000_000;
    FloorSqrtUnique(358_018_529_000_000_000_000, 18_921_377_566);
  }

  lemma SteepTotal()
    ensures QuadraticTotal(STEEP, 14) == Ok(17)
  {
    hide ToNumerator, SmallerRoot, ExcludedAmount;
    SteepNumbers();
    SteepRoot();
    SteepLeft();
    assert QuadraticFor(STEEP, 47_300_000, 14) == Quadratic(47_300_000, 20_273_000_000, 280_000_000_000);
    assert FloorDiv(14, 10) == 1;
    assert IncludedFee(57_300_000, 2) == Ok(FeeAmount(3, 1));
  }

  /** But on 14, the part the curve takes, it charges 18. */
  lemma SteepPart()
    ensures NumeratorFromExcluded(STEEP, 14) == Ok(176_470_589)
    ensures IncludedFee(176_470_589, 14) == Ok(FeeAmount(18, 4))
  {
    hide ExcludedAmount, GetCheckedAmounts, QuadraticTotal;
    SteepLeft();
    SteepEdge();
    SteepTotal();
    assert NumeratorForTotal(STEEP, 17, 14) == Ok(176_470_589);
  }

  /** The limiter passes validation. */
  lemma SteepValid()
    ensures Validate(STEEP, OnlyB, Timestamp).Ok?
  {
    hide NumeratorFromIncluded, ToNumerator;
    SteepNumbers();
    SteepLargest();
    SteepFirstTier(0);
  }

  lemma SteepLargest()
    ensures NumeratorFromIncluded(STEEP, U64_MAX).Ok?
    ensures NumeratorFromIncluded(STEEP, U64_MAX).value <= MAX_FEE_NUMERATOR_V0
  {
    hide NumeratorFromIncluded, TierSum;
    SteepNumbers();
    NumeratorValue(STEEP, U64_MAX);
    SumBounds(TiersOf(STEEP), U64_MAX);
  }

  // ----- A pool with that limiter -----

  const STEEP_POOL :=
    PoolParameters(
      Customizable, Limit(STEEP), FeeShares(20, 0, 20), None, false, OnlyB, Timestamp, 0, TWO_64,
      2 * TWO_64, TWO_64, 14 * TWO_64)

  /** Moving the price from one end of the range to the other takes 14 of token B and releases 7 of A. */
  lemma SteepMoves()
    ensures DeltaA(TWO_64, 2 * TWO_64, 14 * TWO_64, Up) == Ok(7)
    ensures DeltaA(TWO_64, 2 * TWO_64, 14 * TWO_64, Down) == Ok(7)
    ensures DeltaB(TWO_64, TWO_64, 14 * TWO_64, Up) == Ok(0)
    ensures DeltaB(TWO_64, 2 * TWO_64, 14 * TWO_64, Up) == Ok(14)
    ensures DeltaB(TWO_64, 2 * TWO_64, 14 * TWO_64, Down) == Ok(14)
    ensures DeltaA(2 * TWO_64, 2 * TWO_64, 14 * TWO_64, Down) == Ok(0)
  {
  }

  lemma SteepPoolCreated()
    ensures InitializePool(STEEP_POOL)
            == Done(LiquidityChange(NewPool(STEEP_POOL), NewPosition(14 * TWO_64), Vaults(7, 1)))
  {
    hide Validate, DeltaA, DeltaB;
    SteepValid();
    SteepMoves();
  }

  const OVERSIZED := SwapParameters(PartialFill, 16, 0, BtoA, false)

  lemma SteepRates()
    ensures var f := TradingFeeOf(NewPool(STEEP_POOL), 0, BtoA, MAX_FEE_NUMERATOR_V0);
            f.fromIncluded(16) == Ok(62_500_000) && f.fromExcluded(14) == Ok(176_470_589)
  {
    hide NumeratorFromIncluded, NumeratorFromExcluded;
    SteepOffer();
    SteepPart();
  }

  lemma SteepQuote()
    ensures QuoteOf(NewPool(STEEP_POOL), OVERSIZED, 0)
            == Ok(SwapResult(18, 14, 1, 7, 2 * TWO_64, SplitFees(4, 0, 0, 0)))
  {
    hide TradingFeeOf, ExcludedFee, IncludedFee, DeltaA, DeltaB, Split;
    SteepRates();
    SteepOffer();
    SteepPart();
    SteepMoves();
    SteepSplits();
  }

  lemma SteepSplits()
    ensures Split(FeeShares(20, 0, 20), 1, false, false) == Ok(SplitFees(1, 0, 0, 0))
    ensures Split(FeeShares(20, 0, 20), 4, false, false) == Ok(SplitFees(4, 0, 0, 0))
  {
  }

  lemma SteepSwap(vaults: Vaults)
    requires vaults == Vaults(7, 1)
    ensures Instructions.Swap(NewPool(STEEP_POOL), vaults, OVERSIZED, 0, 0).Done?
    ensures Instructions.Swap(NewPool(STEEP_POOL), vaults, OVERSIZED, 0, 0).value.vaults == Vaults(0, 19)
  {
    hide QuoteOf, DeltaA, DeltaB;
    SteepQuote();
    SteepMoves();
    assert ShlDiv256(4, 14 * TWO_64).Ok?;
  }

  /** A swap on a reachable pool that offers 16 of token B as a partial fill and is charged 18. */
  lemma PartialFillOvercharges() returns (s: State, e: Event)
    ensures Reachable(s) && s.time <= e.time && s.point <= e.point
    ensures e.action == Swap(SwapParameters(PartialFill, 16, 0, BtoA, false))
    ensures Step(s, e).Done? && Step(s, e).value.vaults.b == s.vaults.b + 18
  {
    hide Reachable, InitializePool, Instructions.Swap;
    SteepPoolCreated();
    NewReachable(STEEP_POOL, 0, 0);
    SteepSwap(Vaults(7, 1));
    s := Initial(InitializePool(STEEP_POOL).value, 0, 0);
    e := Event(Swap(OVERSIZED), 0, 0);
  }

  // ----- A stream that runs out of room -----

  // One unit of liquidity, and a campaign of 10^19 tokens over one day.
  const TINY_POOL :=
    PoolParameters(
      FromDynamicConfig, Schedule(FeeScheduler.Scheduler(2_500_000, 0, 0, 0, FeeScheduler.Linear)),
      FeeShares(20, 0, 20), None, false, BothToken, Timestamp, 0, TWO_64, 2 * TWO_64, TWO_64, 1)
  const DAY: U64 := 86_400
  const CAMPAIGN: U64 := 10_000_000_000_000_000_000
  const RATE: U128 := 2_135_039_823_346_012_918_518_518_518_518_518
  const STORED: U256 := DAY * RATE * TWO_128

  /** The stream in the order of the run: initialized, funded, accrued after a day, and funded again. */
  const STREAM0 := RewardData(true, DAY, 0, 0, 0, 0, 0)
  const STREAM1 := RewardData(true, DAY, DAY, RATE, 0, 0, 0)
  const STREAM2 := RewardData(true, DAY, DAY, RATE, STORED, DAY, 0)
  const STREAM3 := RewardData(true, DAY, 2 * DAY, RATE, STORED, DAY, 0)

  lemma TinyPoolCreated()
    ensures InitializePool(TINY_POOL)
            == Done(LiquidityChange(NewPool(TINY_POOL), NewPosition(1), Vaults(1, 0)))
  {
  }

  lemma CampaignRate()
    ensures ShlDivCast128(CAMPAIGN, DAY) == Ok(RATE)
  {
  }

  lemma CampaignFunds()
    ensures Fund(STREAM0, 0, CAMPAIGN, false) == Ok(STREAM1)
    ensures Fund(STREAM2, DAY, CAMPAIGN, false) == Ok(STREAM3)
  {
    hide ShlDivCast128;
    CampaignRate();
  }

  /** With one unit of liquidity all that is new goes to it. */
  lemma UnitAccrues(r: RewardData, now: U64, total: U128, stored: U256)
    requires r.initialized && r.lastUpdateTime <= Min(now, r.rewardDurationEnd)
    requires NewReward(r, now) == total && stored == r.rewardPerTokenStored + total * TWO_128
    ensures UpdateReward(r, 1, now)
            == Ok(r.(rewardPerTokenStored := stored, lastUpdateTime := Min(now, r.rewardDurationEnd)))
  {
    hide ShlDiv256;
    GrowthDefined(total, 1);
  }

  lemma CampaignAccrues()
    ensures UpdateReward(STREAM0, 1, 0) == Ok(STREAM0)
    ensures UpdateReward(STREAM1, 1, DAY) == Ok(STREAM2)
    ensures UpdateReward(STREAM2, 1, DAY) == Ok(STREAM2)
  {
    hide UpdateReward;
    UnitAccrues(STREAM0, 0, 0, 0);
    UnitAccrues(STREAM1, DAY, DAY * RATE, STORED);
    UnitAccrues(STREAM2, DAY, 0, STORED);
  }

  lemma CampaignEarned()
    ensures UserRewardAfter(UserReward(0, 0, 0), 1, STORED)
            == Ok(UserReward(STORED, CAMPAIGN - 1, 0))
  {
  }

  /** The state in the order of the run, for a stream and what the first position has of it. */
  ghost predicate TinyState(s: State, r: RewardData, u: UserReward, vault: U64, time: U64) {
    && s.pool.liquidity == 1 && s.pool.rewards == [r, NO_REWARD]
    && s.positions == [Some(NewPosition(1).(rewards := [u, UserReward(0, 0, 0)]))]
    && s.rewardVaults == [vault, 0] && s.time == time && s.point == 0
  }

  lemma TinyStart() returns (s: State)
    ensures Reachable(s) && TinyState(s, NO_REWARD, UserReward(0, 0, 0), 0, 0)
  {
    hide Reachable, InitializePool;
    TinyPoolCreated();
    NewReachable(TINY_POOL, 0, 0);
    s := Initial(InitializePool(TINY_POOL).value, 0, 0);
  }

  lemma StreamOpened(s: State) returns (s': State)
    requires Reachable(s) && TinyState(s, NO_REWARD, UserReward(0, 0, 0), 0, 0)
    ensures Reachable(s') && TinyState(s', STREAM0, UserReward(0, 0, 0), 0, 0)
  {
    hide Reachable;
    var e := Event(InitializeReward(0, DAY), 0, 0);
    StepReaches(s, e);
    s' := After(s, e);
  }

  lemma ClosedStreamRests(time: U64)
    ensures UpdateReward(NO_REWARD, 1, time) == Ok(NO_REWARD)
  {
  }

  lemma StreamFunded(s: State, r: RewardData, u: UserReward, vault: U64, r': RewardData, time: U64)
    returns (s': State)
    requires Reachable(s) && TinyState(s, r, u, vault, time) && r.initialized
    requires UpdateReward(r, 1, time) == Ok(r) && Fund(r, time, CAMPAIGN, false) == Ok(r')
    requires vault + CAMPAIGN <= U64_MAX
    ensures Reachable(s') && TinyState(s', r', u, vault + CAMPAIGN, time)
  {
    hide Reachable, UpdateReward, Fund;
    ClosedStreamRests(time);
    var e := Event(FundReward(0, CAMPAIGN, false), time, 0);
    StepReaches(s, e);
    s' := After(s, e);
  }

  /** The first position takes what it has earned in the first campaign. */
  lemma CampaignClaimed(s: State) returns (s': State)
    requires Reachable(s) && TinyState(s, STREAM1, UserReward(0, 0, 0), CAMPAIGN, 0)
    ensures Reachable(s') && TinyState(s', STREAM2, UserReward(STORED, 0, CAMPAIGN - 1), 1, DAY)
  {
    hide Reachable, UpdateReward, UserRewardAfter;
    CampaignAccrues();
    CampaignEarned();
    ClosedStreamRests(DAY);
    var e := Event(Action.ClaimReward(0, 0, false, false), DAY, 0);
    StepReaches(s, e);
    s' := After(s, e);
  }

  lemma NoRoomLeft(now: U64)
    requires 2 * DAY <= now
    ensures !AccumulatorFits(STREAM3, 1, now)
  {
    assert NewReward(STREAM3, now) == DAY * RATE;
  }

  /** A reachable pool, with liquidity in it, whose streams can never be updated again once two days have
      passed: the accumulator has no room for what the second campaign adds. */
  lemma StreamsRunOut() returns (s: State)
    ensures Reachable(s) && s.pool.liquidity > 0 && s.time <= 2 * DAY
    ensures forall now: U64 :: 2 * DAY <= now ==> UpdateRewards(s.pool, now).Err?
  {
    hide Reachable, UpdateReward, UpdateRewards, AccumulatorFits, Fund;
    s := TinyStart();
    s := StreamOpened(s);
    CampaignAccrues();
    CampaignFunds();
    s := StreamFunded(s, STREAM0, UserReward(0, 0, 0), 0, STREAM1, 0);
    s := CampaignClaimed(s);
    s := StreamFunded(s, STREAM2, UserReward(STORED, 0, CAMPAIGN - 1), 1, STREAM3, DAY);
    forall now: U64 | 2 * DAY <= now ensures UpdateRewards(s.pool, now).Err? {
      NoRoomLeft(now);
      StreamsUpdatableIff(s, now);
    }
  }
}

/** What can always be brought up to date, and exactly what cannot: the fees of a position always, its
    rewards and the streams of the pool unless an accumulator has run out of room. A claim of fees fails
    only when the position's own lifetime counter is full. */
module Liveness {
  import opened Checked
  import opened Division
  import opened UtilsMath
  import opened PoolState
  import opened Rewards
  import opened Positions
  import opened Pools
  import opened Instructions
  import opened Sums
  import opened Ledger
  import opened Balance
  import opened Solvency
  import opened Runs

  // ----- Crediting what a vault holds -----

  /** Splitting off the pending part leaves the floor of the rest. */
  lemma FloorOfOwed(pending: nat, earned: nat, scale: int)
    requires 0 < scale
    ensures FloorDiv(pending * scale + earned, scale) == pending + FloorDiv(earned, scale)
  {
    var q := FloorDiv(earned, scale);
    assert (pending + q) * scale == pending * scale + q * scale;
    FloorAtLeast(pending * scale + earned, scale, pending + q);
    assert (pending + q + 1) * scale == pending * scale + q * scale + scale;
    FloorBelow(pending * scale + earned, scale, pending + q + 1);
  }

  lemma OwedFitsVault(owed: nat, vault: U64, scale: int)
    requires 0 < scale && owed <= vault * scale
    ensures FloorDiv(owed, scale) <= vault
  {
    assert (vault + 1) * scale == vault * scale + scale;
    FloorBelow(owed, scale, vault + 1);
  }

  lemma ProductNonNegative(x: nat, y: nat)
    ensures 0 <= x * y
  {
  }

  /** What a vault covers can be credited, and the pending fee becomes the floor of what is owed. */
  lemma CreditDefined(lane: PositionLane, liquidity: U128, stored: U256, vault: U64)
    requires lane.checkpoint <= stored
    requires lane.pending * TWO_128 + liquidity * (stored - lane.checkpoint) <= vault * TWO_128
    ensures Credit(lane, liquidity, stored).Ok?
    ensures var owed := lane.pending * TWO_128 + liquidity * (stored - lane.checkpoint);
            && 0 <= owed && Credit(lane, liquidity, stored).value.pending == FloorDiv(owed, TWO_128) <= vault
    ensures Credit(lane, liquidity, stored).value.totalClaimed == lane.totalClaimed
  {
    hide FloorDiv;
    var earned := liquidity * (stored - lane.checkpoint);
    ProductNonNegative(liquidity, stored - lane.checkpoint);
    FloorOfOwed(lane.pending, earned, TWO_128);
    OwedFitsVault(lane.pending * TWO_128 + earned, vault, TWO_128);
    if liquidity == 0 {
      FloorOfOwed(0, 0, TWO_128);
      OwedFitsVault(0, 0, TWO_128);
    }
  }

  lemma UserRewardDefined(u: UserReward, liquidity: U128, stored: U256, vault: U64)
    requires u.checkpoint <= stored
    requires u.pending * TWO_192 + liquidity * (stored - u.checkpoint) <= vault * TWO_192
    ensures UserRewardAfter(u, liquidity, stored).Ok?
    ensures var owed := u.pending * TWO_192 + liquidity * (stored - u.checkpoint);
            && 0 <= owed
            && UserRewardAfter(u, liquidity, stored).value.pending == FloorDiv(owed, TWO_192) <= vault
            && UserRewardAfter(u, liquidity, stored).value.totalClaimed == u.totalClaimed
  {
    hide FloorDiv;
    var earned := liquidity * (stored - u.checkpoint);
    ProductNonNegative(liquidity, stored - u.checkpoint);
    FloorOfOwed(u.pending, earned, TWO_192);
    OwedFitsVault(u.pending * TWO_192 + earned, vault, TWO_192);
  }

  // ----- What one position is owed -----

  /** One position's fee is within what the vault holds. */
  lemma OwedFeeWithin(
      positions: Slots, token: Token, lane: FeeLane, i: nat, claimed: int, vault: U64)
    requires FeesConserved(positions, token, lane.perLiquidity, lane.totalLpFee, claimed)
    requires 0 <= Free(vault, lane, claimed) && i < |positions| && positions[i].Some?
    ensures LaneOf(positions[i].value, token).checkpoint <= lane.perLiquidity
    ensures 0 <= OwedFee(positions[i].value, token, lane.perLiquidity) <= vault * TWO_128
  {
    hide OwedFee, LaneOf;
    var stored := lane.perLiquidity;
    forall k | 0 <= k < |positions| ensures 0 <= Weight(positions[k], FeeWeight(token, stored)) {
      if positions[k].Some? {
        OwedFeeNonNegative(positions[k].value, token, stored);
      }
    }
    SumCovers(positions, FeeWeight(token, stored), i);
    assert Weight(positions[i], FeeWeight(token, stored)) == OwedFee(positions[i].value, token, stored);
  }

  /** One position's reward is within what the vault holds. */
  lemma OwedRewardWithin(positions: Slots, index: nat, r: RewardData, i: nat, vault: U64)
    requires index < NUM_REWARDS && StreamBooks(positions, index, r, vault)
    requires i < |positions| && positions[i].Some?
    ensures positions[i].value.rewards[index].checkpoint <= r.rewardPerTokenStored
    ensures 0 <= OwedReward(positions[i].value, index, r.rewardPerTokenStored) <= vault * TWO_192
  {
    hide OwedReward, Backing;
    var stored := r.rewardPerTokenStored;
    forall k | 0 <= k < |positions| ensures 0 <= Weight(positions[k], RewardWeight(index, stored)) {
      if positions[k].Some? {
        OwedRewardNonNegative(positions[k].value, index, stored);
      }
    }
    SumCovers(positions, RewardWeight(index, stored), i);
    BackingNonNegative(r);
    assert Weight(positions[i], RewardWeight(index, stored)) == OwedReward(positions[i].value, index, stored);
  }

  // ----- Fees -----

  predicate OpenPosition(s: State, i: nat) {
    i < |s.positions| && s.positions[i].Some?
  }

  /** The fee a position is owed, rounded down to whole tokens. */
  ghost function Claimable(s: State, i: nat, token: Token): int
    requires OpenPosition(s, i)
  {
    OwedFee(s.positions[i].value, token, PoolLane(s.pool, token).perLiquidity) / TWO_128
  }

  lemma OwedCredited(q: PositionData, token: Token, stored: U256, vault: U64)
    requires Liquidity(q) < TWO_128 && LaneOf(q, token).checkpoint <= stored
    requires OwedFee(q, token, stored) <= vault * TWO_128
    ensures var credited := Credit(LaneOf(q, token), Liquidity(q), stored);
            && credited.Ok?
            && credited.value.pending == OwedFee(q, token, stored) / TWO_128 <= vault
            && credited.value.totalClaimed == LaneOf(q, token).totalClaimed
  {
    hide Credit, LaneOf, Liquidity;
    CreditDefined(LaneOf(q, token), Liquidity(q), stored, vault);
  }

  lemma LiquidityFits(s: State, i: nat)
    requires Invariant(s) && OpenPosition(s, i)
    ensures Liquidity(s.positions[i].value) < TWO_128
  {
    hide SwapReady, StreamBooks, VestingsOpen, VestedAgrees, FeesConserved, ReservesCovered, LiquidityAgrees;
    LiquidityBounded(s.positions, i, s.pool.liquidity, s.pool.permanentLockLiquidity);
  }

  lemma LaneCredited(s: State, i: nat, token: Token)
    requires Invariant(s) && OpenPosition(s, i)
    ensures var q := s.positions[i].value;
            && Liquidity(q) < TWO_128
            && var credited := Credit(LaneOf(q, token), Liquidity(q), PoolLane(s.pool, token).perLiquidity);
            && credited.Ok?
            && credited.value.pending == Claimable(s, i, token) <= BalanceOf(s.vaults, token)
            && credited.value.totalClaimed == LaneOf(q, token).totalClaimed
  {
    hide Credit, LaneOf, Liquidity, OwedFee, SwapReady, Balanced, VestingsOpen, VestedAgrees,
         FeesConserved, ReservesCovered, Free;
    LiquidityFits(s, i);
    BooksOf(s, token);
    FreeOfToken(s, token);
    var lane := PoolLane(s.pool, token);
    OwedFeeWithin(
      s.positions, token, lane, i, ClaimedOf(s, token), BalanceOf(s.vaults, token));
    OwedCredited(s.positions[i].value, token, lane.perLiquidity, BalanceOf(s.vaults, token));
  }

  lemma FreeOfToken(s: State, token: Token)
    requires Invariant(s)
    ensures 0 <= Free(BalanceOf(s.vaults, token), PoolLane(s.pool, token), ClaimedOf(s, token))
  {
    hide Balanced, VestingsOpen, VestedAgrees, ReservesCovered;
    FreeNonNegative(s.pool, Held(s.vaults), s.claimed);
  }

  /** In every reachable state the fees of every open position can be brought up to date: nothing can
      lock a position out of adding, removing, splitting or claiming through its fees. What becomes
      claimable is the floor of what it is owed, and the vault holds it. */
  lemma FeesAlwaysUpdatable(s: State, i: nat)
    requires Reachable(s) && OpenPosition(s, i)
    ensures var q, p := s.positions[i].value, s.pool;
            var updated := UpdateFee(q, p.a.perLiquidity, p.b.perLiquidity);
            && updated.Ok?
            && updated.value.a.pending == Claimable(s, i, Token.A) <= s.vaults.a
            && updated.value.b.pending == Claimable(s, i, Token.B) <= s.vaults.b
  {
    hide Reachable, Invariant, Credit, Claimable;
    ReachableHolds(s);
    LaneCredited(s, i, Token.A);
    LaneCredited(s, i, Token.B);
  }

  /** A claim of fees goes through, and pays exactly what is claimable, unless the position's lifetime
      counter of claimed fees would leave 64 bits in one token. */
  lemma ClaimAbortsOnlyOnCounter(s: State, i: nat)
    requires Reachable(s) && OpenPosition(s, i)
    ensures var q := s.positions[i].value;
            var step := ClaimPositionFeeStep(s, i);
            && (step.Done? <==> forall token: Token ::
                  LaneOf(q, token).totalClaimed + Claimable(s, i, token) < TWO_64)
            && (step.Done? ==>
                  && step.value.vaults.a == s.vaults.a - Claimable(s, i, Token.A)
                  && step.value.vaults.b == s.vaults.b - Claimable(s, i, Token.B)
                  && step.value.positions[i].Some?
                  && forall token: Token ::
                       var lane := LaneOf(step.value.positions[i].value, token);
                       && lane.pending == 0
                       && lane.totalClaimed == LaneOf(q, token).totalClaimed + Claimable(s, i, token))
  {
    hide Reachable, Invariant, Credit, Claimable;
    ReachableHolds(s);
    LaneCredited(s, i, Token.A);
    LaneCredited(s, i, Token.B);
  }

  // ----- Rewards -----

  lemma RewardUpdatable(s: State, streams: RewardStreams, i: nat, index: nat)
    requires Balanced(s.pool.(rewards := streams), s.positions, s.claimed, s.rewardVaults[0], s.rewardVaults[1])
    requires OpenPosition(s, i) && index < NUM_REWARDS
    ensures var q := s.positions[i].value;
            && Liquidity(q) < TWO_128
            && UserRewardFor(q.rewards[index], streams[index], Liquidity(q)).Ok?
            && UserRewardFor(q.rewards[index], streams[index], Liquidity(q)).value.totalClaimed
               == q.rewards[index].totalClaimed
            && (streams[index].initialized ==>
                  UserRewardFor(q.rewards[index], streams[index], Liquidity(q)).value.pending
                  == OwedReward(q, index, streams[index].rewardPerTokenStored) / TWO_192
                  <= s.rewardVaults[index])
  {
    hide StreamBooks, FeesConserved, LiquidityAgrees, UserRewardAfter;
    var p := s.pool.(rewards := streams);
    LiquidityBounded(s.positions, i, p.liquidity, p.permanentLockLiquidity);
    OwedRewardWithin(s.positions, index, streams[index], i, s.rewardVaults[index]);
    var q := s.positions[i].value;
    UserRewardDefined(
      q.rewards[index], Liquidity(q), streams[index].rewardPerTokenStored, s.rewardVaults[index]);
  }

  // ----- The streams of the pool -----

  /** The reward a stream has for the liquidity since it was last updated, in units of 2^-64 tokens. */
  ghost function NewReward(r: RewardData, now: U64): int {
    (Min(now, r.rewardDurationEnd) - r.lastUpdateTime) * r.rewardRate
  }

  /** The accumulator of a stream that has liquidity to pay can take up what is new. */
  ghost predicate AccumulatorFits(r: RewardData, supply: U128, now: U64) {
    r.initialized && 0 < supply ==>
      r.rewardPerTokenStored + NewReward(r, now) * TWO_128 / supply < TWO_256
  }

  lemma FundedRewardFits(rate: nat, seconds: nat, period: nat, vault: U64)
    requires rate * seconds * TWO_128 <= vault * TWO_192 && period <= seconds
    ensures 0 <= period * rate < TWO_128
  {
    assert vault * TWO_192 == vault * TWO_64 * TWO_128;
    CancelLe(rate * seconds, vault * TWO_64, TWO_128);
    MulMono(period, seconds, rate);
    MulMono(0, period, rate);
  }

  lemma GrowthDefined(x: U128, supply: U128)
    requires 0 < supply
    ensures ShlDiv256(x, supply) == Ok(x * TWO_128 / supply)
  {
    ShareBelow(x * TWO_128, supply);
  }

  lemma ShareBelow(x: nat, y: int)
    requires 0 < y
    ensures 0 <= x / y <= x
  {
    assert x / y == FloorDiv(x, y);
  }

  /** A stream its vault backs, and whose clock is behind, can be updated exactly when its accumulator
      can take up the growth; without liquidity it always can. */
  lemma StreamUpdatableIff(r: RewardData, supply: U128, now: U64, vault: U64)
    requires Rewards.WellFormed(r) && ClockBehind(r, now) && Backing(r) <= vault * TWO_192
    ensures UpdateReward(r, supply, now).Ok? <==> AccumulatorFits(r, supply, now)
  {
    hide ShlDiv256;
    if r.initialized {
      FundedRewardFits(
        r.rewardRate, FundedSeconds(r), Min(now, r.rewardDurationEnd) - r.lastUpdateTime, vault);
      if supply > 0 {
        GrowthDefined(NewReward(r, now), supply);
      }
    }
  }

  lemma BackedByVault(positions: Slots, index: nat, r: RewardData, vault: U64)
    requires index < NUM_REWARDS && StreamBooks(positions, index, r, vault)
    ensures Rewards.WellFormed(r) && Backing(r) <= vault * TWO_192
  {
    hide OwedReward, Backing;
    var stored := r.rewardPerTokenStored;
    forall k | 0 <= k < |positions| ensures 0 <= Weight(positions[k], RewardWeight(index, stored)) {
      if positions[k].Some? {
        OwedRewardNonNegative(positions[k].value, index, stored);
      }
    }
    SumNonNegative(positions, RewardWeight(index, stored));
  }

  /** In every reachable state, at every later time, the streams can be updated exactly when both
      accumulators have room. An accumulator never shrinks, and with very little liquidity it grows
      fast, so a stream can run out of room; nothing else can stop it. */
  lemma StreamsUpdatableIff(s: State, now: U64)
    requires Reachable(s) && s.time <= now
    ensures UpdateRewards(s.pool, now).Ok?
            <==> AccumulatorFits(s.pool.rewards[0], s.pool.liquidity, now)
                 && AccumulatorFits(s.pool.rewards[1], s.pool.liquidity, now)
  {
    hide Reachable, UpdateReward, AccumulatorFits, SwapReady, VestingsOpen, VestedAgrees, FeesConserved,
         ReservesCovered, LiquidityAgrees, StreamBooks, Backing;
    ReachableHolds(s);
    forall index | 0 <= index < NUM_REWARDS
      ensures UpdateReward(s.pool.rewards[index], s.pool.liquidity, now).Ok?
              <==> AccumulatorFits(s.pool.rewards[index], s.pool.liquidity, now)
    {
      BackedByVault(s.positions, index, s.pool.rewards[index], s.rewardVaults[index]);
      StreamUpdatableIff(s.pool.rewards[index], s.pool.liquidity, now, s.rewardVaults[index]);
    }
  }

  /** In every reachable state, at every time, the rewards of an open position can be brought up to date
      whenever the pool's own streams can: a position never adds a failure of its own. */
  lemma RewardsAlwaysUpdatable(s: State, i: nat, now: U64)
    requires Reachable(s) && OpenPosition(s, i)
    ensures Accrue(s.pool, s.positions[i].value, now).Ok?
            <==> (PoolRewardInitialized(s.pool) ==> UpdateRewards(s.pool, now).Ok?)
  {
    hide Reachable, UpdateStreams, UserRewardFor, Balanced, SwapReady, VestingsOpen, VestedAgrees,
         ReservesCovered;
    ReachableHolds(s);
    if PoolRewardInitialized(s.pool) && UpdateRewards(s.pool, now).Ok? {
      UpdateRewardsKeeps(s.pool, s.positions, s.claimed, s.rewardVaults[0], s.rewardVaults[1], now);
      var p := UpdateRewards(s.pool, now).value;
      RewardUpdatable(s, p.rewards, i, 0);
      RewardUpdatable(s, p.rewards, i, 1);
    }
  }

  /** The reward a position is owed at a time at which the streams can be updated, rounded down to whole
      tokens. */
  ghost function ClaimableReward(s: State, i: nat, index: nat, now: U64): int
    requires OpenPosition(s, i) && index < NUM_REWARDS && UpdateRewards(s.pool, now).Ok?
  {
    OwedReward(
      s.positions[i].value, index, UpdateRewards(s.pool, now).value.rewards[index].rewardPerTokenStored)
    / TWO_192
  }

  /** A reward that can be accrued is paid to the unit, and nothing stays pending. A claim out of a frozen
      vault pays nothing, and is refused if anything is due and its caller does not give that up. */
  lemma RewardClaimExact(s: State, i: nat, index: nat, frozen: bool, skip: bool, now: U64)
    requires Reachable(s) && OpenPosition(s, i) && index < NUM_REWARDS
    requires s.pool.rewards[index].initialized && UpdateRewards(s.pool, now).Ok?
    ensures var due := ClaimableReward(s, i, index, now);
            var step := ClaimRewardStep(s, i, index, frozen, skip, now);
            && 0 <= due
            && (step.Done? <==> (frozen && due > 0 ==> skip))
            && (step.Done? ==>
                  && RewardVaultOf(step.value, index)
                     == RewardVaultOf(s, index) - (if frozen then 0 else due)
                  && RewardVaultOf(step.value, 1 - index) == RewardVaultOf(s, 1 - index)
                  && step.value.positions[i].Some?
                  && var u := step.value.positions[i].value.rewards[index];
                     u.pending == 0
                     && u.totalClaimed == (s.positions[i].value.rewards[index].totalClaimed + due) % TWO_64)
  {
    hide Reachable, UpdateStreams, UserRewardFor, Balanced, SwapReady, VestingsOpen, VestedAgrees,
         ReservesCovered;
    ReachableHolds(s);
    UpdateRewardsKeeps(s.pool, s.positions, s.claimed, s.rewardVaults[0], s.rewardVaults[1], now);
    var p := UpdateRewards(s.pool, now).value;
    RewardUpdatable(s, p.rewards, i, 0);
    RewardUpdatable(s, p.rewards, i, 1);
    StreamsStayOpen(s.pool, now);
    OwedNotNegative(s, i, index, p);
  }

  lemma StreamsStayOpen(p: PoolData, now: U64)
    requires UpdateRewards(p, now).Ok?
    ensures var p' := UpdateRewards(p, now).value;
            && p'.rewards[0].initialized == p.rewards[0].initialized
            && p'.rewards[1].initialized == p.rewards[1].initialized
  {
    hide StoredGrowth, Elapsed;
  }

  lemma OwedNotNegative(s: State, i: nat, index: nat, p: PoolData)
    requires Balanced(p, s.positions, s.claimed, s.rewardVaults[0], s.rewardVaults[1])
    requires OpenPosition(s, i) && index < NUM_REWARDS
    ensures 0 <= OwedReward(s.positions[i].value, index, p.rewards[index].rewardPerTokenStored)
  {
    hide StreamBooks, FeesConserved, LiquidityAgrees;
    OwedRewardWithin(s.positions, index, p.rewards[index], i, s.rewardVaults[index]);
  }
}

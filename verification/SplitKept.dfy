/** Splitting a position moves liquidity, fees and rewards between two positions and nothing else. */
module SplitKept {
  import opened Checked
  import opened Division
  import opened PoolState
  import opened Rewards
  import opened Positions
  import opened Pools
  import opened Receipts
  import opened Sums
  import Instructions
  import opened Ledger
  import opened Balance
  import opened BalanceKept

  ghost predicate LanesConserved(x: PositionLane, y: PositionLane, x': PositionLane, y': PositionLane) {
    x'.pending + y'.pending == x.pending + y.pending && x'.checkpoint == x.checkpoint && y'.checkpoint == y.checkpoint
  }

  ghost predicate RewardsConserved(x: UserReward, y: UserReward, x': UserReward, y': UserReward) {
    x'.pending + y'.pending == x.pending + y.pending && x'.checkpoint == x.checkpoint && y'.checkpoint == y.checkpoint
  }

  /** The two positions together hold and are owed what they held and were owed before. */
  ghost predicate Conserved(pair: Pair, pair': Pair) {
    && pair'.first.unlockedLiquidity + pair'.second.unlockedLiquidity
       == pair.first.unlockedLiquidity + pair.second.unlockedLiquidity
    && pair'.first.permanentLockedLiquidity + pair'.second.permanentLockedLiquidity
       == pair.first.permanentLockedLiquidity + pair.second.permanentLockedLiquidity
    && pair'.first.vestedLiquidity == pair.first.vestedLiquidity
    && pair'.second.vestedLiquidity == pair.second.vestedLiquidity
    && LanesConserved(pair.first.a, pair.second.a, pair'.first.a, pair'.second.a)
    && LanesConserved(pair.first.b, pair.second.b, pair'.first.b, pair'.second.b)
    && RewardsConserved(
         pair.first.rewards[0], pair.second.rewards[0], pair'.first.rewards[0], pair'.second.rewards[0])
    && RewardsConserved(
         pair.first.rewards[1], pair.second.rewards[1], pair'.first.rewards[1], pair'.second.rewards[1])
  }

  lemma SplitLiquidityConserves(pair: Pair, unlocked: U32, permanent: U32)
    ensures SplitUnlocked(pair, unlocked).Ok? ==> Conserved(pair, SplitUnlocked(pair, unlocked).value)
    ensures SplitPermanent(pair, permanent).Ok? ==> Conserved(pair, SplitPermanent(pair, permanent).value)
  {
    hide ShareOfLiquidity;
  }

  lemma SplitPendingConserves(pair: Pair, numeratorA: U32, numeratorB: U32)
    requires SplitPending(pair, numeratorA, numeratorB).Ok?
    ensures Conserved(pair, SplitPending(pair, numeratorA, numeratorB).value)
  {
    hide ShareOfPending;
  }

  lemma SplitRewardConserves(pair: Pair, index: nat, r: RewardData, numerator: U32)
    requires index < NUM_REWARDS && SplitReward(pair, index, r, numerator).Ok?
    ensures Conserved(pair, SplitReward(pair, index, r, numerator).value)
  {
    hide ShareOfPending;
  }

  lemma ConservedTransitive(x: Pair, y: Pair, z: Pair)
    requires Conserved(x, y) && Conserved(y, z)
    ensures Conserved(x, z)
  {
  }

  /** `apply_split_position` first brings both positions up to date and then only moves between them. */
  lemma ApplySplitConserves(p: PoolData, pair: Pair, n: SplitNumerators) returns (current: Pair)
    requires ApplySplit(p, pair, n).Ok?
    ensures UpdateFee(pair.first, p.a.perLiquidity, p.b.perLiquidity) == Ok(current.first)
    ensures UpdateFee(pair.second, p.a.perLiquidity, p.b.perLiquidity) == Ok(current.second)
    ensures Conserved(current, ApplySplit(p, pair, n).value)
  {
    hide UpdateFee, SplitUnlocked, SplitPermanent, SplitPending, SplitReward, Conserved;
    var first := UpdateFee(pair.first, p.a.perLiquidity, p.b.perLiquidity).value;
    var second := UpdateFee(pair.second, p.a.perLiquidity, p.b.perLiquidity).value;
    current := Pair(first, second);
    SplitLiquidityConserves(current, n.unlocked, n.permanent);
    var pair1 := SplitUnlocked(current, n.unlocked).value;
    SplitLiquidityConserves(pair1, n.unlocked, n.permanent);
    var pair2 := SplitPermanent(pair1, n.permanent).value;
    SplitPendingConserves(pair2, n.feeA, n.feeB);
    var pair3 := SplitPending(pair2, n.feeA, n.feeB).value;
    SplitRewardConserves(pair3, 0, p.rewards[0], n.reward0);
    var pair4 := SplitReward(pair3, 0, p.rewards[0], n.reward0).value;
    SplitRewardConserves(pair4, 1, p.rewards[1], n.reward1);
    var pair5 := SplitReward(pair4, 1, p.rewards[1], n.reward1).value;
    ConservedTransitive(current, pair1, pair2);
    ConservedTransitive(current, pair2, pair3);
    ConservedTransitive(current, pair3, pair4);
    ConservedTransitive(current, pair4, pair5);
  }

  /** A validated share is always there to move: the second position gains its floor, and a numerator
      equal to the denominator empties the first. */
  lemma SplitUnlockedShare(pair: Pair, numerator: U32)
    requires numerator <= SPLIT_POSITION_DENOMINATOR
    requires pair.first.unlockedLiquidity + pair.second.unlockedLiquidity < TWO_128
    ensures SplitUnlocked(pair, numerator).Ok?
    ensures var gained := SplitUnlocked(pair, numerator).value.second.unlockedLiquidity
                          - pair.second.unlockedLiquidity;
            && gained == FloorDiv(pair.first.unlockedLiquidity * numerator, SPLIT_POSITION_DENOMINATOR)
            && (numerator == SPLIT_POSITION_DENOMINATOR ==> gained == pair.first.unlockedLiquidity)
  {
    ShareAtMostWhole(pair.first.unlockedLiquidity, numerator);
    if numerator == SPLIT_POSITION_DENOMINATOR {
      FloorAtLeast(
        pair.first.unlockedLiquidity * numerator, SPLIT_POSITION_DENOMINATOR,
        pair.first.unlockedLiquidity);
    }
  }

  // ----- Sums -----

  ghost function WithPair(positions: Slots, i: nat, j: nat, pair: Pair): Slots
    requires i < |positions| && j < |positions|
  {
    positions[i := Some(pair.first)][j := Some(pair.second)]
  }

  lemma PairSum(positions: Slots, i: nat, j: nat, pair: Pair, pair': Pair, f: PositionData -> int)
    requires i < |positions| && j < |positions| && i != j
    ensures Sum(WithPair(positions, i, j, pair'), f)
            == Sum(WithPair(positions, i, j, pair), f) - f(pair.first) - f(pair.second)
               + f(pair'.first) + f(pair'.second)
  {
    SumReplace(positions, i, Some(pair.first), f);
    SumReplace(positions[i := Some(pair.first)], j, Some(pair.second), f);
    SumReplace(positions, i, Some(pair'.first), f);
    SumReplace(positions[i := Some(pair'.first)], j, Some(pair'.second), f);
  }

  lemma PairKeepsFees(
      positions: Slots, i: nat, j: nat, pair: Pair, pair': Pair, token: Token, stored: nat, totalLp: int,
      claimed: int)
    requires i < |positions| && j < |positions| && i != j
    requires FeesConserved(WithPair(positions, i, j, pair), token, stored, totalLp, claimed)
    requires LaneOf(pair.first, token).checkpoint == stored == LaneOf(pair.second, token).checkpoint
    requires LanesConserved(
               LaneOf(pair.first, token), LaneOf(pair.second, token), LaneOf(pair'.first, token),
               LaneOf(pair'.second, token))
    ensures FeesConserved(WithPair(positions, i, j, pair'), token, stored, totalLp, claimed)
  {
    hide LaneOf;
    PairSum(positions, i, j, pair, pair', FeeWeight(token, stored));
    assert OwedFee(pair.first, token, stored) + OwedFee(pair.second, token, stored)
        == OwedFee(pair'.first, token, stored) + OwedFee(pair'.second, token, stored);
    var before, after := WithPair(positions, i, j, pair), WithPair(positions, i, j, pair');
    forall k | 0 <= k < |after| && after[k].Some?
      ensures LaneOf(after[k].value, token).checkpoint <= stored
    {
      assert k != i && k != j ==> after[k] == before[k];
    }
  }

  lemma SameRewardOwed(pair: Pair, pair': Pair, index: nat, stored: nat)
    requires index < NUM_REWARDS
    requires pair.first.rewards[index].checkpoint == stored == pair.second.rewards[index].checkpoint
    requires RewardsConserved(
               pair.first.rewards[index], pair.second.rewards[index], pair'.first.rewards[index],
               pair'.second.rewards[index])
    ensures OwedReward(pair.first, index, stored) + OwedReward(pair.second, index, stored)
            == OwedReward(pair'.first, index, stored) + OwedReward(pair'.second, index, stored)
  {
  }

  lemma PairKeepsStream(
      positions: Slots, i: nat, j: nat, pair: Pair, pair': Pair, index: nat, r: RewardData, vault: int)
    requires i < |positions| && j < |positions| && i != j && index < NUM_REWARDS
    requires StreamBooks(WithPair(positions, i, j, pair), index, r, vault)
    requires pair.first.rewards[index].checkpoint == r.rewardPerTokenStored
    requires pair.second.rewards[index].checkpoint == r.rewardPerTokenStored
    requires RewardsConserved(
               pair.first.rewards[index], pair.second.rewards[index], pair'.first.rewards[index],
               pair'.second.rewards[index])
    ensures StreamBooks(WithPair(positions, i, j, pair'), index, r, vault)
  {
    hide Backing, OwedReward;
    var stored := r.rewardPerTokenStored;
    PairSum(positions, i, j, pair, pair', RewardWeight(index, stored));
    SameRewardOwed(pair, pair', index, stored);
    var before, after := WithPair(positions, i, j, pair), WithPair(positions, i, j, pair');
    forall k | 0 <= k < |after| && after[k].Some?
      ensures after[k].value.rewards[index].checkpoint <= stored
    {
      assert k != i && k != j ==> after[k] == before[k];
    }
  }

  lemma PairKeepsLiquidity(
      positions: Slots, i: nat, j: nat, pair: Pair, pair': Pair, liquidity: int, permanent: int)
    requires i < |positions| && j < |positions| && i != j && Conserved(pair, pair')
    requires LiquidityAgrees(WithPair(positions, i, j, pair), liquidity, permanent)
    ensures LiquidityAgrees(WithPair(positions, i, j, pair'), liquidity, permanent)
  {
    PairSum(positions, i, j, pair, pair', LiquidityWeight());
    PairSum(positions, i, j, pair, pair', PermanentWeight());
  }

  lemma PairKeeps(
      p: PoolData, positions: Slots, i: nat, j: nat, pair: Pair, pair': Pair, claimed: Receipt,
      vault0: int, vault1: int)
    requires i < |positions| && j < |positions| && i != j && Conserved(pair, pair')
    requires Balanced(p, WithPair(positions, i, j, pair), claimed, vault0, vault1)
    requires FeesCurrent(p, pair.first) && FeesCurrent(p, pair.second)
    requires RewardsCurrent(p, pair.first) && RewardsCurrent(p, pair.second)
    ensures Balanced(p, WithPair(positions, i, j, pair'), claimed, vault0, vault1)
  {
    hide LiquidityAgrees, FeesConserved, StreamBooks, WithPair;
    PairKeepsLiquidity(positions, i, j, pair, pair', p.liquidity, p.permanentLockLiquidity);
    PairKeepsFees(
      positions, i, j, pair, pair', Token.A, p.a.perLiquidity, p.a.totalLpFee, claimed.a);
    PairKeepsFees(
      positions, i, j, pair, pair', Token.B, p.b.perLiquidity, p.b.totalLpFee, claimed.b);
    PairKeepsStream(positions, i, j, pair, pair', 0, p.rewards[0], vault0);
    PairKeepsStream(positions, i, j, pair, pair', 1, p.rewards[1], vault1);
  }

  // ----- The whole instruction -----

  /** One of the two positions brought up to date, rewards first. */
  lemma BroughtUpToDate(
      p: PoolData, positions: Slots, i: nat, claimed: Receipt, vault0: int, vault1: int, q1: PositionData,
      q2: PositionData)
    requires i < |positions| && positions[i].Some?
    requires Balanced(p, positions, claimed, vault0, vault1)
    requires UpdatePositionReward(positions[i].value, p.rewards) == Ok(q1)
    requires UpdateFee(q1, p.a.perLiquidity, p.b.perLiquidity) == Ok(q2)
    ensures Balanced(p, positions[i := Some(q2)], claimed, vault0, vault1)
    ensures FeesCurrent(p, q2) && RewardsCurrent(p, q2)
    ensures q2.vestedLiquidity == positions[i].value.vestedLiquidity
  {
    hide FeesConserved, LiquidityAgrees, RewardsBacked, Backing, Moves, UpdateFee, UpdatePositionReward;
    BehindAt(p, positions, i, claimed, vault0, vault1);
    UpdatePositionRewardMoves(p, positions[i].value);
    NothingPaid(claimed);
    MoveKeeps(p, p, positions, i, q1, claimed, NOTHING, vault0, vault1, 0, 0);
    UpdateFeeKeeps(p, positions, i, q1, claimed, vault0, vault1);
  }

  lemma SplitKeeps(
      p: PoolData, positions: Slots, i: nat, j: nat, claimed: Receipt, vault0: int, vault1: int,
      n: SplitNumerators, now: U64)
    requires i < |positions| && j < |positions| && i != j && positions[i].Some? && positions[j].Some?
    requires Balanced(p, positions, claimed, vault0, vault1)
    requires Instructions.SplitPosition(p, Pair(positions[i].value, positions[j].value), n, now).Ok?
    ensures var r := Instructions.SplitPosition(p, Pair(positions[i].value, positions[j].value), n, now).value;
            && Balanced(r.pool, WithPair(positions, i, j, r.pair), claimed, vault0, vault1)
            && r.pool == p.(rewards := r.pool.rewards)
            && r.pair.first.vestedLiquidity == positions[i].value.vestedLiquidity
            && r.pair.second.vestedLiquidity == positions[j].value.vestedLiquidity
  {
    hide Balanced, UpdateRewards, UpdatePositionReward, ApplySplit, UpdateFee;
    var p1 := UpdateRewards(p, now).value;
    UpdateRewardsKeeps(p, positions, claimed, vault0, vault1, now);
    var first := UpdatePositionReward(positions[i].value, p1.rewards).value;
    var second := UpdatePositionReward(positions[j].value, p1.rewards).value;
    var current := ApplySplitConserves(p1, Pair(first, second), n);
    BroughtUpToDate(p1, positions, i, claimed, vault0, vault1, first, current.first);
    BroughtUpToDate(
      p1, positions[i := Some(current.first)], j, claimed, vault0, vault1, second, current.second);
    PairKeeps(
      p1, positions, i, j, current, ApplySplit(p1, Pair(first, second), n).value, claimed, vault0,
      vault1);
  }
}

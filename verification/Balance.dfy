/** How the sums over all positions change when one position, one accumulator or one stream does. */
module Balance {
  import opened Checked
  import opened PoolState
  import opened Rewards
  import opened Positions
  import opened Pools
  import opened Receipts
  import opened Sums
  import opened Ledger

  type Slots = seq<Option<PositionData>>

  // ----- One sum at a time -----

  lemma ReplaceLiquidity(positions: Slots, i: nat, q': PositionData, liquidity: int, permanent: int)
    requires i < |positions| && positions[i].Some?
    requires LiquidityAgrees(positions, liquidity, permanent)
    ensures var q := positions[i].value;
            LiquidityAgrees(
              positions[i := Some(q')], liquidity + Liquidity(q') - Liquidity(q),
              permanent + q'.permanentLockedLiquidity - q.permanentLockedLiquidity)
  {
    SumReplace(positions, i, Some(q'), LiquidityWeight());
    SumReplace(positions, i, Some(q'), PermanentWeight());
  }

  /** A position's fee account moves from `q` to `q'`, paying out `paid`. */
  ghost predicate FeesKept(q: PositionData, q': PositionData, token: Token, stored: nat, paid: int) {
    && OwedFee(q', token, stored) + paid * TWO_128 <= OwedFee(q, token, stored)
    && LaneOf(q', token).checkpoint <= stored
  }

  lemma ReplaceFees(
      positions: Slots, i: nat, q': PositionData, token: Token, stored: nat, totalLp: int, claimed: int,
      paid: int)
    requires i < |positions| && positions[i].Some?
    requires FeesConserved(positions, token, stored, totalLp, claimed)
    requires FeesKept(positions[i].value, q', token, stored, paid)
    ensures FeesConserved(positions[i := Some(q')], token, stored, totalLp, claimed + paid)
  {
    hide OwedFee, LaneOf;
    SumReplace(positions, i, Some(q'), FeeWeight(token, stored));
  }

  ghost predicate RewardKept(q: PositionData, q': PositionData, index: nat, stored: nat, paid: int)
    requires index < NUM_REWARDS
  {
    && OwedReward(q', index, stored) + paid * TWO_192 <= OwedReward(q, index, stored)
    && q'.rewards[index].checkpoint <= stored
  }

  lemma ReplaceReward(
      positions: Slots, i: nat, q': PositionData, index: nat, stored: nat, backing: int, vault: int,
      paid: int)
    requires index < NUM_REWARDS && i < |positions| && positions[i].Some?
    requires RewardsBacked(positions, index, stored, backing, vault)
    requires RewardKept(positions[i].value, q', index, stored, paid)
    ensures RewardsBacked(positions[i := Some(q')], index, stored, backing, vault - paid)
  {
    hide OwedReward;
    SumReplace(positions, i, Some(q'), RewardWeight(index, stored));
  }

  lemma MoreGrowth(pending: int, liquidity: int, stored: int, checkpoint: int, growth: int)
    ensures pending + liquidity * (stored + growth - checkpoint)
            == pending + liquidity * (stored - checkpoint) + liquidity * growth
  {
  }

  /** Recording a fee and spreading it over the liquidity, rounded down, owes no more than the fee. */
  lemma GrowFees(
      positions: Slots, token: Token, stored: nat, growth: nat, totalLp: int, fee: int, claimed: int,
      liquidity: int, permanent: int)
    requires FeesConserved(positions, token, stored, totalLp, claimed)
    requires LiquidityAgrees(positions, liquidity, permanent)
    requires growth * liquidity <= fee * TWO_128
    ensures FeesConserved(positions, token, stored + growth, totalLp + fee, claimed)
  {
    var before, after, share := FeeWeight(token, stored), FeeWeight(token, stored + growth), LiquidityWeight();
    forall q: PositionData ensures after(q) == before(q) + share(q) * growth {
      MoreGrowth(
        LaneOf(q, token).pending * TWO_128, Liquidity(q), stored, LaneOf(q, token).checkpoint, growth);
    }
    SumGrows(positions, before, after, share, growth);
  }

  /** Crediting a stream's reward to the liquidity owes no more than the stream gives up. */
  lemma GrowRewards(
      positions: Slots, index: nat, stored: nat, growth: nat, backing: int, backing': int, vault: int,
      liquidity: int, permanent: int)
    requires index < NUM_REWARDS && RewardsBacked(positions, index, stored, backing, vault)
    requires LiquidityAgrees(positions, liquidity, permanent)
    requires backing' + liquidity * growth <= backing
    ensures RewardsBacked(positions, index, stored + growth, backing', vault)
  {
    var before, after := RewardWeight(index, stored), RewardWeight(index, stored + growth);
    var share := LiquidityWeight();
    forall q: PositionData ensures after(q) == before(q) + share(q) * growth {
      MoreGrowth(
        q.rewards[index].pending * TWO_192, Liquidity(q), stored, q.rewards[index].checkpoint, growth);
    }
    SumGrows(positions, before, after, share, growth);
  }

  // ----- All books together -----

  /** A position moves from `q` to `q'` and the pool from `p` to `p'`, paying out fees and rewards. */
  ghost predicate Moves(
      p: PoolData, q: PositionData, p': PoolData, q': PositionData, fees: Receipt, reward0: int,
      reward1: int)
  {
    && p'.liquidity == p.liquidity + Liquidity(q') - Liquidity(q)
    && p'.permanentLockLiquidity
       == p.permanentLockLiquidity + q'.permanentLockedLiquidity - q.permanentLockedLiquidity
    && p'.a == p.a && p'.b == p.b && p'.rewards == p.rewards
    && FeesKept(q, q', Token.A, p.a.perLiquidity, fees.a)
    && FeesKept(q, q', Token.B, p.b.perLiquidity, fees.b)
    && RewardKept(q, q', 0, p.rewards[0].rewardPerTokenStored, reward0)
    && RewardKept(q, q', 1, p.rewards[1].rewardPerTokenStored, reward1)
  }

  lemma MoveKeeps(
      p: PoolData, p': PoolData, positions: Slots, i: nat, q': PositionData, claimed: Receipt,
      fees: Receipt, vault0: int, vault1: int, reward0: int, reward1: int)
    requires i < |positions| && positions[i].Some?
    requires Balanced(p, positions, claimed, vault0, vault1)
    requires Moves(p, positions[i].value, p', q', fees, reward0, reward1)
    ensures Balanced(
              p', positions[i := Some(q')], Plus(claimed, fees), vault0 - reward0, vault1 - reward1)
  {
    hide FeesKept, RewardKept, LiquidityAgrees, FeesConserved, RewardsBacked, Liquidity, Backing;
    ReplaceLiquidity(positions, i, q', p.liquidity, p.permanentLockLiquidity);
    ReplaceFees(
      positions, i, q', Token.A, p.a.perLiquidity, p.a.totalLpFee, claimed.a, fees.a);
    ReplaceFees(
      positions, i, q', Token.B, p.b.perLiquidity, p.b.totalLpFee, claimed.b, fees.b);
    ReplaceReward(
      positions, i, q', 0, p.rewards[0].rewardPerTokenStored, Backing(p.rewards[0]), vault0, reward0);
    ReplaceReward(
      positions, i, q', 1, p.rewards[1].rewardPerTokenStored, Backing(p.rewards[1]), vault1, reward1);
  }

  // ----- Moves of one position -----

  const NOTHING := Receipt(0, 0)

  /** Checkpoints never run ahead of the accumulators. */
  ghost predicate Behind(p: PoolData, q: PositionData) {
    && q.a.checkpoint <= p.a.perLiquidity && q.b.checkpoint <= p.b.perLiquidity
    && q.rewards[0].checkpoint <= p.rewards[0].rewardPerTokenStored
    && q.rewards[1].checkpoint <= p.rewards[1].rewardPerTokenStored
  }

  ghost predicate FeesCurrent(p: PoolData, q: PositionData) {
    q.a.checkpoint == p.a.perLiquidity && q.b.checkpoint == p.b.perLiquidity
  }

  ghost predicate RewardsCurrent(p: PoolData, q: PositionData) {
    && q.rewards[0].checkpoint == p.rewards[0].rewardPerTokenStored
    && q.rewards[1].checkpoint == p.rewards[1].rewardPerTokenStored
  }

  lemma BehindAt(p: PoolData, positions: Slots, i: nat, claimed: Receipt, vault0: int, vault1: int)
    requires i < |positions| && positions[i].Some?
    requires Balanced(p, positions, claimed, vault0, vault1)
    ensures Behind(p, positions[i].value)
  {
    var q := positions[i].value;
    assert LaneOf(q, Token.A).checkpoint <= p.a.perLiquidity;
    assert LaneOf(q, Token.B).checkpoint <= p.b.perLiquidity;
  }

  lemma UpdateFeeMoves(p: PoolData, q: PositionData)
    requires Behind(p, q) && UpdateFee(q, p.a.perLiquidity, p.b.perLiquidity).Ok?
    ensures var q' := UpdateFee(q, p.a.perLiquidity, p.b.perLiquidity).value;
            && Moves(p, q, p, q', NOTHING, 0, 0) && FeesCurrent(p, q')
            && q' == q.(a := q'.a, b := q'.b)
            && (q.a.checkpoint == p.a.perLiquidity ==> q'.a.pending == q.a.pending)
  {
    hide Credit;
    CreditConserves(q.a, TotalLiquidity(q).value, p.a.perLiquidity);
    CreditConserves(q.b, TotalLiquidity(q).value, p.b.perLiquidity);
  }

  lemma SameFees(q: PositionData, q': PositionData, token: Token, stored: nat)
    requires q'.a == q.a && q'.b == q.b && Liquidity(q') == Liquidity(q)
    ensures OwedFee(q', token, stored) == OwedFee(q, token, stored)
  {
  }

  lemma UpdatePositionRewardMoves(p: PoolData, q: PositionData)
    requires Behind(p, q) && UpdatePositionReward(q, p.rewards).Ok?
    requires Rewards.WellFormed(p.rewards[0]) && Rewards.WellFormed(p.rewards[1])
    ensures var q' := UpdatePositionReward(q, p.rewards).value;
            && Moves(p, q, p, q', NOTHING, 0, 0) && RewardsCurrent(p, q')
            && q' == q.(rewards := q'.rewards)
  {
    hide UserRewardAfter, OwedFee;
    SameFees(q, UpdatePositionReward(q, p.rewards).value, Token.A, p.a.perLiquidity);
    SameFees(q, UpdatePositionReward(q, p.rewards).value, Token.B, p.b.perLiquidity);
    var liquidity := TotalLiquidity(q).value;
    if p.rewards[0].initialized {
      UserRewardConserves(q.rewards[0], liquidity, p.rewards[0].rewardPerTokenStored);
    }
    if p.rewards[1].initialized {
      UserRewardConserves(q.rewards[1], liquidity, p.rewards[1].rewardPerTokenStored);
    }
  }

  /** The same accounts with another amount of liquidity. */
  ghost predicate SameAccounts(q: PositionData, q': PositionData) {
    q'.a == q.a && q'.b == q.b && q'.rewards == q.rewards
  }

  /** Relabelling liquidity within a position moves nothing. */
  lemma RelabelMoves(p: PoolData, q: PositionData, p': PoolData, q': PositionData)
    requires Behind(p, q) && SameAccounts(q, q') && Liquidity(q') == Liquidity(q)
    requires p' == p.(permanentLockLiquidity := p'.permanentLockLiquidity)
    requires p'.permanentLockLiquidity
             == p.permanentLockLiquidity + q'.permanentLockedLiquidity - q.permanentLockedLiquidity
    ensures Moves(p, q, p', q', NOTHING, 0, 0)
  {
  }

  /** An up-to-date position may change its liquidity together with the pool. */
  lemma ResizeMoves(p: PoolData, q: PositionData, p': PoolData, q': PositionData)
    requires FeesCurrent(p, q) && RewardsCurrent(p, q) && SameAccounts(q, q')
    requires p' == p.(liquidity := p'.liquidity)
    requires p'.liquidity == p.liquidity + Liquidity(q') - Liquidity(q)
    requires q'.permanentLockedLiquidity == q.permanentLockedLiquidity
    ensures Moves(p, q, p', q', NOTHING, 0, 0)
  {
  }

  lemma TakeFeesMoves(p: PoolData, q: PositionData)
    requires Behind(p, q) && TakeFees(q).Ok?
    ensures Moves(p, q, p, TakeFees(q).value, Receipt(q.a.pending, q.b.pending), 0, 0)
  {
  }

  // ----- Moves of the pool alone -----

  lemma StreamAccrues(
      positions: Slots, index: nat, r: RewardData, supply: Checked.U128, permanent: int, now: Checked.U64,
      vault: int)
    requires index < NUM_REWARDS && StreamBooks(positions, index, r, vault)
    requires LiquidityAgrees(positions, supply, permanent) && UpdateReward(r, supply, now).Ok?
    ensures StreamBooks(positions, index, UpdateReward(r, supply, now).value, vault)
  {
    hide UpdateReward, Backing, LiquidityAgrees, RewardsBacked;
    UpdateConserves(r, supply, now);
    var r' := UpdateReward(r, supply, now).value;
    GrowRewards(
      positions, index, r.rewardPerTokenStored, r'.rewardPerTokenStored - r.rewardPerTokenStored,
      Backing(r), Backing(r'), vault, supply, permanent);
  }

  lemma UpdateRewardsKeeps(
      p: PoolData, positions: Slots, claimed: Receipt, vault0: int, vault1: int, now: Checked.U64)
    requires Balanced(p, positions, claimed, vault0, vault1) && UpdateRewards(p, now).Ok?
    ensures var p' := UpdateRewards(p, now).value;
            && Balanced(p', positions, claimed, vault0, vault1)
            && p' == p.(rewards := p'.rewards)
  {
    hide UpdateReward, StreamBooks, FeesConserved, LiquidityAgrees;
    StreamAccrues(positions, 0, p.rewards[0], p.liquidity, p.permanentLockLiquidity, now, vault0);
    StreamAccrues(positions, 1, p.rewards[1], p.liquidity, p.permanentLockLiquidity, now, vault1);
  }
}

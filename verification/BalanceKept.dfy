/** Every instruction keeps the sums over positions balanced. */
module BalanceKept {
  import opened Checked
  import opened UtilsMath
  import opened Fees
  import opened PoolState
  import opened Rewards
  import opened Positions
  import opened Pools
  import opened Instructions
  import opened Receipts
  import opened Sums
  import opened Ledger
  import opened Balance

  /** Moving one position that was current before the move. */
  lemma Replaced(
      p: PoolData, p': PoolData, positions: Slots, i: nat, q: PositionData, q': PositionData,
      claimed: Receipt, fees: Receipt, vault0: int, vault1: int, reward0: int, reward1: int)
    requires i < |positions|
    requires Balanced(p, positions[i := Some(q)], claimed, vault0, vault1)
    requires Moves(p, q, p', q', fees, reward0, reward1)
    ensures Balanced(
              p', positions[i := Some(q')], Plus(claimed, fees), vault0 - reward0, vault1 - reward1)
  {
    hide Balanced, Moves;
    MoveKeeps(
      p, p', positions[i := Some(q)], i, q', claimed, fees, vault0, vault1, reward0, reward1);
    assert positions[i := Some(q)][i := Some(q')] == positions[i := Some(q')];
  }

  lemma NothingPaid(claimed: Receipt)
    ensures Plus(claimed, NOTHING) == claimed
  {
  }

  lemma AccrueKeeps(
      p: PoolData, positions: Slots, i: nat, claimed: Receipt, vault0: int, vault1: int, now: U64)
    requires i < |positions| && positions[i].Some?
    requires Balanced(p, positions, claimed, vault0, vault1)
    requires Accrue(p, positions[i].value, now).Ok?
    ensures var q := positions[i].value;
            var r := Accrue(p, q, now).value;
            && Balanced(r.pool, positions[i := Some(r.position)], claimed, vault0, vault1)
            && RewardsCurrent(r.pool, r.position)
            && r.pool == p.(rewards := r.pool.rewards)
            && r.position == q.(rewards := r.position.rewards)
  {
    hide LiquidityAgrees, FeesConserved, RewardsBacked, UpdateReward, Backing, Moves;
    var q := positions[i].value;
    assert positions[i := Some(q)] == positions;
    NothingPaid(claimed);
    if PoolRewardInitialized(p) {
      var p1 := UpdateRewards(p, now).value;
      UpdateRewardsKeeps(p, positions, claimed, vault0, vault1, now);
      BehindAt(p1, positions, i, claimed, vault0, vault1);
      UpdatePositionRewardMoves(p1, q);
      MoveKeeps(
        p1, p1, positions, i, UpdatePositionReward(q, p1.rewards).value, claimed, NOTHING, vault0,
        vault1, 0, 0);
    } else {
      BehindAt(p, positions, i, claimed, vault0, vault1);
    }
  }

  /** Bringing the fees of an accrued position up to date leaves it current in every respect. */
  lemma UpdateFeeKeeps(
      p: PoolData, positions: Slots, i: nat, q: PositionData, claimed: Receipt, vault0: int, vault1: int)
    requires i < |positions| && Balanced(p, positions[i := Some(q)], claimed, vault0, vault1)
    requires UpdateFee(q, p.a.perLiquidity, p.b.perLiquidity).Ok?
    ensures var q' := UpdateFee(q, p.a.perLiquidity, p.b.perLiquidity).value;
            && Balanced(p, positions[i := Some(q')], claimed, vault0, vault1)
            && FeesCurrent(p, q') && q' == q.(a := q'.a, b := q'.b)
            && (RewardsCurrent(p, q) ==> RewardsCurrent(p, q'))
            && Behind(p, q')
  {
    hide Balanced, Moves, UpdateFee;
    BehindAt(p, positions[i := Some(q)], i, claimed, vault0, vault1);
    UpdateFeeMoves(p, q);
    NothingPaid(claimed);
    Replaced(
      p, p, positions, i, q, UpdateFee(q, p.a.perLiquidity, p.b.perLiquidity).value, claimed, NOTHING,
      vault0, vault1, 0, 0);
  }

  lemma ApplyAddKeeps(
      p: PoolData, positions: Slots, i: nat, q: PositionData, delta: U128, claimed: Receipt, vault0: int,
      vault1: int)
    requires i < |positions| && Balanced(p, positions[i := Some(q)], claimed, vault0, vault1)
    requires RewardsCurrent(p, q) && ApplyAdd(p, q, delta).Ok?
    ensures var r := ApplyAdd(p, q, delta).value;
            && Balanced(r.pool, positions[i := Some(r.position)], claimed, vault0, vault1)
            && r.pool == p.(liquidity := p.liquidity + delta)
            && r.position.vestedLiquidity == q.vestedLiquidity
  {
    hide Balanced, Moves, UpdateFee;
    UpdateFeeKeeps(p, positions, i, q, claimed, vault0, vault1);
    var q1 := UpdateFee(q, p.a.perLiquidity, p.b.perLiquidity).value;
    var r := ApplyAdd(p, q, delta).value;
    ResizeMoves(p, q1, r.pool, r.position);
    NothingPaid(claimed);
    Replaced(p, r.pool, positions, i, q1, r.position, claimed, NOTHING, vault0, vault1, 0, 0);
  }

  lemma ApplyRemoveKeeps(
      p: PoolData, positions: Slots, i: nat, q: PositionData, delta: U128, claimed: Receipt, vault0: int,
      vault1: int)
    requires i < |positions| && Balanced(p, positions[i := Some(q)], claimed, vault0, vault1)
    requires RewardsCurrent(p, q) && ApplyRemove(p, q, delta).Ok?
    ensures var r := ApplyRemove(p, q, delta).value;
            && Balanced(r.pool, positions[i := Some(r.position)], claimed, vault0, vault1)
            && r.pool == p.(liquidity := r.pool.liquidity) && r.pool.liquidity == p.liquidity - delta
            && r.position.vestedLiquidity == q.vestedLiquidity
  {
    hide Balanced, Moves, UpdateFee;
    UpdateFeeKeeps(p, positions, i, q, claimed, vault0, vault1);
    var q1 := UpdateFee(q, p.a.perLiquidity, p.b.perLiquidity).value;
    var r := ApplyRemove(p, q, delta).value;
    ResizeMoves(p, q1, r.pool, r.position);
    NothingPaid(claimed);
    Replaced(p, r.pool, positions, i, q1, r.position, claimed, NOTHING, vault0, vault1, 0, 0);
  }

  lemma AddedKeeps(
      p: PoolData, positions: Slots, i: nat, claimed: Receipt, vault0: int, vault1: int, now: U64,
      delta: U128, thresholds: Amounts)
    requires i < |positions| && positions[i].Some?
    requires Balanced(p, positions, claimed, vault0, vault1)
    requires AddedLiquidity(p, positions[i].value, now, delta, thresholds).Ok?
    ensures var q := positions[i].value;
            var r := AddedLiquidity(p, q, now, delta, thresholds).value;
            && Balanced(r.pool, positions[i := Some(r.position)], claimed, vault0, vault1)
            && r.pool == p.(liquidity := r.pool.liquidity, rewards := r.pool.rewards)
            && r.pool.liquidity == p.liquidity + delta
            && AmountsForLiquidity(p, delta, Up) == Ok(r.amounts)
            && r.position.vestedLiquidity == q.vestedLiquidity
  {
    hide Balanced, Accrue, ApplyAdd;
    AccrueKeeps(p, positions, i, claimed, vault0, vault1, now);
    var accrued := Accrue(p, positions[i].value, now).value;
    ApplyAddKeeps(accrued.pool, positions, i, accrued.position, delta, claimed, vault0, vault1);
  }

  lemma RemovedKeeps(
      p: PoolData, positions: Slots, i: nat, claimed: Receipt, vault0: int, vault1: int, now: U64,
      requested: Option<U128>, thresholds: Amounts)
    returns (delta: U128)
    requires i < |positions| && positions[i].Some?
    requires Balanced(p, positions, claimed, vault0, vault1)
    requires RemovedLiquidity(p, positions[i].value, now, requested, thresholds).Ok?
    ensures var q := positions[i].value;
            var r := RemovedLiquidity(p, q, now, requested, thresholds).value;
            && Balanced(r.pool, positions[i := Some(r.position)], claimed, vault0, vault1)
            && r.pool == p.(liquidity := r.pool.liquidity, rewards := r.pool.rewards)
            && r.pool.liquidity == p.liquidity - delta
            && AmountsForLiquidity(p, delta, Down) == Ok(r.amounts)
            && r.position.vestedLiquidity == q.vestedLiquidity
  {
    hide Balanced, Accrue, ApplyRemove;
    var q := positions[i].value;
    delta := if requested.Some? then requested.value else q.unlockedLiquidity;
    AccrueKeeps(p, positions, i, claimed, vault0, vault1, now);
    var accrued := Accrue(p, q, now).value;
    ApplyRemoveKeeps(accrued.pool, positions, i, accrued.position, delta, claimed, vault0, vault1);
  }

  lemma FeesOfKeeps(
      p: PoolData, positions: Slots, i: nat, claimed: Receipt, vault0: int, vault1: int)
    requires i < |positions| && positions[i].Some?
    requires Balanced(p, positions, claimed, vault0, vault1)
    requires FeesOf(p, positions[i].value).Ok?
    ensures var taken := FeesOf(p, positions[i].value).value;
            && Balanced(
                 p, positions[i := Some(taken.position)], Plus(claimed, Receipt(taken.paid.a, taken.paid.b)),
                 vault0, vault1)
            && taken.position.vestedLiquidity == positions[i].value.vestedLiquidity
  {
    hide Balanced, Moves, UpdateFee;
    var q := positions[i].value;
    assert positions[i := Some(q)] == positions;
    UpdateFeeKeeps(p, positions, i, q, claimed, vault0, vault1);
    var q1 := UpdateFee(q, p.a.perLiquidity, p.b.perLiquidity).value;
    TakeFeesMoves(p, q1);
    Replaced(
      p, p, positions, i, q1, TakeFees(q1).value, claimed, Receipt(q1.a.pending, q1.b.pending), vault0,
      vault1, 0, 0);
  }

  function OnIndex(index: nat, at: nat, amount: int): int {
    if index == at then amount else 0
  }

  lemma TakeRewardMoves(p: PoolData, q: PositionData, index: nat, paid: nat)
    requires Behind(p, q) && index < NUM_REWARDS && paid <= PendingReward(q, index)
    ensures Moves(
              p, q, p, TakeRewardAt(q, index), NOTHING, OnIndex(index, 0, paid), OnIndex(index, 1, paid))
  {
  }

  lemma RewardOfKeeps(
      p: PoolData, positions: Slots, i: nat, claimed: Receipt, vault0: int, vault1: int, index: nat,
      frozen: bool, skip: bool, now: U64)
    requires i < |positions| && positions[i].Some?
    requires Balanced(p, positions, claimed, vault0, vault1)
    requires RewardOf(p, positions[i].value, index, frozen, skip, now).Ok?
    ensures index < NUM_REWARDS
    ensures var taken := RewardOf(p, positions[i].value, index, frozen, skip, now).value;
            && Balanced(
                 taken.pool, positions[i := Some(taken.position)], claimed,
                 vault0 - OnIndex(index, 0, taken.paid), vault1 - OnIndex(index, 1, taken.paid))
            && taken.pool == p.(rewards := taken.pool.rewards)
            && taken.position.vestedLiquidity == positions[i].value.vestedLiquidity
  {
    hide Balanced, Moves, Accrue;
    AccrueKeeps(p, positions, i, claimed, vault0, vault1, now);
    var accrued := Accrue(p, positions[i].value, now).value;
    var taken := RewardOf(p, positions[i].value, index, frozen, skip, now).value;
    BehindAt(accrued.pool, positions[i := Some(accrued.position)], i, claimed, vault0, vault1);
    TakeRewardMoves(accrued.pool, accrued.position, index, taken.paid);
    NothingPaid(claimed);
    Replaced(
      accrued.pool, accrued.pool, positions, i, accrued.position, taken.position, claimed, NOTHING,
      vault0, vault1, OnIndex(index, 0, taken.paid), OnIndex(index, 1, taken.paid));
  }

  /** A position whose liquidity is only relabelled. */
  lemma RelabelKeeps(
      p: PoolData, p': PoolData, positions: Slots, i: nat, q': PositionData, claimed: Receipt,
      vault0: int, vault1: int)
    requires i < |positions| && positions[i].Some?
    requires Balanced(p, positions, claimed, vault0, vault1)
    requires SameAccounts(positions[i].value, q') && Liquidity(q') == Liquidity(positions[i].value)
    requires p' == p.(permanentLockLiquidity := p'.permanentLockLiquidity)
    requires p'.permanentLockLiquidity
             == p.permanentLockLiquidity + q'.permanentLockedLiquidity
                - positions[i].value.permanentLockedLiquidity
    ensures Balanced(p', positions[i := Some(q')], claimed, vault0, vault1)
  {
    hide Balanced, Moves;
    BehindAt(p, positions, i, claimed, vault0, vault1);
    RelabelMoves(p, positions[i].value, p', q');
    NothingPaid(claimed);
    MoveKeeps(p, p', positions, i, q', claimed, NOTHING, vault0, vault1, 0, 0);
  }

  // ----- Opening and closing -----

  /** Holds nothing and has never been owed anything. */
  ghost predicate Blank(q: PositionData) {
    && Liquidity(q) == 0 && q.permanentLockedLiquidity == 0 && q.vestedLiquidity == 0
    && q.a == NO_FEE_YET && q.b == NO_FEE_YET
    && q.rewards[0] == UserReward(0, 0, 0) && q.rewards[1] == UserReward(0, 0, 0)
  }

  lemma OpenKeepsLiquidity(positions: Slots, q: PositionData, liquidity: int, permanent: int)
    requires Blank(q) && LiquidityAgrees(positions, liquidity, permanent)
    ensures LiquidityAgrees(positions + [Some(q)], liquidity, permanent)
  {
    SumAppend(positions, Some(q), LiquidityWeight());
    SumAppend(positions, Some(q), PermanentWeight());
  }

  lemma OpenKeepsFees(
      positions: Slots, q: PositionData, token: Token, stored: nat, totalLp: int, claimed: int)
    requires Blank(q) && FeesConserved(positions, token, stored, totalLp, claimed)
    ensures FeesConserved(positions + [Some(q)], token, stored, totalLp, claimed)
  {
    SumAppend(positions, Some(q), FeeWeight(token, stored));
  }

  lemma OpenKeepsStream(positions: Slots, q: PositionData, index: nat, r: RewardData, vault: int)
    requires index < NUM_REWARDS && Blank(q) && StreamBooks(positions, index, r, vault)
    ensures StreamBooks(positions + [Some(q)], index, r, vault)
  {
    hide Backing;
    SumAppend(positions, Some(q), RewardWeight(index, r.rewardPerTokenStored));
  }

  /** Opening a position without liquidity. */
  lemma OpenKeeps(
      p: PoolData, positions: Slots, q: PositionData, claimed: Receipt, vault0: int, vault1: int)
    requires Blank(q) && Balanced(p, positions, claimed, vault0, vault1)
    ensures Balanced(p, positions + [Some(q)], claimed, vault0, vault1)
  {
    hide FeesConserved, StreamBooks, LiquidityAgrees, Blank;
    OpenKeepsLiquidity(positions, q, p.liquidity, p.permanentLockLiquidity);
    OpenKeepsFees(positions, q, Token.A, p.a.perLiquidity, p.a.totalLpFee, claimed.a);
    OpenKeepsFees(positions, q, Token.B, p.b.perLiquidity, p.b.totalLpFee, claimed.b);
    OpenKeepsStream(positions, q, 0, p.rewards[0], vault0);
    OpenKeepsStream(positions, q, 1, p.rewards[1], vault1);
  }

  lemma NewIsBlank()
    ensures Blank(NewPosition(0))
  {
  }

  /** A closed position was owed nothing. */
  lemma CloseKeeps(p: PoolData, positions: Slots, i: nat, claimed: Receipt, vault0: int, vault1: int)
    requires i < |positions| && positions[i].Some? && IsEmpty(positions[i].value) == Ok(true)
    requires Balanced(p, positions, claimed, vault0, vault1)
    ensures Balanced(p, positions[i := None], claimed, vault0, vault1)
    ensures positions[i].value.vestedLiquidity == 0
  {
    hide Backing;
    SumReplace(positions, i, None, LiquidityWeight());
    SumReplace(positions, i, None, PermanentWeight());
    SumReplace(positions, i, None, FeeWeight(Token.A, p.a.perLiquidity));
    SumReplace(positions, i, None, FeeWeight(Token.B, p.b.perLiquidity));
    SumReplace(positions, i, None, RewardWeight(0, p.rewards[0].rewardPerTokenStored));
    SumReplace(positions, i, None, RewardWeight(1, p.rewards[1].rewardPerTokenStored));
  }

  // ----- The pool alone -----

  lemma SwapLaneKeeps(
      positions: Slots, token: Token, lane: FeeLane, f: SplitFees, liquidity: U128, permanent: int,
      claimed: int)
    requires ShlDiv256(f.trading, liquidity).Ok?
    requires LaneAfterSwap(lane, f, ShlDiv256(f.trading, liquidity).value).Ok?
    requires LiquidityAgrees(positions, liquidity, permanent)
    requires FeesConserved(positions, token, lane.perLiquidity, lane.totalLpFee, claimed)
    ensures var lane' := LaneAfterSwap(lane, f, ShlDiv256(f.trading, liquidity).value).value;
            FeesConserved(positions, token, lane'.perLiquidity, lane'.totalLpFee, claimed)
  {
    hide FeesConserved, LiquidityAgrees;
    GrowFees(
      positions, token, lane.perLiquidity, ShlDiv256(f.trading, liquidity).value, lane.totalLpFee,
      f.trading, claimed, liquidity, permanent);
  }

  lemma SwapKeeps(
      p: PoolData, positions: Slots, claimed: Receipt, vault0: int, vault1: int, r: SwapResult, m: FeeMode,
      now: U64)
    requires Balanced(p, positions, claimed, vault0, vault1) && ApplySwap(p, r, m, now).Ok?
    ensures Balanced(ApplySwap(p, r, m, now).value, positions, claimed, vault0, vault1)
  {
    hide FeesConserved, LiquidityAgrees, StreamBooks, LaneAfterSwap, ShlDiv256;
    if m.feesOnTokenA {
      SwapLaneKeeps(positions, Token.A, p.a, r.fees, p.liquidity, p.permanentLockLiquidity, claimed.a);
    } else {
      SwapLaneKeeps(positions, Token.B, p.b, r.fees, p.liquidity, p.permanentLockLiquidity, claimed.b);
    }
  }

  /** A stream whose promises grow by at most what its vault gains. */
  lemma StreamKeeps(positions: Slots, index: nat, r: RewardData, r': RewardData, vault: int, gain: int)
    requires index < NUM_REWARDS && StreamBooks(positions, index, r, vault)
    requires Rewards.WellFormed(r') && r'.rewardPerTokenStored == r.rewardPerTokenStored
    requires Backing(r') <= Backing(r) + gain * TWO_192
    ensures StreamBooks(positions, index, r', vault + gain)
  {
    hide Backing;
  }

  lemma WithStreamKeeps(
      p: PoolData, positions: Slots, claimed: Receipt, vault0: int, vault1: int, index: nat,
      r': RewardData, gain: int)
    requires index < NUM_REWARDS && Balanced(p, positions, claimed, vault0, vault1)
    requires Rewards.WellFormed(r') && r'.rewardPerTokenStored == StreamAt(p, index).rewardPerTokenStored
    requires Backing(r') <= Backing(StreamAt(p, index)) + gain * TWO_192
    ensures Balanced(
              WithStream(p, index, r'), positions, claimed, vault0 + OnIndex(index, 0, gain),
              vault1 + OnIndex(index, 1, gain))
  {
    hide FeesConserved, LiquidityAgrees, StreamBooks, Backing;
    StreamKeeps(
      positions, index, StreamAt(p, index), r', if index == 0 then vault0 else vault1, gain);
  }

  lemma RewardFundedKeeps(
      p: PoolData, positions: Slots, claimed: Receipt, vault0: int, vault1: int, index: nat, amount: U64,
      carryForward: bool, now: U64)
    requires Balanced(p, positions, claimed, vault0, vault1)
    requires RewardFunded(p, index, amount, carryForward, now).Ok?
    ensures index < NUM_REWARDS
    ensures var p' := RewardFunded(p, index, amount, carryForward, now).value;
            && Balanced(
                 p', positions, claimed, vault0 + OnIndex(index, 0, amount),
                 vault1 + OnIndex(index, 1, amount))
            && p' == p.(rewards := p'.rewards)
  {
    hide Balanced, Fund, Backing, UpdateReward;
    UpdateRewardsKeeps(p, positions, claimed, vault0, vault1, now);
    var p1 := UpdateRewards(p, now).value;
    StreamUpdated(p, positions, claimed, vault0, vault1, index, now);
    FundConserves(StreamAt(p1, index), now, amount, carryForward);
    WithStreamKeeps(
      p1, positions, claimed, vault0, vault1, index,
      Fund(StreamAt(p1, index), now, amount, carryForward).value, amount);
  }

  lemma StreamUpdated(
      p: PoolData, positions: Slots, claimed: Receipt, vault0: int, vault1: int, index: nat, now: U64)
    requires Balanced(p, positions, claimed, vault0, vault1) && UpdateRewards(p, now).Ok?
    requires index < NUM_REWARDS && StreamAt(p, index).initialized
    ensures var r := StreamAt(UpdateRewards(p, now).value, index);
            Rewards.WellFormed(r) && r.initialized && r.lastUpdateTime == Min(now, r.rewardDurationEnd)
  {
    hide FeesConserved, LiquidityAgrees, RewardsBacked, Backing, UpdateReward;
    UpdateConserves(StreamAt(p, index), p.liquidity, now);
  }

  lemma IneligibleKeeps(
      p: PoolData, positions: Slots, claimed: Receipt, vault0: int, vault1: int, index: nat, now: U64)
    requires Balanced(p, positions, claimed, vault0, vault1) && IneligibleOf(p, index, now).Ok?
    ensures index < NUM_REWARDS
    ensures var taken := IneligibleOf(p, index, now).value;
            && Balanced(
                 taken.pool, positions, claimed, vault0 + OnIndex(index, 0, 0 - taken.paid),
                 vault1 + OnIndex(index, 1, 0 - taken.paid))
            && taken.pool == p.(rewards := taken.pool.rewards)
  {
    hide Balanced, Ineligible, Backing, UpdateReward;
    UpdateRewardsKeeps(p, positions, claimed, vault0, vault1, now);
    StreamUpdated(p, positions, claimed, vault0, vault1, index, now);
    var r := StreamAt(UpdateRewards(p, now).value, index);
    IneligibleConserves(r);
    WithStreamKeeps(
      UpdateRewards(p, now).value, positions, claimed, vault0, vault1, index,
      r.(cumulativeSecondsWithEmptyLiquidityReward := 0), 0 - Ineligible(r).value);
  }

  /** Initializing a stream or changing its duration promises nothing new. */
  lemma DurationKeeps(
      p: PoolData, positions: Slots, claimed: Receipt, vault0: int, vault1: int, index: nat, duration: U64)
    requires Balanced(p, positions, claimed, vault0, vault1) && index < NUM_REWARDS
    ensures Balanced(
              WithStream(
                p, index, StreamAt(p, index).(initialized := true, rewardDuration := duration)),
              positions, claimed, vault0, vault1)
  {
    hide FeesConserved, LiquidityAgrees, RewardsBacked, Backing;
    DurationBacking(StreamAt(p, index), duration);
    WithStreamKeeps(
      p, positions, claimed, vault0, vault1, index,
      StreamAt(p, index).(initialized := true, rewardDuration := duration), 0);
  }

  lemma DurationBacking(r: RewardData, duration: U64)
    ensures Backing(r.(initialized := true, rewardDuration := duration)) == Backing(r)
  {
  }
}

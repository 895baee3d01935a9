/** Exactly when a position can take its liquidity out. */
module Leaving {
  import opened Checked
  import opened Division
  import opened UtilsMath
  import opened Curve
  import opened PoolState
  import opened Rewards
  import opened Positions
  import opened Pools
  import opened Instructions
  import opened Receipts
  import opened Ledger
  import opened Solvency
  import opened Runs
  import opened Liveness

  // ----- Amounts -----

  lemma RoundedDownFits(x: nat, d: int, vault: U64)
    requires 0 < d && x <= vault * d
    ensures Fit64(Divide(x, d, Down)).Ok?
  {
    assert (vault + 1) * d == vault * d + d;
    FloorBelow(x, d, vault + 1);
  }

  /** What a vault covers of the reserve of all liquidity, it covers of the reserve of some. */
  lemma PartOfReserve(part: nat, whole: nat, distance: nat, cover: int)
    requires part <= whole && whole * distance <= cover
    ensures 0 <= part * distance <= cover
  {
    MulMono(part, whole, distance);
    MulMono(0, part, distance);
  }

  lemma AmountsFit(p: PoolData, part: U128, vaults: Vaults)
    requires PricesInRange(p) && part <= p.liquidity
    requires ReceiptA(p.liquidity, p.sqrtMaxPrice, p.sqrtPrice, vaults.a)
    requires ReceiptB(p.liquidity, p.sqrtMinPrice, p.sqrtPrice, vaults.b)
    ensures AmountsForLiquidity(p, part, Down).Ok?
    ensures Reserves(p.(liquidity := part)).Ok?
  {
    hide Divide;
    MulStrict(0, p.sqrtPrice, p.sqrtMaxPrice);
    assert p.sqrtMaxPrice * p.sqrtPrice == p.sqrtPrice * p.sqrtMaxPrice;
    PartOfReserve(
      part, p.liquidity, p.sqrtMaxPrice - p.sqrtPrice, vaults.a * (p.sqrtPrice * p.sqrtMaxPrice));
    RoundedDownFits(part * (p.sqrtMaxPrice - p.sqrtPrice), p.sqrtPrice * p.sqrtMaxPrice, vaults.a);
    PartOfReserve(part, p.liquidity, p.sqrtPrice - p.sqrtMinPrice, vaults.b * TWO_128);
    RoundedDownFits(part * (p.sqrtPrice - p.sqrtMinPrice), TWO_128, vaults.b);
  }

  /** The vaults themselves cover the exact reserves. */
  lemma VaultsCover(s: State)
    requires Invariant(s)
    ensures ReceiptA(s.pool.liquidity, s.pool.sqrtMaxPrice, s.pool.sqrtPrice, s.vaults.a)
    ensures ReceiptB(s.pool.liquidity, s.pool.sqrtMinPrice, s.pool.sqrtPrice, s.vaults.b)
  {
    hide Balanced, VestingsOpen, VestedAgrees, ReceiptA, ReceiptB, FeesConserved;
    BooksOf(s, Token.A);
    BooksOf(s, Token.B);
    var p := s.pool;
    ClaimedAtMostRecorded(s.positions, Token.A, p.a.perLiquidity, p.a.totalLpFee, s.claimed.a);
    ClaimedAtMostRecorded(s.positions, Token.B, p.b.perLiquidity, p.b.totalLpFee, s.claimed.b);
    MoreA(p.liquidity, p.sqrtMaxPrice, p.sqrtPrice, Free(s.vaults.a, p.a, s.claimed.a), s.vaults.a);
    MoreB(p.liquidity, p.sqrtMinPrice, p.sqrtPrice, Free(s.vaults.b, p.b, s.claimed.b), s.vaults.b);
  }

  /** The liquidity is worth at least one unit of a token at the pool's price. */
  ghost predicate WorthSomething(p: PoolData, delta: U128) {
    WithinA(delta, p.sqrtPrice, p.sqrtMaxPrice, 1) || WithinB(delta, p.sqrtMinPrice, p.sqrtPrice, 1)
  }

  lemma WorthIff(p: PoolData, delta: U128, amounts: Amounts)
    requires AmountsForLiquidity(p, delta, Down) == Ok(amounts)
    ensures amounts.a > 0 || amounts.b > 0 <==> WorthSomething(p, delta)
  {
    hide DeltaA, DeltaB, WithinA, WithinB;
    DeltaARounding(p.sqrtPrice, p.sqrtMaxPrice, delta, Down, 1);
    DeltaBRounding(p.sqrtMinPrice, p.sqrtPrice, delta, Down, 1);
  }

  // ----- Removing -----

  lemma AccrueLeavesFees(p: PoolData, q: PositionData, now: U64)
    requires Accrue(p, q, now).Ok?
    ensures var r := Accrue(p, q, now).value;
            && r.pool == p.(rewards := r.pool.rewards) && r.position == q.(rewards := r.position.rewards)
  {
    hide UpdateStreams, UserRewardFor;
  }

  lemma UpdateFeeLeavesLiquidity(q: PositionData, storedA: U256, storedB: U256)
    requires UpdateFee(q, storedA, storedB).Ok?
    ensures var q' := UpdateFee(q, storedA, storedB).value;
            q' == q.(a := q'.a, b := q'.b)
  {
    hide Credit;
  }

  lemma FeesIgnoreRewards(q: PositionData, q': PositionData, storedA: U256, storedB: U256)
    requires q' == q.(rewards := q'.rewards)
    ensures UpdateFee(q', storedA, storedB).Ok? == UpdateFee(q, storedA, storedB).Ok?
  {
    hide Credit;
  }

  lemma RemoveApplies(s: State, i: nat, delta: U128, now: U64)
    requires Reachable(s) && OpenPosition(s, i) && delta <= s.positions[i].value.unlockedLiquidity
    requires Accrue(s.pool, s.positions[i].value, now).Ok?
    ensures var r := Accrue(s.pool, s.positions[i].value, now).value;
            ApplyRemove(r.pool, r.position, delta).Ok? && delta <= s.pool.liquidity
  {
    hide Reachable, Accrue, UpdateFee, SwapReady, VestingsOpen, VestedAgrees, ReservesCovered, FeesConserved,
         StreamBooks, LiquidityAgrees;
    var q, r := s.positions[i].value, Accrue(s.pool, s.positions[i].value, now).value;
    ReachableHolds(s);
    LiquidityBounded(s.positions, i, s.pool.liquidity, s.pool.permanentLockLiquidity);
    FeesAlwaysUpdatable(s, i);
    AccrueLeavesFees(s.pool, q, now);
    FeesIgnoreRewards(q, r.position, s.pool.a.perLiquidity, s.pool.b.perLiquidity);
    UpdateFeeLeavesLiquidity(r.position, s.pool.a.perLiquidity, s.pool.b.perLiquidity);
  }

  const NO_THRESHOLDS := Amounts(0, 0)

  function Requested(s: State, i: nat, requested: Option<U128>): U128
    requires OpenPosition(s, i)
  {
    if requested.Some? then requested.value else s.positions[i].value.unlockedLiquidity
  }

  /** A position can accrue exactly when both streams have room. */
  lemma AccruesIff(s: State, i: nat, now: U64)
    requires Reachable(s) && OpenPosition(s, i) && s.time <= now
    ensures Accrue(s.pool, s.positions[i].value, now).Ok?
            <==> AccumulatorFits(s.pool.rewards[0], s.pool.liquidity, now)
                 && AccumulatorFits(s.pool.rewards[1], s.pool.liquidity, now)
  {
    hide Reachable, Accrue, NewReward;
    StreamsUpdatableIff(s, now);
    RewardsAlwaysUpdatable(s, i, now);
  }

  /** The computing part of a removal. */
  lemma RemovedIff(s: State, i: nat, requested: Option<U128>, now: U64)
    requires Reachable(s) && OpenPosition(s, i) && s.time <= now
    ensures var delta, q := Requested(s, i, requested), s.positions[i].value;
            var r := RemovedLiquidity(s.pool, q, now, requested, NO_THRESHOLDS);
            && (r.Ok? <==>
                  && 0 < delta <= q.unlockedLiquidity && WorthSomething(s.pool, delta)
                  && AccumulatorFits(s.pool.rewards[0], s.pool.liquidity, now)
                  && AccumulatorFits(s.pool.rewards[1], s.pool.liquidity, now))
            && (r.Ok? ==>
                  && r.value.pool
                     == s.pool.(rewards := r.value.pool.rewards, liquidity := r.value.pool.liquidity)
                  && r.value.pool.liquidity == s.pool.liquidity - delta
                  && AmountsForLiquidity(s.pool, delta, Down) == Ok(r.value.amounts))
  {
    hide Reachable, Invariant, Accrue, ApplyRemove, AmountsForLiquidity, AccumulatorFits, WorthSomething,
         PricesInRange, ReceiptA, ReceiptB, Reserves;
    var delta, q := Requested(s, i, requested), s.positions[i].value;
    ReachableHolds(s);
    AccruesIff(s, i, now);
    if 0 < delta <= q.unlockedLiquidity && Accrue(s.pool, q, now).Ok? {
      RemoveApplies(s, i, delta, now);
      RemovedPool(s.pool, q, delta, now);
      VaultsCover(s);
      InvariantPrices(s);
      AmountsFit(s.pool, delta, s.vaults);
      SameAmounts(s.pool, Accrue(s.pool, q, now).value.pool, delta);
      WorthIff(s.pool, delta, AmountsForLiquidity(s.pool, delta, Down).value);
    }
  }

  lemma RemovedPool(p: PoolData, q: PositionData, delta: U128, now: U64)
    requires Accrue(p, q, now).Ok?
    ensures var r := Accrue(p, q, now).value;
            && r.pool == p.(rewards := r.pool.rewards)
            && (ApplyRemove(r.pool, r.position, delta).Ok? ==>
                  ApplyRemove(r.pool, r.position, delta).value.pool
                  == p.(rewards := r.pool.rewards, liquidity := p.liquidity - delta))
  {
    hide Accrue, UpdateFee;
    AccrueLeavesFees(p, q, now);
  }

  lemma InvariantPrices(s: State)
    requires Invariant(s)
    ensures PricesInRange(s.pool)
  {
    hide Balanced, VestingsOpen, VestedAgrees, ReservesCovered, PricesInRange;
  }

  lemma SameAmounts(p: PoolData, p': PoolData, delta: U128)
    requires p' == p.(rewards := p'.rewards)
    ensures AmountsForLiquidity(p', delta, Down) == AmountsForLiquidity(p, delta, Down)
  {
    hide DeltaA, DeltaB;
  }

  /** Without thresholds of its own a removal of liquidity goes through exactly when it asks for some,
      but no more than is unlocked, what it asks for is worth at least one unit of a token, and the
      streams can accrue. Nothing else, no fee, price or vault, can keep liquidity in the pool. */
  lemma RemovalPossibleIff(s: State, i: nat, requested: Option<U128>, now: U64)
    requires Reachable(s) && OpenPosition(s, i) && s.time <= now
    ensures var delta := Requested(s, i, requested);
            RemoveLiquidityStep(s, i, requested, NO_THRESHOLDS, now).Done?
            <==> && 0 < delta <= s.positions[i].value.unlockedLiquidity
                 && WorthSomething(s.pool, delta)
                 && AccumulatorFits(s.pool.rewards[0], s.pool.liquidity, now)
                 && AccumulatorFits(s.pool.rewards[1], s.pool.liquidity, now)
  {
    hide Reachable, Invariant, RemovedLiquidity, AccumulatorFits, WorthSomething, AmountsForLiquidity,
         Reserves, Accrue, PricesInRange, ReceiptA, ReceiptB, After;
    var delta, q := Requested(s, i, requested), s.positions[i].value;
    RemovedIff(s, i, requested, now);
    var r := RemovedLiquidity(s.pool, q, now, requested, NO_THRESHOLDS);
    if r.Ok? {
      ReachableHolds(s);
      StepFunded(s, Event(Action.RemoveLiquidity(i, requested, NO_THRESHOLDS), now, s.point));
      VaultsCover(s);
      InvariantPrices(s);
      AmountsFit(s.pool, s.pool.liquidity - delta, s.vaults);
      SameReserves(s.pool.(liquidity := s.pool.liquidity - delta), r.value.pool);
    }
  }

  lemma SameReserves(p: PoolData, p': PoolData)
    requires p' == p.(rewards := p'.rewards)
    ensures Reserves(p') == Reserves(p)
  {
    hide DeltaA, DeltaB;
  }
}

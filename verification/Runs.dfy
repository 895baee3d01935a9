/** What holds over every run of the ledger, from the creation of the pool on. */
module Runs {
  import opened Checked
  import opened UtilsMath
  import opened Curve
  import opened DynamicFee
  import opened Fees
  import opened PoolState
  import opened SwapProofs
  import opened Positions
  import opened Pools
  import opened Instructions
  import opened Receipts
  import opened Sums
  import opened Ledger
  import opened Balance
  import opened Solvency
  import opened VestingsKept
  import opened ClocksKept
  import opened Safety

  // ----- The initial state -----

  lemma SumOfOne(q: PositionData, f: PositionData -> int)
    ensures Sum([Some(q)], f) == f(q)
  {
    assert [Some(q)][1..] == [];
  }

  lemma FirstLiquidity(q: PositionData)
    ensures LiquidityAgrees([Some(q)], Liquidity(q), q.permanentLockedLiquidity)
  {
    SumOfOne(q, LiquidityWeight());
    SumOfOne(q, PermanentWeight());
  }

  lemma FirstFees(q: PositionData, token: Token)
    requires LaneOf(q, token) == NO_FEE_YET
    ensures FeesConserved([Some(q)], token, 0, 0, 0)
  {
    SumOfOne(q, FeeWeight(token, 0));
  }

  lemma FirstStream(q: PositionData, index: nat)
    requires index < NUM_REWARDS && q.rewards[index] == UserReward(0, 0, 0)
    ensures StreamBooks([Some(q)], index, NO_REWARD, 0)
  {
    SumOfOne(q, RewardWeight(index, 0));
  }

  /** The books of a new pool whose first position holds all its liquidity. */
  lemma FirstBalanced(p: PoolData, q: PositionData)
    requires Liquidity(q) == p.liquidity && q.permanentLockedLiquidity == 0 == p.permanentLockLiquidity
    requires p.a == FeeLane(0, 0, 0, 0, 0, 0) && p.b == FeeLane(0, 0, 0, 0, 0, 0)
    requires q.a == NO_FEE_YET && q.b == NO_FEE_YET
    requires p.rewards[0] == NO_REWARD && p.rewards[1] == NO_REWARD
    requires q.rewards[0] == UserReward(0, 0, 0) && q.rewards[1] == UserReward(0, 0, 0)
    ensures Balanced(p, [Some(q)], Receipt(0, 0), 0, 0)
  {
    hide LiquidityAgrees, FeesConserved, StreamBooks, Liquidity;
    FirstLiquidity(q);
    FirstFees(q, Token.A);
    FirstFees(q, Token.B);
    FirstStream(q, 0);
    FirstStream(q, 1);
  }

  lemma FirstCovered(p: PoolData, amounts: Amounts, held: Receipt)
    requires AmountsForLiquidity(p, p.liquidity, Up) == Ok(amounts)
    requires p.a == FeeLane(0, 0, 0, 0, 0, 0) && p.b == FeeLane(0, 0, 0, 0, 0, 0)
    requires amounts.a <= held.a && amounts.b <= held.b
    ensures ReservesCovered(p, held, Receipt(0, 0))
  {
    hide AmountsForLiquidity;
    AmountsUp(p, p.liquidity, amounts);
    MoreA(p.liquidity, p.sqrtMaxPrice, p.sqrtPrice, amounts.a, held.a);
    MoreB(p.liquidity, p.sqrtMinPrice, p.sqrtPrice, amounts.b, held.b);
  }

  lemma MoreB(liquidity: nat, s: nat, t: nat, d: int, e: int)
    requires ReceiptB(liquidity, s, t, d) && d <= e
    ensures ReceiptB(liquidity, s, t, e)
  {
  }

  lemma NewPoolReady(c: PoolParameters)
    requires ValidatePool(c).Ok?
    ensures SwapReady(NewPool(c))
  {
    hide ValidateBaseFee;
  }

  lemma NoVesting(q: PositionData, position: nat)
    requires q.vestedLiquidity == 0
    ensures VestedAgrees([Some(q)], []) && VestingsOpen([], position, 0)
  {
  }

  /** Every pool the program creates starts in a state that satisfies the invariant. */
  lemma InitialHolds(c: PoolParameters, time: U64, point: U64)
    requires InitializePool(c).Done?
    ensures Invariant(Initial(InitializePool(c).value, time, point))
  {
    hide Balanced, SwapReady, ReservesCovered, ValidatePool, AmountsForLiquidity, VestedAgrees;
    var r := PoolInitialized(c).value;
    DepositBothAdds(Vaults(0, 0), r.amounts);
    NewPoolReady(c);
    NoVesting(r.position, 1);
    FirstBalanced(r.pool, r.position);
    FirstCovered(
      r.pool, AmountsForLiquidity(NewPool(c), c.liquidity, Up).value,
      Held(InitializePool(c).value.vaults));
  }

  // ----- All runs -----

  lemma StepFunded(s: State, e: Event)
    requires Invariant(s) && s.point <= e.point
    ensures Holds(After(s, e), e.point) && !Step(s, e).Unfunded?
  {
    hide Balanced, SwapReady, ReservesCovered, VestedAgrees, VestingsOpen, Step;
    LaterOpen(s.vestings, |s.positions|, |s.positions|, s.point, e.point);
    StepSafe(s, e);
  }

  lemma AfterHolds(s: State, e: Event)
    requires Invariant(s) && s.time <= e.time && s.point <= e.point
    ensures Invariant(After(s, e))
  {
    hide Holds, Step, ClockBehind;
    StepFunded(s, e);
    if Step(s, e).Done? {
      StepClocks(s, e);
    } else {
      SameStreams(s.pool, s.pool, s.time, e.time);
    }
  }

  lemma {:induction false} RunHolds(s: State, events: seq<Event>)
    requires Invariant(s) && Ascending(s, events)
    ensures Invariant(Run(s, events))
    decreases |events|
  {
    hide Invariant, After;
    if events != [] {
      AfterHolds(s, events[0]);
      RunHolds(After(s, events[0]), events[1..]);
    }
  }

  /** Holds of every new pool and is kept by every step on clocks that do not run backwards. */
  ghost predicate Inductive(P: State -> bool) {
    && (forall c: PoolParameters, time: U64, point: U64 :: InitializePool(c).Done? ==>
          P(Initial(InitializePool(c).value, time, point)))
    && (forall s: State, e: Event :: P(s) && s.time <= e.time && s.point <= e.point ==> P(After(s, e)))
  }

  /** The states the machine can get into: those that have every inductive property. `ReachableByRun`
      shows that these are exactly the states at the end of a run. */
  ghost predicate Reachable(s: State) {
    forall P: State -> bool :: Inductive(P) ==> P(s)
  }

  /** A state that a run of a pool leads to. */
  ghost predicate Reaches(c: PoolParameters, time: U64, point: U64, events: seq<Event>, s: State) {
    && InitializePool(c).Done?
    && Ascending(Initial(InitializePool(c).value, time, point), events)
    && s == Run(Initial(InitializePool(c).value, time, point), events)
  }

  ghost function EndOfRun(): State -> bool {
    (s: State) => exists c: PoolParameters, time: U64, point: U64, events: seq<Event> ::
      Reaches(c, time, point, events, s)
  }

  lemma {:induction false} RunOneMore(s: State, events: seq<Event>, e: Event)
    requires Ascending(s, events) && Run(s, events).time <= e.time && Run(s, events).point <= e.point
    ensures Ascending(s, events + [e]) && Run(s, events + [e]) == After(Run(s, events), e)
    decreases |events|
  {
    hide After;
    if events == [] {
      assert events + [e] == [e];
    } else {
      assert (events + [e])[1..] == events[1..] + [e];
      RunOneMore(After(s, events[0]), events[1..], e);
    }
  }

  lemma EndOfRunInductive()
    ensures Inductive(EndOfRun())
  {
    hide InitializePool, After, Run, Ascending;
    forall c: PoolParameters, time: U64, point: U64 | InitializePool(c).Done?
      ensures EndOfRun()(Initial(InitializePool(c).value, time, point))
    {
      EmptyRun(Initial(InitializePool(c).value, time, point));
      assert Reaches(c, time, point, [], Initial(InitializePool(c).value, time, point));
    }
    forall s: State, e: Event | EndOfRun()(s) && s.time <= e.time && s.point <= e.point
      ensures EndOfRun()(After(s, e))
    {
      var c, time, point, events :| Reaches(c, time, point, events, s);
      RunOneMore(Initial(InitializePool(c).value, time, point), events, e);
      assert Reaches(c, time, point, events + [e], After(s, e));
    }
  }

  lemma EmptyRun(s: State)
    ensures Ascending(s, []) && Run(s, []) == s
  {
  }

  lemma {:induction false} RunKeepsInductive(P: State -> bool, s: State, events: seq<Event>)
    requires Inductive(P) && P(s) && Ascending(s, events)
    ensures P(Run(s, events))
    decreases |events|
  {
    hide InitializePool, After;
    if events != [] {
      RunKeepsInductive(P, After(s, events[0]), events[1..]);
    }
  }

  /** The reachable states are exactly the ends of runs. */
  lemma ReachableByRun(s: State)
    ensures Reachable(s) <==> EndOfRun()(s)
  {
    hide InitializePool, After, Run, Ascending, Inductive;
    EndOfRunInductive();
    if EndOfRun()(s) {
      var c, time, point, events :| Reaches(c, time, point, events, s);
      forall P: State -> bool | Inductive(P) ensures P(s) {
        StartHas(P, c, time, point);
        RunKeepsInductive(P, Initial(InitializePool(c).value, time, point), events);
      }
    }
  }

  lemma StartHas(P: State -> bool, c: PoolParameters, time: U64, point: U64)
    requires Inductive(P) && InitializePool(c).Done?
    ensures P(Initial(InitializePool(c).value, time, point))
  {
    hide InitializePool, After, Initial;
  }

  lemma NewReachable(c: PoolParameters, time: U64, point: U64)
    requires InitializePool(c).Done?
    ensures Reachable(Initial(InitializePool(c).value, time, point))
  {
    hide InitializePool, Initial, Inductive;
    forall P: State -> bool | Inductive(P) ensures P(Initial(InitializePool(c).value, time, point)) {
      StartHas(P, c, time, point);
    }
  }

  lemma StepReaches(s: State, e: Event)
    requires Reachable(s) && s.time <= e.time && s.point <= e.point
    ensures Reachable(After(s, e))
  {
    hide InitializePool, After, Initial;
  }

  ghost function InvariantProperty(): State -> bool {
    (s: State) => Invariant(s)
  }

  lemma InvariantInductive()
    ensures Inductive(InvariantProperty())
  {
    hide InitializePool, After, Initial, Invariant, Step;
    forall c: PoolParameters, time: U64, point: U64 | InitializePool(c).Done?
      ensures InvariantProperty()(Initial(InitializePool(c).value, time, point))
    {
      InitialHolds(c, time, point);
    }
    forall s: State, e: Event | InvariantProperty()(s) && s.time <= e.time && s.point <= e.point
      ensures InvariantProperty()(After(s, e))
    {
      AfterHolds(s, e);
    }
  }

  /** The invariant holds in every reachable state: liquidity ledgers agree, fees and rewards are
      conserved, both vaults cover the exact reserves, the price is in range, the dynamic fee is
      bounded, and vestings are in step. */
  lemma ReachableHolds(s: State)
    requires Reachable(s)
    ensures Invariant(s)
  {
    hide Invariant, Inductive;
    InvariantInductive();
    assert InvariantProperty()(s);
  }

  /** No claim, withdrawal, swap or removal of liquidity ever finds a vault short. */
  lemma NeverUnfunded(s: State, e: Event)
    requires Reachable(s) && s.point <= e.point
    ensures !Step(s, e).Unfunded?
  {
    hide Invariant, Step, After;
    ReachableHolds(s);
    StepFunded(s, e);
  }

  // ----- Vault solvency in one inequality -----

  /** `reserve` is at least the exact amount of a token that the curve needs. */
  ghost predicate CoversReserve(p: PoolData, token: Token, reserve: int) {
    match token
    case A => CoversA(p.liquidity, p.sqrtPrice, p.sqrtMaxPrice, reserve)
    case B => CoversB(p.liquidity, p.sqrtMinPrice, p.sqrtPrice, reserve)
  }

  ghost function ClaimedOf(s: State, token: Token): int {
    if token.A? then s.claimed.a else s.claimed.b
  }

  lemma BooksOf(s: State, token: Token)
    requires Balanced(s.pool, s.positions, s.claimed, s.rewardVaults[0], s.rewardVaults[1])
    ensures var lane := PoolLane(s.pool, token);
            FeesConserved(
              s.positions, token, lane.perLiquidity, lane.totalLpFee, ClaimedOf(s, token))
  {
    hide FeesConserved, LiquidityAgrees, StreamBooks;
  }

  lemma ReservesOf(s: State, token: Token)
    requires ReservesCovered(s.pool, Held(s.vaults), s.claimed)
    ensures CoversReserve(
              s.pool, token,
              Free(BalanceOf(s.vaults, token), PoolLane(s.pool, token), ClaimedOf(s, token)))
  {
    hide Free;
    Commute(Free(s.vaults.a, s.pool.a, s.claimed.a), s.pool.sqrtMaxPrice, s.pool.sqrtPrice);
  }

  lemma FreeOfBooks(
      positions: Slots, token: Token, lane: FeeLane, vault: int, claimed: int)
    requires FeesConserved(positions, token, lane.perLiquidity, lane.totalLpFee, claimed)
    ensures (Free(vault, lane, claimed) + lane.protocolFee + lane.partnerFee) * TWO_128
            + Sum(positions, FeeWeight(token, lane.perLiquidity))
            <= vault * TWO_128
  {
    hide FeeCheckpoints, FeeWeight;
  }

  /** Each vault holds the exact reserve, the unclaimed protocol and partner fees, and everything owed
      to positions, accrued or pending, even if nothing were rounded. */
  lemma VaultsSolvent(s: State, token: Token) returns (reserve: int)
    requires Reachable(s)
    ensures CoversReserve(s.pool, token, reserve)
    ensures var lane := PoolLane(s.pool, token);
            (reserve + lane.protocolFee + lane.partnerFee) * TWO_128
            + Sum(s.positions, FeeWeight(token, lane.perLiquidity))
            <= BalanceOf(s.vaults, token) * TWO_128
  {
    hide Reachable, Balanced, ReservesCovered, SwapReady, VestingsOpen, VestedAgrees, CoversReserve, Free,
         FeeWeight;
    ReachableHolds(s);
    BooksOf(s, token);
    ReservesOf(s, token);
    var lane := PoolLane(s.pool, token);
    reserve := Free(BalanceOf(s.vaults, token), lane, ClaimedOf(s, token));
    FreeOfBooks(s.positions, token, lane, BalanceOf(s.vaults, token), ClaimedOf(s, token));
  }

  // ----- Corollaries for every reachable state -----

  /** The pool's liquidity is the sum of the positions' unlocked, vested and permanent liquidity, its
      permanent lock is the sum of theirs, and each position's vested liquidity is what its open
      vestings have not released. */
  lemma LedgersAgree(s: State)
    requires Reachable(s)
    ensures Sum(s.positions, LiquidityWeight()) == s.pool.liquidity
    ensures Sum(s.positions, PermanentWeight()) == s.pool.permanentLockLiquidity
    ensures forall i :: 0 <= i < |s.positions| && s.positions[i].Some? ==>
              s.positions[i].value.vestedLiquidity == Sum(s.vestings, VestingWeight(i))
  {
    hide Reachable, ReservesCovered, SwapReady, VestingsOpen, FeesConserved, StreamBooks;
    ReachableHolds(s);
    forall i | 0 <= i < |s.positions| && s.positions[i].Some?
      ensures s.positions[i].value.vestedLiquidity == Sum(s.vestings, VestingWeight(i))
    {
      assert VestedIn(s.positions[i]) == Sum(s.vestings, VestingWeight(i));
    }
  }

  /** What positions are owed in fees, accrued or pending, plus all they have claimed, never exceeds
      the fees recorded for them. */
  lemma FeesNeverOverpaid(s: State, token: Token)
    requires Reachable(s)
    ensures var lane := PoolLane(s.pool, token);
            Sum(s.positions, FeeWeight(token, lane.perLiquidity)) + ClaimedOf(s, token) * TWO_128
            <= lane.totalLpFee * TWO_128
  {
    hide Reachable, Balanced, ReservesCovered, SwapReady, VestingsOpen, VestedAgrees;
    ReachableHolds(s);
    BooksOf(s, token);
  }

  /** A reward vault holds what positions are owed, accrued or pending, plus the rate times the seconds
      still to run and the seconds in which there was no liquidity. */
  lemma RewardsSolvent(s: State, index: nat)
    requires Reachable(s) && index < NUM_REWARDS
    ensures var r := s.pool.rewards[index];
            && r.lastUpdateTime <= r.rewardDurationEnd
            && Sum(s.positions, RewardWeight(index, r.rewardPerTokenStored))
               + r.rewardRate
                 * (r.rewardDurationEnd - r.lastUpdateTime + r.cumulativeSecondsWithEmptyLiquidityReward)
                 * TWO_128
               <= s.rewardVaults[index] * TWO_192
  {
    hide Reachable, Balanced, ReservesCovered, SwapReady, VestingsOpen, VestedAgrees, StreamBooks;
    ReachableHolds(s);
    BooksOfStream(s, index);
    StreamFunds(s.positions, index, s.pool.rewards[index], s.rewardVaults[index]);
  }

  lemma BooksOfStream(s: State, index: nat)
    requires Balanced(s.pool, s.positions, s.claimed, s.rewardVaults[0], s.rewardVaults[1])
    requires index < NUM_REWARDS
    ensures StreamBooks(s.positions, index, s.pool.rewards[index], s.rewardVaults[index])
  {
    hide FeesConserved, LiquidityAgrees, StreamBooks;
  }

  lemma StreamFunds(positions: Slots, index: nat, r: RewardData, vault: int)
    requires index < NUM_REWARDS && StreamBooks(positions, index, r, vault)
    ensures r.lastUpdateTime <= r.rewardDurationEnd
    ensures Sum(positions, RewardWeight(index, r.rewardPerTokenStored))
            + r.rewardRate
              * (r.rewardDurationEnd - r.lastUpdateTime + r.cumulativeSecondsWithEmptyLiquidityReward)
              * TWO_128
            <= vault * TWO_192
  {
    hide RewardCheckpoints, RewardWeight;
  }

  /** The price never leaves the range of the pool. */
  lemma PriceAlwaysInRange(s: State)
    requires Reachable(s)
    ensures s.pool.sqrtMinPrice <= s.pool.sqrtPrice <= s.pool.sqrtMaxPrice
  {
    hide Reachable, ReservesCovered, Bounded, VestingsOpen, VestedAgrees, Balanced;
    ReachableHolds(s);
  }

  /** A claim can never pay more than the fees recorded and not yet claimed. */
  lemma ClaimsBounded(s: State, token: Token)
    requires Reachable(s)
    ensures ClaimedOf(s, token) <= PoolLane(s.pool, token).totalLpFee
  {
    hide Reachable, Balanced, ReservesCovered, SwapReady, VestingsOpen, VestedAgrees, FeesConserved;
    ReachableHolds(s);
    BooksOf(s, token);
    var lane := PoolLane(s.pool, token);
    ClaimedAtMostRecorded(
      s.positions, token, lane.perLiquidity, lane.totalLpFee, ClaimedOf(s, token));
  }

  lemma LiquidityBounded(positions: Slots, i: nat, liquidity: int, permanent: int)
    requires i < |positions| && positions[i].Some? && LiquidityAgrees(positions, liquidity, permanent)
    ensures Liquidity(positions[i].value) <= liquidity
  {
    forall k | 0 <= k < |positions| ensures 0 <= Weight(positions[k], LiquidityWeight()) {
    }
    SumCovers(positions, LiquidityWeight(), i);
  }

  /** Refreshing open vestings of a position never fails, whatever the time of the refresh. */
  lemma RefreshAlwaysPossible(s: State, i: nat, slots: seq<nat>, point: U64)
    requires Reachable(s) && s.point <= point
    requires i < |s.positions| && s.positions[i].Some? && Distinct(slots) && OpenFor(s.vestings, i, slots)
    ensures RefreshVestingStep(s, i, slots, point).Done?
  {
    hide Reachable, ReservesCovered, SwapReady, VestingsOpen, VestedAgrees, FeesConserved, StreamBooks,
         LiquidityAgrees, Distinct, OpenFor;
    ReachableHolds(s);
    LiquidityBounded(s.positions, i, s.pool.liquidity, s.pool.permanentLockLiquidity);
    LaterOpen(s.vestings, |s.positions|, |s.positions|, s.point, point);
    RefreshDefined(s.positions, s.vestings, i, slots, point);
  }

  lemma NoFeeInOneToken(positions: Slots, token: Token, i: nat, claimed: int)
    requires FeesConserved(positions, token, 0, 0, claimed) && 0 <= claimed
    requires i < |positions| && positions[i].Some?
    ensures LaneOf(positions[i].value, token).pending == 0
    ensures LaneOf(positions[i].value, token).checkpoint == 0
  {
    hide LaneOf;
    forall k | 0 <= k < |positions| ensures 0 <= Weight(positions[k], FeeWeight(token, 0)) {
      if positions[k].Some? {
        OwedFeeNonNegative(positions[k].value, token, 0);
      }
    }
    SumCovers(positions, FeeWeight(token, 0), i);
    assert OwedFee(positions[i].value, token, 0) <= 0;
  }

  /** A pool that collects fees in token B only never owes a position any token A, so claiming its fees
      never pays out token A. */
  lemma QuoteOnlyForever(s: State, i: nat)
    requires Reachable(s) && s.pool.collectFeeMode.OnlyB?
    requires i < |s.positions| && s.positions[i].Some?
    ensures s.pool.a.perLiquidity == 0 && s.positions[i].value.a.pending == 0
    ensures var taken := FeesOf(s.pool, s.positions[i].value);
            taken.Ok? ==> taken.value.paid.a == 0
  {
    hide Reachable, ReservesCovered, PricesInRange, Bounded, VestingsOpen, VestedAgrees, FeesConserved,
         StreamBooks, LiquidityAgrees, UpdateFee;
    ReachableHolds(s);
    NoFeeInOneToken(s.positions, Token.A, i, s.claimed.a);
    var q := s.positions[i].value;
    BehindAt(s.pool, s.positions, i, s.claimed, s.rewardVaults[0], s.rewardVaults[1]);
    if FeesOf(s.pool, q).Ok? {
      UpdateFeeMoves(s.pool, q);
    }
  }

  /** In every reachable state the variable fee is defined: the `unwrap` in it never panics. */
  lemma VariableFeeAlwaysDefined(s: State)
    requires Reachable(s)
    ensures VariableFee(s.pool.dynamicFee).Ok?
  {
    hide Reachable, ReservesCovered, PricesInRange, Bounded, VestingsOpen, VestedAgrees, Balanced,
         VariableFee;
    ReachableHolds(s);
    VariableFeeBounded(s.pool.dynamicFee);
  }

  /** On any clock past the first 65535 seconds of the epoch, no swap of a reachable pool is aborted by
      its dynamic part: the references can be updated before it, the variable fee is defined, and the
      accumulator can be updated at the price the swap ends at. */
  lemma DynamicPartNeverAborts(s: State, parameters: SwapParameters, time: U64, point: U64)
    requires Reachable(s) && time >= 0xffff
    ensures PreSwap(s.pool.dynamicFee, s.pool.sqrtPrice, time).Ok?
    ensures var p := s.pool.(dynamicFee := PreSwap(s.pool.dynamicFee, s.pool.sqrtPrice, time).value);
            && VariableFee(p.dynamicFee).Ok?
            && (QuoteOf(p, parameters, point).Ok? ==>
                  PostSwap(
                    p.dynamicFee, p.sqrtPrice, QuoteOf(p, parameters, point).value.nextSqrtPrice, time).Ok?)
  {
    hide Reachable, ReservesCovered, VestingsOpen, VestedAgrees, Balanced, VariableFee, QuoteOf, FairSwap,
         PreSwap, PostSwap, Bounded;
    ReachableHolds(s);
    PreSwapBounded(s.pool.dynamicFee, s.pool.sqrtPrice, time);
    var p := s.pool.(dynamicFee := PreSwap(s.pool.dynamicFee, s.pool.sqrtPrice, time).value);
    VariableFeeBounded(p.dynamicFee);
    if QuoteOf(p, parameters, point).Ok? {
      QuoteOfFair(p, parameters, point);
      SwapUpdatesDefined(
        s.pool.dynamicFee, p.sqrtPrice, QuoteOf(p, parameters, point).value.nextSqrtPrice, time);
    }
  }

  // ----- No free lunch on the ledger -----

  ghost function Gain(s: State, s': State): Receipt {
    Receipt(s'.vaults.a - s.vaults.a, s'.vaults.b - s.vaults.b)
  }

  /** What a swap step, successful or not, does to the vaults covers what it does to the price. */
  ghost predicate SwapProgress(s: State, s': State) {
    && s'.pool.liquidity == s.pool.liquidity
    && Covered(s.pool.liquidity, s.pool.sqrtPrice, s'.pool.sqrtPrice, Gain(s, s'))
  }

  lemma NoProgress(l: nat, price: nat)
    ensures Covered(l, price, price, Receipt(0, 0))
  {
  }

  lemma AppliedCovered(p: PoolData, parameters: SwapParameters, now: U64, currentPoint: U64)
    requires SwapReady(p) && SwapApplied(p, parameters, now, currentPoint).Ok?
    ensures var r := SwapApplied(p, parameters, now, currentPoint).value;
            && r.pool.liquidity == p.liquidity && SwapReady(r.pool)
            && Covered(
                 p.liquidity, p.sqrtPrice, r.pool.sqrtPrice,
                 VaultChange(FeeModeOf(p, parameters), parameters.direction, r.result))
            && (!parameters.hasReferral ==> r.result.fees.referral == 0)
  {
    hide QuoteOf, FairSwap, ApplySwap, VaultChange, PreSwap, Bounded, Covered;
    PreSwapBounded(p.dynamicFee, p.sqrtPrice, now);
    var p1 := p.(dynamicFee := PreSwap(p.dynamicFee, p.sqrtPrice, now).value);
    QuoteOfFair(p1, parameters, currentPoint);
    var r := SwapApplied(p, parameters, now, currentPoint).value;
    var m := FeeModeOf(p, parameters);
    ApplySwapLanes(p1, r.result, m, now);
    PostSwapBounded(p1.dynamicFee, p1.sqrtPrice, r.result.nextSqrtPrice, now);
    SwapCovered(p1, m, parameters.hasReferral, parameters.direction, r.result);
    KeepMore(
      p.liquidity, p.sqrtPrice, r.result.nextSqrtPrice,
      VaultChange(m, parameters.direction, r.result), OnToken(m.feesOnTokenA, FeeKept(r.result.fees)));
    ReferralOnlyIfAsked(p1, m, parameters.direction, r.result);
  }

  lemma SwapStepCovered(s: State, e: Event)
    requires Invariant(s) && s.time <= e.time && s.point <= e.point && e.action.Swap?
    ensures SwapProgress(s, After(s, e)) && Invariant(After(s, e))
  {
    hide Covered, SwapApplied, SwapTransfers, VaultChange, Reserves, Balanced, ReservesCovered,
         VestingsOpen, VestedAgrees, SwapReady;
    AfterHolds(s, e);
    NoProgress(s.pool.liquidity, s.pool.sqrtPrice);
    var parameters := e.action.parameters;
    if SwapStep(s, parameters, e.time, e.point).Done? {
      AppliedCovered(s.pool, parameters, e.time, e.point);
      var r := SwapApplied(s.pool, parameters, e.time, e.point).value;
      var m := FeeModeOf(s.pool, parameters);
      DoneTransfers(s.vaults, parameters, m, r.result);
    }
  }

  /** Transfers that went through changed the vaults by exactly the change of the swap. */
  lemma DoneTransfers(v: Vaults, parameters: SwapParameters, m: FeeMode, r: SwapResult)
    requires !parameters.hasReferral ==> r.fees.referral == 0
    requires SwapTransfers(v, parameters, m, r).Done?
    ensures Held(SwapTransfers(v, parameters, m, r).value)
            == Plus(Held(v), VaultChange(m, parameters.direction, r))
  {
  }

  ghost predicate OnlySwaps(events: seq<Event>) {
    forall k :: 0 <= k < |events| ==> events[k].action.Swap?
  }

  lemma {:induction false} SwapRunCovered(s: State, events: seq<Event>)
    requires Invariant(s) && Ascending(s, events) && OnlySwaps(events)
    ensures SwapProgress(s, Run(s, events)) && Invariant(Run(s, events))
    decreases |events|
  {
    hide Covered, After, Holds;
    if events == [] {
      NoProgress(s.pool.liquidity, s.pool.sqrtPrice);
    } else {
      var s1 := After(s, events[0]);
      SwapStepCovered(s, events[0]);
      SwapRunCovered(s1, events[1..]);
      PositivePrice(s);
      PositivePrice(s1);
      PositivePrice(Run(s, events));
      ChainCovered(
        s.pool.liquidity, s.pool.sqrtPrice, s1.pool.sqrtPrice, Run(s, events).pool.sqrtPrice, Gain(s, s1),
        Gain(s1, Run(s, events)));
    }
  }

  lemma PositivePrice(s: State)
    requires Invariant(s)
    ensures 0 < s.pool.sqrtPrice
  {
    hide Balanced, ReservesCovered, VestingsOpen, VestedAgrees;
  }

  /** Trading against a reachable pool, with whatever swaps in whatever order, some of which may fail:
      if one vault did not gain, the other did not lose. */
  lemma NoFreeLunchOnLedger(s: State, events: seq<Event>)
    requires Reachable(s) && Ascending(s, events) && OnlySwaps(events)
    ensures var gain := Gain(s, Run(s, events));
            (gain.a <= 0 ==> 0 <= gain.b) && (gain.b <= 0 ==> 0 <= gain.a)
  {
    hide Covered, Run, Ascending, Holds, OnlySwaps, Reachable;
    ReachableHolds(s);
    SwapRunCovered(s, events);
    PositivePrice(s);
    PositivePrice(Run(s, events));
    SignOfReceipts(
      s.pool.liquidity, s.pool.sqrtPrice, Run(s, events).pool.sqrtPrice, Gain(s, Run(s, events)));
  }
}

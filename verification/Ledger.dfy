/** A pool, its positions, vestings, reward streams and vaults as one state machine, and what every
    reachable state satisfies. */
module Ledger {
  import opened Checked
  import opened Curve
  import opened DynamicFee
  import opened PoolState
  import opened Rewards
  import opened Positions
  import opened Pools
  import opened Vestings
  import opened Instructions
  import opened Receipts
  import opened Sums

  type RewardVaults = s: seq<U64> | |s| == 2 witness [0, 0]

  /** `claimed` is the history of fees paid out to positions, per token. A closed account leaves an
      empty slot. */
  datatype State = State(
    pool: PoolData,
    positions: seq<Option<PositionData>>,
    vestings: seq<Option<VestingData>>,
    vaults: Vaults,
    rewardVaults: RewardVaults,
    claimed: Receipt,
    time: U64,
    point: U64)

  datatype Action =
    | CreatePosition
    | AddLiquidity(position: nat, delta: U128, thresholds: Amounts)
    | RemoveLiquidity(position: nat, requested: Option<U128>, thresholds: Amounts)
    | Swap(parameters: SwapParameters)
    | ClaimPositionFee(position: nat)
    | ClaimProtocolFee(most: Amounts)
    | ClaimPartnerFee(most: Amounts)
    | LockPosition(position: nat, schedule: VestingParameters, maxDuration: U64)
    | PermanentLockPosition(position: nat, amount: U128)
    | RefreshVesting(position: nat, slots: seq<nat>)
    | SplitPosition(first: nat, second: nat, numerators: SplitNumerators)
    | ClosePosition(position: nat)
    | InitializeReward(index: nat, duration: U64)
    | FundReward(index: nat, funding: U64, carryForward: bool)
    | ClaimReward(position: nat, index: nat, frozen: bool, skip: bool)
    | WithdrawIneligibleReward(index: nat)
    | UpdateRewardDuration(index: nat, duration: U64)
    | Donate(amounts: Amounts) // anybody may transfer tokens to the vaults
    | DonateReward(index: nat, gift: U64) // or to a reward vault

  datatype Event = Event(action: Action, time: U64, point: U64)

  function SlotOf<T>(slots: seq<Option<T>>, i: nat): Result<T> {
    if i < |slots| && slots[i].Some? then Ok(slots[i].value) else Err(AccountNotFound)
  }

  function WithPosition(s: State, i: nat, q: PositionData): State
    requires i < |s.positions|
  {
    s.(positions := s.positions[i := Some(q)])
  }

  function RewardVaultOf(s: State, index: nat): U64 {
    if index == 0 then s.rewardVaults[0] else s.rewardVaults[1]
  }

  function WithRewardVault(s: State, index: nat, balance: U64): State {
    s.(rewardVaults := if index == 0 then [balance, s.rewardVaults[1]] else [s.rewardVaults[0], balance])
  }

  // ----- The instructions on the whole state -----

  function CreatePositionStep(s: State): Outcome<State> {
    Done(s.(positions := s.positions + [Some(NewPosition(0))]))
  }

  function AddLiquidityStep(s: State, i: nat, delta: U128, thresholds: Amounts, now: U64): Outcome<State> {
    var q :- Computed(SlotOf(s.positions, i));
    var r :- Instructions.AddLiquidity(s.pool, q, s.vaults, now, delta, thresholds);
    Done(WithPosition(s, i, r.position).(pool := r.pool, vaults := r.vaults))
  }

  function RemoveLiquidityStep(
      s: State, i: nat, requested: Option<U128>, thresholds: Amounts, now: U64): Outcome<State>
  {
    var q :- Computed(SlotOf(s.positions, i));
    var r :- Instructions.RemoveLiquidity(s.pool, q, s.vaults, now, requested, thresholds);
    Done(WithPosition(s, i, r.position).(pool := r.pool, vaults := r.vaults))
  }

  function SwapStep(s: State, parameters: SwapParameters, now: U64, currentPoint: U64): Outcome<State> {
    var r :- Instructions.Swap(s.pool, s.vaults, parameters, now, currentPoint);
    Done(s.(pool := r.pool, vaults := r.vaults))
  }

  function ClaimPositionFeeStep(s: State, i: nat): Outcome<State> {
    var q :- Computed(SlotOf(s.positions, i));
    var r :- Instructions.ClaimPositionFee(s.pool, q, s.vaults);
    Done(WithPosition(s, i, r.position).(
      vaults := r.vaults, claimed := Plus(s.claimed, Receipt(r.paid.a, r.paid.b))))
  }

  function ClaimProtocolFeeStep(s: State, most: Amounts): Outcome<State> {
    var r :- Instructions.ClaimProtocolFee(s.pool, s.vaults, most);
    Done(s.(pool := r.pool, vaults := r.vaults))
  }

  function ClaimPartnerFeeStep(s: State, most: Amounts): Outcome<State> {
    var r :- Instructions.ClaimPartnerFee(s.pool, s.vaults, most);
    Done(s.(pool := r.pool, vaults := r.vaults))
  }

  function LockPositionStep(
      s: State, i: nat, schedule: VestingParameters, maxDuration: U64, currentPoint: U64): Outcome<State>
  {
    var q :- Computed(SlotOf(s.positions, i));
    var r :- Computed(Instructions.LockPosition(q, i, schedule, currentPoint, maxDuration));
    Done(WithPosition(s, i, r.position).(vestings := s.vestings + [Some(r.vesting)]))
  }

  function PermanentLockStep(s: State, i: nat, amount: U128): Outcome<State> {
    var q :- Computed(SlotOf(s.positions, i));
    var r :- Computed(Instructions.PermanentLockPosition(s.pool, q, amount));
    Done(WithPosition(s, i, r.position).(pool := r.pool))
  }

  function RefreshVestingStep(s: State, i: nat, slots: seq<nat>, currentPoint: U64): Outcome<State> {
    var q :- Computed(SlotOf(s.positions, i));
    var r :- Computed(Instructions.RefreshVesting(q, i, s.vestings, slots, currentPoint));
    Done(WithPosition(s, i, r.position).(vestings := r.vestings))
  }

  function SplitPositionStep(s: State, i: nat, j: nat, n: SplitNumerators, now: U64): Outcome<State> {
    var q1 :- Computed(SlotOf(s.positions, i));
    var q2 :- Computed(SlotOf(s.positions, j));
    var _ :- Computed(Require(i != j, SamePosition));
    var r :- Computed(Instructions.SplitPosition(s.pool, Pair(q1, q2), n, now));
    Done(WithPosition(WithPosition(s, i, r.pair.first), j, r.pair.second).(pool := r.pool))
  }

  function ClosePositionStep(s: State, i: nat): Outcome<State> {
    var q :- Computed(SlotOf(s.positions, i));
    var _ :- Computed(Instructions.ClosePosition(q));
    Done(s.(positions := s.positions[i := None]))
  }

  function FundRewardStep(s: State, index: nat, amount: U64, carryForward: bool, now: U64): Outcome<State> {
    var r :- Instructions.FundReward(
      s.pool, RewardVaultOf(s, index), index, amount, carryForward, now);
    Done(WithRewardVault(s, index, r.vault).(pool := r.pool))
  }

  function ClaimRewardStep(
      s: State, i: nat, index: nat, frozen: bool, skip: bool, now: U64): Outcome<State>
  {
    var q :- Computed(SlotOf(s.positions, i));
    var r :- Instructions.ClaimReward(s.pool, q, RewardVaultOf(s, index), index, frozen, skip, now);
    Done(WithRewardVault(WithPosition(s, i, r.position), index, r.vault).(pool := r.pool))
  }

  function WithdrawIneligibleStep(s: State, index: nat, now: U64): Outcome<State> {
    var r :- Instructions.WithdrawIneligibleReward(s.pool, RewardVaultOf(s, index), index, now);
    Done(WithRewardVault(s, index, r.vault).(pool := r.pool))
  }

  function DonateStep(s: State, amounts: Amounts): Outcome<State> {
    var v :- DepositBoth(s.vaults, amounts);
    Done(s.(vaults := v))
  }

  function DonateRewardStep(s: State, index: nat, amount: U64): Outcome<State> {
    var balance: U64 :- Deposit(RewardVaultOf(s, index), amount);
    Done(WithRewardVault(s, index, balance))
  }

  function Step(s: State, e: Event): Outcome<State> {
    match e.action
    case CreatePosition => CreatePositionStep(s)
    case AddLiquidity(i, delta, thresholds) => AddLiquidityStep(s, i, delta, thresholds, e.time)
    case RemoveLiquidity(i, requested, thresholds) =>
      RemoveLiquidityStep(s, i, requested, thresholds, e.time)
    case Swap(parameters) => SwapStep(s, parameters, e.time, e.point)
    case ClaimPositionFee(i) => ClaimPositionFeeStep(s, i)
    case ClaimProtocolFee(most) => ClaimProtocolFeeStep(s, most)
    case ClaimPartnerFee(most) => ClaimPartnerFeeStep(s, most)
    case LockPosition(i, schedule, maxDuration) => LockPositionStep(s, i, schedule, maxDuration, e.point)
    case PermanentLockPosition(i, amount) => PermanentLockStep(s, i, amount)
    case RefreshVesting(i, slots) => RefreshVestingStep(s, i, slots, e.point)
    case SplitPosition(i, j, n) => SplitPositionStep(s, i, j, n, e.time)
    case ClosePosition(i) => ClosePositionStep(s, i)
    case InitializeReward(index, duration) =>
      var p :- Computed(Instructions.InitializeReward(s.pool, index, duration));
      Done(s.(pool := p))
    case FundReward(index, amount, carryForward) => FundRewardStep(s, index, amount, carryForward, e.time)
    case ClaimReward(i, index, frozen, skip) => ClaimRewardStep(s, i, index, frozen, skip, e.time)
    case WithdrawIneligibleReward(index) => WithdrawIneligibleStep(s, index, e.time)
    case UpdateRewardDuration(index, duration) =>
      var p :- Computed(Instructions.UpdateRewardDuration(s.pool, index, duration, e.time));
      Done(s.(pool := p))
    case Donate(amounts) => DonateStep(s, amounts)
    case DonateReward(index, amount) => DonateRewardStep(s, index, amount)
  }

  /** A failed transaction changes nothing but the clock. */
  function After(s: State, e: Event): State {
    var r := Step(s, e);
    (if r.Done? then r.value else s).(time := e.time, point := e.point)
  }

  function Run(s: State, events: seq<Event>): State
    decreases |events|
  {
    if events == [] then s else Run(After(s, events[0]), events[1..])
  }

  /** Neither clock runs backwards. */
  ghost predicate Ascending(s: State, events: seq<Event>)
    decreases |events|
  {
    events == [] || (
      && s.time <= events[0].time && s.point <= events[0].point
      && Ascending(After(s, events[0]), events[1..]))
  }

  /** The state a new pool starts in. */
  function Initial(accounts: LiquidityChange, time: U64, point: U64): State {
    State(
      accounts.pool, [Some(accounts.position)], [], accounts.vaults, [0, 0], Receipt(0, 0), time, point)
  }

  // ----- What every reachable state satisfies -----

  ghost function LiquidityWeight(): PositionData -> int {
    (q: PositionData) => Liquidity(q)
  }

  ghost function PermanentWeight(): PositionData -> int {
    (q: PositionData) => q.permanentLockedLiquidity
  }

  ghost function FeeWeight(token: Token, stored: nat): PositionData -> int {
    (q: PositionData) => OwedFee(q, token, stored)
  }

  ghost function RewardWeight(index: nat, stored: nat): PositionData -> int
    requires index < NUM_REWARDS
  {
    (q: PositionData) => OwedReward(q, index, stored)
  }

  ghost function Unreleased(v: VestingData): int {
    v.cliffUnlockLiquidity + v.liquidityPerPeriod * v.numberOfPeriod - v.totalReleasedLiquidity
  }

  /** The unreleased total of a vesting, counted for the position it belongs to. */
  ghost function VestingWeight(position: nat): VestingData -> int {
    (v: VestingData) => if v.position == position then Unreleased(v) else 0
  }

  /** The pool's liquidity is what the positions hold, and so is its permanent lock. */
  ghost predicate LiquidityAgrees(positions: seq<Option<PositionData>>, liquidity: int, permanent: int) {
    && Sum(positions, LiquidityWeight()) == liquidity
    && Sum(positions, PermanentWeight()) == permanent
  }

  ghost predicate FeeCheckpoints(positions: seq<Option<PositionData>>, token: Token, stored: nat) {
    forall k :: 0 <= k < |positions| && positions[k].Some? ==>
      LaneOf(positions[k].value, token).checkpoint <= stored
  }

  /** What positions are owed in fees, plus all they have claimed, never exceeds the fees recorded. */
  ghost predicate FeesConserved(
      positions: seq<Option<PositionData>>, token: Token, stored: nat, totalLp: int, claimed: int)
  {
    && FeeCheckpoints(positions, token, stored)
    && Sum(positions, FeeWeight(token, stored)) + claimed * TWO_128 <= totalLp * TWO_128
  }

  ghost predicate RewardCheckpoints(positions: seq<Option<PositionData>>, index: nat, stored: nat)
    requires index < NUM_REWARDS
  {
    forall k :: 0 <= k < |positions| && positions[k].Some? ==>
      positions[k].value.rewards[index].checkpoint <= stored
  }

  /** What positions are owed in rewards, plus what is still to be credited, is in the vault. */
  ghost predicate RewardsBacked(
      positions: seq<Option<PositionData>>, index: nat, stored: nat, backing: int, vault: int)
    requires index < NUM_REWARDS
  {
    && RewardCheckpoints(positions, index, stored)
    && Sum(positions, RewardWeight(index, stored)) + backing <= vault * TWO_192
  }

  ghost predicate StreamBooks(
      positions: seq<Option<PositionData>>, index: nat, r: RewardData, vault: int)
    requires index < NUM_REWARDS
  {
    Rewards.WellFormed(r) && RewardsBacked(positions, index, r.rewardPerTokenStored, Backing(r), vault)
  }

  /** The invariants that sum over positions. */
  ghost predicate Balanced(
      p: PoolData, positions: seq<Option<PositionData>>, claimed: Receipt, vault0: int, vault1: int)
  {
    && LiquidityAgrees(positions, p.liquidity, p.permanentLockLiquidity)
    && FeesConserved(positions, Token.A, p.a.perLiquidity, p.a.totalLpFee, claimed.a)
    && FeesConserved(positions, Token.B, p.b.perLiquidity, p.b.totalLpFee, claimed.b)
    && StreamBooks(positions, 0, p.rewards[0], vault0)
    && StreamBooks(positions, 1, p.rewards[1], vault1)
  }

  /** What a vault holds beyond unclaimed protocol and partner fees and unclaimed position fees. */
  ghost function Free(vault: int, lane: FeeLane, claimed: int): int {
    vault - lane.protocolFee - lane.partnerFee - (lane.totalLpFee - claimed)
  }

  /** The free part of each vault covers the exact, unrounded reserve of the curve: as if it had been
      received for moving the price from its end of the range to where it is. */
  ghost predicate ReservesCovered(p: PoolData, held: Receipt, claimed: Receipt) {
    && ReceiptA(p.liquidity, p.sqrtMaxPrice, p.sqrtPrice, Free(held.a, p.a, claimed.a))
    && ReceiptB(p.liquidity, p.sqrtMinPrice, p.sqrtPrice, Free(held.b, p.b, claimed.b))
  }

  ghost function Held(v: Vaults): Receipt {
    Receipt(v.a, v.b)
  }

  ghost predicate PricesInRange(p: PoolData) {
    MIN_SQRT_PRICE <= p.sqrtMinPrice <= p.sqrtPrice <= p.sqrtMaxPrice <= MAX_SQRT_PRICE
  }

  /** A pool that collects fees in token B has never recorded a fee in token A. */
  ghost predicate QuoteOnly(p: PoolData) {
    p.collectFeeMode.OnlyB? ==> p.a == FeeLane(0, 0, 0, 0, 0, 0)
  }

  /** Every open vesting is behind its schedule and not done, and belongs to a position. */
  ghost predicate VestingsOpen(vestings: seq<Option<VestingData>>, positions: nat, point: U64) {
    forall k :: 0 <= k < |vestings| && vestings[k].Some? ==>
      var v := vestings[k].value;
      Lags(v, point) && 0 < Unreleased(v) && v.position < positions
  }

  ghost function VestedIn(slot: Option<PositionData>): int {
    if slot.Some? then slot.value.vestedLiquidity else 0
  }

  /** Each position's vested liquidity is what its open vestings have not released. */
  ghost predicate VestedAgrees(positions: seq<Option<PositionData>>, vestings: seq<Option<VestingData>>) {
    forall i :: 0 <= i < |positions| ==> VestedIn(positions[i]) == Sum(vestings, VestingWeight(i))
  }

  ghost predicate SwapReady(p: PoolData) {
    PricesInRange(p) && Bounded(p.dynamicFee) && QuoteOnly(p)
  }

  /** What holds of a state, apart from the clocks of its streams, when the clock of vestings stands at
      `point`. */
  ghost predicate Holds(s: State, point: U64) {
    && Balanced(s.pool, s.positions, s.claimed, s.rewardVaults[0], s.rewardVaults[1])
    && SwapReady(s.pool) && ReservesCovered(s.pool, Held(s.vaults), s.claimed)
    && 0 <= s.claimed.a && 0 <= s.claimed.b
    && VestingsOpen(s.vestings, |s.positions|, point) && VestedAgrees(s.positions, s.vestings)
  }

  /** A stream was last updated at or before `time`, and the seconds it ran without liquidity lie before
      that update. */
  ghost predicate ClockBehind(r: RewardData, time: int) {
    r.cumulativeSecondsWithEmptyLiquidityReward <= r.lastUpdateTime <= time
  }

  ghost predicate ClocksBehind(p: PoolData, time: int) {
    ClockBehind(p.rewards[0], time) && ClockBehind(p.rewards[1], time)
  }

  ghost predicate Invariant(s: State) {
    Holds(s, s.point) && ClocksBehind(s.pool, s.time)
  }
}

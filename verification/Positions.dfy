/** A position: what it holds, what it is owed, and how both change. */
module Positions {
  import opened Checked
  import opened Division
  import opened UtilsMath
  import opened PoolState
  import opened Rewards

  const SPLIT_POSITION_DENOMINATOR: int := 1_000_000_000

  /** `get_total_liquidity` */
  function TotalLiquidity(q: PositionData): Result<U128> {
    var sum: U128 :- Fit128(q.unlockedLiquidity + q.vestedLiquidity);
    Fit128(sum + q.permanentLockedLiquidity)
  }

  /** One token's half of `update_fee`: credit the growth of the accumulator since the checkpoint. */
  function Credit(lane: PositionLane, liquidity: U128, stored: U256): Result<PositionLane> {
    if liquidity > 0 then
      var growth: U256 :- Fit256(stored - lane.checkpoint);
      var earned: U64 :- MulShr256Cast64(liquidity, growth, TWO_128);
      var pending: U64 :- Fit64(earned + lane.pending);
      Ok(lane.(pending := pending, checkpoint := stored))
    else
      Ok(lane.(checkpoint := stored))
  }

  /** `update_fee` */
  function UpdateFee(q: PositionData, storedA: U256, storedB: U256): Result<PositionData> {
    var liquidity: U128 :- TotalLiquidity(q);
    var a :- Credit(q.a, liquidity, storedA);
    var b :- Credit(q.b, liquidity, storedB);
    Ok(q.(a := a, b := b))
  }

  function UserRewardFor(u: UserReward, r: RewardData, liquidity: U128): Result<UserReward> {
    if r.initialized then UserRewardAfter(u, liquidity, r.rewardPerTokenStored) else Ok(u)
  }

  /** `update_position_reward` */
  function UpdatePositionReward(q: PositionData, streams: RewardStreams): Result<PositionData> {
    var liquidity: U128 :- TotalLiquidity(q);
    var first :- UserRewardFor(q.rewards[0], streams[0], liquidity);
    var second :- UserRewardFor(q.rewards[1], streams[1], liquidity);
    Ok(q.(rewards := [first, second]))
  }

  /** `add_liquidity` */
  function AddUnlocked(q: PositionData, delta: U128): Result<PositionData> {
    var unlocked: U128 :- Fit128(q.unlockedLiquidity + delta);
    Ok(q.(unlockedLiquidity := unlocked))
  }

  /** `remove_unlocked_liquidity` */
  function RemoveUnlocked(q: PositionData, delta: U128): Result<PositionData> {
    var unlocked: U128 :- Fit128(q.unlockedLiquidity - delta);
    Ok(q.(unlockedLiquidity := unlocked))
  }

  /** `lock` */
  function Lock(q: PositionData, amount: U128): Result<PositionData> {
    var _ :- Require(q.unlockedLiquidity >= amount, InsufficientLiquidity);
    var vested: U128 :- Fit128(q.vestedLiquidity + amount);
    Ok(q.(unlockedLiquidity := q.unlockedLiquidity - amount, vestedLiquidity := vested))
  }

  /** `permanent_lock_liquidity` */
  function PermanentLock(q: PositionData, amount: U128): Result<PositionData> {
    var _ :- Require(q.unlockedLiquidity >= amount, InsufficientLiquidity);
    var locked: U128 :- Fit128(q.permanentLockedLiquidity + amount);
    Ok(q.(unlockedLiquidity := q.unlockedLiquidity - amount, permanentLockedLiquidity := locked))
  }

  /** `release_vested_liquidity` */
  function ReleaseVested(q: PositionData, amount: U128): Result<PositionData> {
    var vested: U128 :- Fit128(q.vestedLiquidity - amount);
    AddUnlocked(q.(vestedLiquidity := vested), amount)
  }

  /** `accumulate_claimed_fee` and `reset_pending_fee` for one token. */
  function TakeFee(lane: PositionLane): Result<PositionLane> {
    var claimed: U64 :- Fit64(lane.totalClaimed + lane.pending);
    Ok(lane.(totalClaimed := claimed, pending := 0))
  }

  /** The fee half of `handle_claim_position_fee`: the position afterwards; what it takes is the
      pending fee after the update. */
  function TakeFees(q: PositionData): Result<PositionData> {
    var a :- TakeFee(q.a);
    var b :- TakeFee(q.b);
    Ok(q.(a := a, b := b))
  }

  /** `claim_reward`; the lifetime counter wraps. */
  function TakeReward(u: UserReward): UserReward {
    u.(pending := 0, totalClaimed := (u.totalClaimed + u.pending) % TWO_64)
  }

  /** `is_empty` */
  function IsEmpty(q: PositionData): Result<bool> {
    if q.rewards[0].pending != 0 || q.rewards[1].pending != 0 then
      Ok(false)
    else
      var liquidity: U128 :- TotalLiquidity(q);
      Ok(liquidity == 0 && q.a.pending == 0 && q.b.pending == 0)
  }

  // ----- Splitting -----

  /** `get_unlocked_liquidity_by_numerator` and its permanent twin. */
  function ShareOfLiquidity(amount: U128, numerator: U32): Result<U128> {
    MulDivU128(amount, numerator, SPLIT_POSITION_DENOMINATOR, Down)
  }

  /** The share of a pending fee or reward. */
  function ShareOfPending(amount: U64, numerator: U32): Result<U64> {
    MulDivU64(amount, numerator, SPLIT_POSITION_DENOMINATOR, Down)
  }

  datatype Pair = Pair(first: PositionData, second: PositionData)

  function SplitUnlocked(pair: Pair, numerator: U32): Result<Pair> {
    if numerator > 0 then
      var delta: U128 :- ShareOfLiquidity(pair.first.unlockedLiquidity, numerator);
      var first :- RemoveUnlocked(pair.first, delta);
      var second :- AddUnlocked(pair.second, delta);
      Ok(Pair(first, second))
    else
      Ok(pair)
  }

  function SplitPermanent(pair: Pair, numerator: U32): Result<Pair> {
    if numerator > 0 then
      var delta: U128 :- ShareOfLiquidity(pair.first.permanentLockedLiquidity, numerator);
      var _ :- Require(delta <= pair.first.permanentLockedLiquidity, InsufficientLiquidity);
      var right: U128 :- Fit128(pair.second.permanentLockedLiquidity + delta);
      Ok(Pair(
        pair.first.(permanentLockedLiquidity := pair.first.permanentLockedLiquidity - delta),
        pair.second.(permanentLockedLiquidity := right)))
    else
      Ok(pair)
  }

  function SplitPending(pair: Pair, numeratorA: U32, numeratorB: U32): Result<Pair> {
    if numeratorA > 0 || numeratorB > 0 then
      var a: U64 :- ShareOfPending(pair.first.a.pending, numeratorA);
      var b: U64 :- ShareOfPending(pair.first.b.pending, numeratorB);
      var leftA: U64 :- Fit64(pair.first.a.pending - a);
      var leftB: U64 :- Fit64(pair.first.b.pending - b);
      var rightA: U64 :- Fit64(pair.second.a.pending + a);
      var rightB: U64 :- Fit64(pair.second.b.pending + b);
      Ok(Pair(
        pair.first.(a := pair.first.a.(pending := leftA), b := pair.first.b.(pending := leftB)),
        pair.second.(a := pair.second.a.(pending := rightA), b := pair.second.b.(pending := rightB))))
    else
      Ok(pair)
  }

  function SplitReward(pair: Pair, index: nat, r: RewardData, numerator: U32): Result<Pair>
    requires index < NUM_REWARDS
  {
    if numerator > 0 && r.initialized then
      var u, v := pair.first.rewards[index], pair.second.rewards[index];
      var delta: U64 :- ShareOfPending(u.pending, numerator);
      var left: U64 :- Fit64(u.pending - delta);
      var right: U64 :- Fit64(v.pending + delta);
      Ok(Pair(
        pair.first.(rewards := pair.first.rewards[index := u.(pending := left)]),
        pair.second.(rewards := pair.second.rewards[index := v.(pending := right)])))
    else
      Ok(pair)
  }

  datatype SplitNumerators = SplitNumerators(
    unlocked: U32, permanent: U32, feeA: U32, feeB: U32, reward0: U32, reward1: U32)

  /** `SplitPositionParameters2::validate` */
  function ValidateSplit(n: SplitNumerators): Result<Unit> {
    var d := SPLIT_POSITION_DENOMINATOR;
    var _ :- Require(
      && n.permanent <= d && n.unlocked <= d && n.feeA <= d && n.feeB <= d
      && n.reward0 <= d && n.reward1 <= d,
      InvalidSplitPositionParameters);
    Require(
      n.unlocked > 0 || n.permanent > 0 || n.feeA > 0 || n.feeB > 0 || n.reward0 > 0 || n.reward1 > 0,
      InvalidSplitPositionParameters)
  }

  // ----- What is owed -----

  /** The liquidity a position shares in fees with. */
  ghost function Liquidity(q: PositionData): nat {
    q.unlockedLiquidity + q.vestedLiquidity + q.permanentLockedLiquidity
  }

  ghost function LaneOf(q: PositionData, token: Token): PositionLane {
    if token.A? then q.a else q.b
  }

  /** The fee a position could claim if nothing were rounded, in units of 2^-128 tokens. */
  ghost function OwedFee(q: PositionData, token: Token, stored: nat): int {
    LaneOf(q, token).pending * TWO_128 + Liquidity(q) * (stored - LaneOf(q, token).checkpoint)
  }

  /** The reward a position could claim if nothing were rounded, in units of 2^-192 tokens. */
  ghost function OwedReward(q: PositionData, index: nat, stored: nat): int
    requires index < NUM_REWARDS
  {
    q.rewards[index].pending * TWO_192 + Liquidity(q) * (stored - q.rewards[index].checkpoint)
  }

  /** Crediting only rounds down: it never adds to what is owed, and loses less than one token. */
  lemma CreditConserves(lane: PositionLane, liquidity: U128, stored: U256)
    requires Credit(lane, liquidity, stored).Ok? && lane.checkpoint <= stored
    ensures var lane' := Credit(lane, liquidity, stored).value;
            var owed := lane.pending * TWO_128 + liquidity * (stored - lane.checkpoint);
            && lane'.checkpoint == stored
            && lane'.pending * TWO_128 <= owed < (lane'.pending + 1) * TWO_128
            && (stored == lane.checkpoint ==> lane'.pending == lane.pending)
  {
  }

  lemma UserRewardConserves(u: UserReward, liquidity: U128, stored: U256)
    requires UserRewardAfter(u, liquidity, stored).Ok?
    ensures var u' := UserRewardAfter(u, liquidity, stored).value;
            var owed := u.pending * TWO_192 + liquidity * (stored - u.checkpoint);
            && u.checkpoint <= stored == u'.checkpoint
            && u'.pending * TWO_192 <= owed < (u'.pending + 1) * TWO_192
  {
  }

  /** A share taken with a numerator of at most the denominator never exceeds the whole. */
  lemma ShareAtMostWhole(amount: nat, numerator: nat)
    requires numerator <= SPLIT_POSITION_DENOMINATOR
    ensures FloorDiv(amount * numerator, SPLIT_POSITION_DENOMINATOR) <= amount
  {
    MulMono(numerator, SPLIT_POSITION_DENOMINATOR, amount);
    FloorBelow(amount * numerator, SPLIT_POSITION_DENOMINATOR, amount + 1);
  }

  // ----- The account as the program updates it -----

  class Position {
    var feeAPerTokenCheckpoint: U256
    var feeBPerTokenCheckpoint: U256
    var feeAPending: U64
    var feeBPending: U64
    var unlockedLiquidity: U128
    var vestedLiquidity: U128
    var permanentLockedLiquidity: U128
    var totalClaimedAFee: U64
    var totalClaimedBFee: U64
    const rewardInfos: array<UserReward>

    ghost predicate Valid() {
      rewardInfos.Length == NUM_REWARDS
    }

    function View(): PositionData
      requires Valid()
      reads this, rewardInfos
    {
      PositionData(
        PositionLane(feeAPerTokenCheckpoint, feeAPending, totalClaimedAFee),
        PositionLane(feeBPerTokenCheckpoint, feeBPending, totalClaimedBFee),
        unlockedLiquidity, vestedLiquidity, permanentLockedLiquidity, [rewardInfos[0], rewardInfos[1]])
    }

    constructor (liquidity: U128)
      ensures Valid() && fresh(rewardInfos) && View() == NewPosition(liquidity)
    {
      feeAPerTokenCheckpoint, feeBPerTokenCheckpoint, feeAPending, feeBPending := 0, 0, 0, 0;
      unlockedLiquidity, vestedLiquidity, permanentLockedLiquidity := liquidity, 0, 0;
      totalClaimedAFee, totalClaimedBFee := 0, 0;
      rewardInfos := new UserReward[NUM_REWARDS](i => UserReward(0, 0, 0));
    }

    function GetTotalLiquidity(): (r: Result<U128>)
      requires Valid()
      reads this, rewardInfos
      ensures r == TotalLiquidity(View())
    {
      var sum: U128 :- Fit128(unlockedLiquidity + vestedLiquidity);
      Fit128(sum + permanentLockedLiquidity)
    }

    method UpdateFeeOf(feeAPerTokenStored: U256, feeBPerTokenStored: U256) returns (r: Result<Unit>)
      requires Valid()
      modifies this
      ensures Updated(UpdateFee(old(View()), feeAPerTokenStored, feeBPerTokenStored), r, View())
    {
      var liquidity: U128 :- GetTotalLiquidity();
      if liquidity > 0 {
        var growthA: U256 :- Fit256(feeAPerTokenStored - feeAPerTokenCheckpoint);
        var newFeeA: U64 :- MulShr256Cast64(liquidity, growthA, TWO_128);
        feeAPending :- Fit64(newFeeA + feeAPending);
        var growthB: U256 :- Fit256(feeBPerTokenStored - feeBPerTokenCheckpoint);
        var newFeeB: U64 :- MulShr256Cast64(liquidity, growthB, TWO_128);
        feeBPending :- Fit64(newFeeB + feeBPending);
      }
      feeAPerTokenCheckpoint := feeAPerTokenStored;
      feeBPerTokenCheckpoint := feeBPerTokenStored;
      return Ok(Unit);
    }

    method AddLiquidity(delta: U128) returns (r: Result<Unit>)
      requires Valid()
      modifies this`unlockedLiquidity
      ensures Updated(AddUnlocked(old(View()), delta), r, View())
    {
      unlockedLiquidity :- Fit128(unlockedLiquidity + delta);
      return Ok(Unit);
    }

    method RemoveUnlockedLiquidity(delta: U128) returns (r: Result<Unit>)
      requires Valid()
      modifies this`unlockedLiquidity
      ensures Updated(RemoveUnlocked(old(View()), delta), r, View())
    {
      unlockedLiquidity :- Fit128(unlockedLiquidity - delta);
      return Ok(Unit);
    }

    method LockLiquidity(totalLockLiquidity: U128) returns (r: Result<Unit>)
      requires Valid()
      modifies this`unlockedLiquidity, this`vestedLiquidity
      ensures Updated(Lock(old(View()), totalLockLiquidity), r, View())
    {
      var _ :- Require(unlockedLiquidity >= totalLockLiquidity, InsufficientLiquidity);
      var _ := RemoveUnlockedLiquidity(totalLockLiquidity); // there is enough
      vestedLiquidity :- Fit128(vestedLiquidity + totalLockLiquidity);
      return Ok(Unit);
    }

    method PermanentLockLiquidity(amount: U128) returns (r: Result<Unit>)
      requires Valid()
      modifies this`unlockedLiquidity, this`permanentLockedLiquidity
      ensures Updated(PermanentLock(old(View()), amount), r, View())
    {
      var _ :- Require(unlockedLiquidity >= amount, InsufficientLiquidity);
      var _ := RemoveUnlockedLiquidity(amount); // there is enough
      permanentLockedLiquidity :- Fit128(permanentLockedLiquidity + amount);
      return Ok(Unit);
    }

    method ReleaseVestedLiquidity(released: U128) returns (r: Result<Unit>)
      requires Valid()
      modifies this`unlockedLiquidity, this`vestedLiquidity
      ensures Updated(ReleaseVested(old(View()), released), r, View())
    {
      vestedLiquidity :- Fit128(vestedLiquidity - released);
      r := AddLiquidity(released);
    }

    method RemovePermanentLocked(delta: U128) returns (r: Result<Unit>)
      requires Valid()
      modifies this`permanentLockedLiquidity
      ensures r == if delta <= old(permanentLockedLiquidity) then Ok(Unit) else Err(InsufficientLiquidity)
      ensures r.Ok? ==> View() == old(View()).(
                                    permanentLockedLiquidity := old(permanentLockedLiquidity) - delta)
    {
      var _ :- Require(delta <= permanentLockedLiquidity, InsufficientLiquidity);
      permanentLockedLiquidity := permanentLockedLiquidity - delta;
      return Ok(Unit);
    }

    method AddPermanentLocked(delta: U128) returns (r: Result<Unit>)
      requires Valid()
      modifies this`permanentLockedLiquidity
      ensures match Fit128(old(permanentLockedLiquidity) + delta)
              case Ok(total) => r.Ok? && View() == old(View()).(permanentLockedLiquidity := total)
              case Err(error) => r == Err(error)
    {
      permanentLockedLiquidity :- Fit128(permanentLockedLiquidity + delta);
      return Ok(Unit);
    }

    /** `add_fee_pending`, and `remove_fee_pending` for negative amounts. */
    method MoveFeePending(deltaA: int, deltaB: int) returns (r: Result<Unit>)
      requires Valid()
      modifies this`feeAPending, this`feeBPending
      ensures r.Ok? <==> 0 <= old(feeAPending) + deltaA < TWO_64 && 0 <= old(feeBPending) + deltaB < TWO_64
      ensures r.Err? ==> r == Err(MathOverflow)
      ensures r.Ok? ==> View() == old(View()).(
                                    a := old(View()).a.(pending := old(feeAPending) + deltaA),
                                    b := old(View()).b.(pending := old(feeBPending) + deltaB))
    {
      feeAPending :- Fit64(feeAPending + deltaA);
      feeBPending :- Fit64(feeBPending + deltaB);
      return Ok(Unit);
    }

    /** `add_reward_pending`, and `remove_reward_pending` for a negative amount. */
    method MoveRewardPending(rewardIndex: nat, delta: int) returns (r: Result<Unit>)
      requires Valid() && rewardIndex < NUM_REWARDS
      modifies rewardInfos
      ensures match Fit64(old(rewardInfos[rewardIndex].pending) + delta)
              case Ok(pending) =>
                && r.Ok?
                && rewardInfos[rewardIndex] == old(rewardInfos[rewardIndex]).(pending := pending)
                && rewardInfos[1 - rewardIndex] == old(rewardInfos[1 - rewardIndex])
              case Err(error) => r == Err(error)
    {
      var pending: U64 :- Fit64(rewardInfos[rewardIndex].pending + delta);
      rewardInfos[rewardIndex] := rewardInfos[rewardIndex].(pending := pending);
      return Ok(Unit);
    }

    /** `accumulate_claimed_fee` on the metrics, then `reset_pending_fee`. */
    method TakePendingFees() returns (r: Result<Unit>)
      requires Valid()
      modifies this`totalClaimedAFee, this`totalClaimedBFee, this`feeAPending, this`feeBPending
      ensures Updated(TakeFees(old(View())), r, View())
    {
      totalClaimedAFee :- Fit64(totalClaimedAFee + feeAPending);
      totalClaimedBFee :- Fit64(totalClaimedBFee + feeBPending);
      feeAPending, feeBPending := 0, 0;
      return Ok(Unit);
    }

    method UpdatePositionRewards(streams: RewardStreams) returns (r: Result<Unit>)
      requires Valid()
      modifies rewardInfos
      ensures Updated(UpdatePositionReward(old(View()), streams), r, View())
    {
      var positionLiquidity: U128 :- GetTotalLiquidity();
      for rewardIdx := 0 to NUM_REWARDS
        invariant rewardIdx > 0 ==>
          UserRewardFor(old(rewardInfos[0]), streams[0], positionLiquidity) == Ok(rewardInfos[0])
        invariant rewardIdx > 1 ==>
          UserRewardFor(old(rewardInfos[1]), streams[1], positionLiquidity) == Ok(rewardInfos[1])
        invariant forall k :: rewardIdx <= k < NUM_REWARDS ==> rewardInfos[k] == old(rewardInfos[k])
      {
        if streams[rewardIdx].initialized {
          var updated :- UserRewardAfter(
            rewardInfos[rewardIdx], positionLiquidity, streams[rewardIdx].rewardPerTokenStored);
          rewardInfos[rewardIdx] := updated;
        }
      }
      return Ok(Unit);
    }

    method ClaimReward(rewardIndex: nat) returns (reward: U64)
      requires Valid() && rewardIndex < NUM_REWARDS
      modifies rewardInfos
      ensures reward == old(rewardInfos[rewardIndex].pending)
      ensures rewardInfos[rewardIndex] == TakeReward(old(rewardInfos[rewardIndex]))
      ensures rewardInfos[1 - rewardIndex] == old(rewardInfos[1 - rewardIndex])
    {
      reward := rewardInfos[rewardIndex].pending;
      rewardInfos[rewardIndex] := TakeReward(rewardInfos[rewardIndex]);
    }

    method CheckEmpty() returns (r: Result<bool>)
      requires Valid()
      ensures r == IsEmpty(View())
    {
      for i := 0 to NUM_REWARDS
        invariant forall k :: 0 <= k < i ==> rewardInfos[k].pending == 0
      {
        if rewardInfos[i].pending != 0 {
          return Ok(false);
        }
      }
      var liquidity: U128 :- GetTotalLiquidity();
      return Ok(liquidity == 0 && feeAPending == 0 && feeBPending == 0);
    }
  }
}

/** One reward stream of a pool and a position's share of it. */
module Rewards {
  import opened Checked
  import opened Division
  import opened UtilsMath
  import opened PoolState

  // ----- The stream -----

  /** `get_seconds_elapsed_since_last_update` */
  function Elapsed(r: RewardData, now: U64): Result<U64> {
    Fit64(Min(now, r.rewardDurationEnd) - r.lastUpdateTime)
  }

  /** `calculate_reward_per_token_stored_since_last_update` */
  function StoredGrowth(r: RewardData, supply: U128, now: U64): Result<U256> {
    var period: U64 :- Elapsed(r, now);
    var total: U128 :- Fit128(period * r.rewardRate);
    ShlDiv256(total, supply)
  }

  /** `RewardInfo::update_rewards` */
  function UpdateReward(r: RewardData, supply: U128, now: U64): Result<RewardData> {
    if !r.initialized then
      Ok(r)
    else if supply > 0 then
      var growth: U256 :- StoredGrowth(r, supply, now);
      var stored: U256 :- Fit256(r.rewardPerTokenStored + growth);
      Ok(r.(rewardPerTokenStored := stored, lastUpdateTime := Min(now, r.rewardDurationEnd)))
    else
      var period: U64 :- Elapsed(r, now);
      var empty: U64 :- Fit64(r.cumulativeSecondsWithEmptyLiquidityReward + period);
      Ok(r.(
        cumulativeSecondsWithEmptyLiquidityReward := empty,
        lastUpdateTime := Min(now, r.rewardDurationEnd)))
  }

  /** `Pool::update_rewards` */
  function UpdateStreams(streams: RewardStreams, supply: U128, now: U64): Result<RewardStreams> {
    var first :- UpdateReward(streams[0], supply, now);
    var second :- UpdateReward(streams[1], supply, now);
    Ok([first, second])
  }

  /** What is still to be paid out of the current campaign at `now`. */
  function Leftover(r: RewardData, now: U64): Result<U64> {
    if now >= r.rewardDurationEnd then Ok(0) else MulShrCast64(r.rewardRate, r.rewardDurationEnd - now, TWO_64)
  }

  /** `update_rate_after_funding` */
  function RateAfterFunding(r: RewardData, now: U64, amount: U64): Result<RewardData> {
    var leftover: U64 :- Leftover(r, now);
    var total: U64 :- Fit64(amount + leftover);
    var rate: U128 :- ShlDivCast128(total, r.rewardDuration);
    var end: U64 :- Fit64(now + r.rewardDuration);
    Ok(r.(rewardRate := rate, lastUpdateTime := now, rewardDurationEnd := end))
  }

  /** The reward of the seconds in which no liquidity earned it. */
  function Ineligible(r: RewardData): Result<U64> {
    MulShrCast64(r.cumulativeSecondsWithEmptyLiquidityReward, r.rewardRate, TWO_64)
  }

  /** Steps 1 and 2 of `handle_fund_reward` on the funded stream: bring forward or insist on zero
      ineligible seconds, then set the new rate. */
  function Fund(r: RewardData, now: U64, amount: U64, carryForward: bool): Result<RewardData> {
    if carryForward then
      var carried: U64 :- Ineligible(r);
      var total: U64 :- Fit64(amount + carried);
      RateAfterFunding(r.(cumulativeSecondsWithEmptyLiquidityReward := 0), now, total)
    else
      var _ :- Require(
        r.cumulativeSecondsWithEmptyLiquidityReward == 0, MustWithdrawnIneligibleReward);
      RateAfterFunding(r, now, amount)
  }

  // ----- A position's share -----

  /** `UserRewardInfo::update_rewards` */
  function UserRewardAfter(u: UserReward, liquidity: U128, stored: U256): Result<UserReward> {
    var growth: U256 :- Fit256(stored - u.checkpoint);
    var earned: U64 :- MulShr256Cast64(liquidity, growth, TWO_192);
    var pending: U64 :- Fit64(earned + u.pending);
    Ok(u.(pending := pending, checkpoint := stored))
  }

  // ----- Conservation -----

  /** The clock of a stream never runs past the end of its campaign, and an uninitialized stream is
      untouched. */
  ghost predicate WellFormed(r: RewardData) {
    && r.lastUpdateTime <= r.rewardDurationEnd
    && (!r.initialized ==> r == NO_REWARD)
  }

  /** The seconds whose reward has been funded but not yet credited to liquidity. */
  ghost function FundedSeconds(r: RewardData): int {
    r.rewardDurationEnd - r.lastUpdateTime + r.cumulativeSecondsWithEmptyLiquidityReward
  }

  /** The reward of those seconds, in units of 2^-192 tokens. */
  ghost function Backing(r: RewardData): int {
    r.rewardRate * FundedSeconds(r) * TWO_128
  }

  /** Rounding the growth down leaves less than one unit of the accumulator for each unit of liquidity. */
  lemma SpreadLoses(rate: nat, seconds: nat, period: nat, supply: nat, growth: nat, scale: nat)
    requires period <= seconds && period * rate * scale < (growth + 1) * supply
    ensures rate * seconds * scale < rate * (seconds - period) * scale + supply * growth + supply
  {
    assert rate * (seconds - period) == rate * seconds - period * rate;
    assert (rate * seconds - period * rate) * scale == rate * seconds * scale - period * rate * scale;
    assert (growth + 1) * supply == supply * growth + supply;
  }

  lemma Spread(rate: nat, seconds: nat, period: nat, supply: nat, growth: nat, scale: nat)
    requires period <= seconds && growth * supply <= period * rate * scale
    ensures rate * (seconds - period) * scale + supply * growth <= rate * seconds * scale
  {
    assert rate * (seconds - period) == rate * seconds - period * rate;
    assert (rate * seconds - period * rate) * scale == rate * seconds * scale - period * rate * scale;
    assert supply * growth == growth * supply;
  }

  /** Accrual only moves reward from the stream to the liquidity that is there, all of it but the
      rounding: less than one unit of the accumulator for each unit of liquidity. Without liquidity
      the stream keeps everything. */
  lemma UpdateConserves(r: RewardData, supply: U128, now: U64)
    requires WellFormed(r) && UpdateReward(r, supply, now).Ok?
    ensures var r' := UpdateReward(r, supply, now).value;
            && WellFormed(r') && r.rewardPerTokenStored <= r'.rewardPerTokenStored
            && r'.initialized == r.initialized
            && r'.rewardRate == r.rewardRate && r'.rewardDurationEnd == r.rewardDurationEnd
            && (r.initialized ==> r'.lastUpdateTime == Min(now, r.rewardDurationEnd))
            && r'.rewardDuration == r.rewardDuration
            && Backing(r') + supply * (r'.rewardPerTokenStored - r.rewardPerTokenStored) <= Backing(r)
            && (if supply > 0 then
                  Backing(r) < Backing(r')
                               + supply * (r'.rewardPerTokenStored - r.rewardPerTokenStored) + supply
                else Backing(r') == Backing(r))
  {
    if r.initialized && supply > 0 {
      var period := Elapsed(r, now).value;
      var growth := StoredGrowth(r, supply, now).value;
      Spread(r.rewardRate, FundedSeconds(r), period, supply, growth, TWO_128);
      SpreadLoses(r.rewardRate, FundedSeconds(r), period, supply, growth, TWO_128);
    }
  }

  lemma Unshift(x: nat, y: nat, paid: nat)
    requires paid * TWO_64 <= x * y
    ensures paid * TWO_192 <= x * y * TWO_128
  {
    MulMono(paid * TWO_64, x * y, TWO_128);
  }

  lemma UnshiftLoses(x: nat, y: nat, paid: nat)
    requires x * y < (paid + 1) * TWO_64
    ensures x * y * TWO_128 < (paid + 1) * TWO_192
  {
    MulStrict(x * y, (paid + 1) * TWO_64, TWO_128);
  }

  /** Withdrawing the ineligible reward takes no more than it was backed by, and all of it but less than
      one token. */
  lemma IneligibleConserves(r: RewardData)
    requires WellFormed(r) && Ineligible(r).Ok?
    ensures var emptied := r.(cumulativeSecondsWithEmptyLiquidityReward := 0);
            && Backing(emptied) + Ineligible(r).value * TWO_192 <= Backing(r)
            && Backing(r) < Backing(emptied) + (Ineligible(r).value + 1) * TWO_192
  {
    hide Ineligible;
    var empty, rate := r.cumulativeSecondsWithEmptyLiquidityReward, r.rewardRate;
    IneligibleIs(r);
    EmptiedBacking(rate, r.rewardDurationEnd - r.lastUpdateTime, empty, Ineligible(r).value);
  }

  /** The ineligible reward is the floor of the rate times the empty seconds. */
  lemma IneligibleIs(r: RewardData)
    requires Ineligible(r).Ok?
    ensures Ineligible(r).value * TWO_64 <= r.cumulativeSecondsWithEmptyLiquidityReward * r.rewardRate
            < (Ineligible(r).value + 1) * TWO_64
  {
  }

  lemma EmptiedBacking(rate: nat, rest: nat, empty: nat, paid: nat)
    requires paid * TWO_64 <= empty * rate < (paid + 1) * TWO_64
    ensures rate * (rest + 0) * TWO_128 + paid * TWO_192 <= rate * (rest + empty) * TWO_128
    ensures rate * (rest + empty) * TWO_128 < rate * (rest + 0) * TWO_128 + (paid + 1) * TWO_192
  {
    Unshift(empty, rate, paid);
    UnshiftLoses(empty, rate, paid);
    assert rate * (rest + empty) == rate * rest + empty * rate;
  }

  /** A new rate promises at most the funding and what was promised before, and all of it but less than
      one token of the leftover and one unit of the rate for every second. */
  lemma RateConserves(r: RewardData, now: U64, amount: U64)
    requires WellFormed(r) && r.cumulativeSecondsWithEmptyLiquidityReward == 0
    requires r.initialized && r.lastUpdateTime == Min(now, r.rewardDurationEnd)
    requires RateAfterFunding(r, now, amount).Ok?
    ensures var r' := RateAfterFunding(r, now, amount).value;
            && WellFormed(r') && r'.lastUpdateTime == now && r'.rewardDurationEnd == now + r.rewardDuration
            && Backing(r') <= Backing(r) + amount * TWO_192
            && Backing(r) + amount * TWO_192 < Backing(r') + (r.rewardDuration + TWO_64) * TWO_128
  {
    var r' := RateAfterFunding(r, now, amount).value;
    var leftover := Leftover(r, now).value;
    var seconds := r.rewardDurationEnd - r.lastUpdateTime;
    Unshift(r.rewardRate, seconds, leftover);
    UnshiftLoses(r.rewardRate, seconds, leftover);
    Reshift(r'.rewardRate, r.rewardDuration, amount + leftover);
    ReshiftLoses(r'.rewardRate, r.rewardDuration, amount + leftover);
  }

  lemma ReshiftLoses(rate: nat, duration: nat, total: nat)
    requires total * TWO_64 < (rate + 1) * duration
    ensures total * TWO_192 < rate * duration * TWO_128 + duration * TWO_128
  {
    MulStrict(total * TWO_64, (rate + 1) * duration, TWO_128);
    assert (rate + 1) * duration == rate * duration + duration;
  }

  lemma Reshift(rate: nat, duration: nat, total: nat)
    requires rate * duration <= total * TWO_64
    ensures rate * duration * TWO_128 <= total * TWO_192
  {
    MulMono(rate * duration, total * TWO_64, TWO_128);
  }

  /** Funding, in the middle of a campaign or not, with or without carrying ineligible reward
      forward, promises no more than the tokens that come in plus what was promised already, and all
      of that but the roundings: a token of the leftover, one unit of the rate for every second, and a
      token of the ineligible reward if that is carried forward. */
  lemma FundConserves(r: RewardData, now: U64, amount: U64, carryForward: bool)
    requires WellFormed(r) && r.initialized && r.lastUpdateTime == Min(now, r.rewardDurationEnd)
    requires Fund(r, now, amount, carryForward).Ok?
    ensures var r' := Fund(r, now, amount, carryForward).value;
            && WellFormed(r') && r'.initialized
            && r'.rewardPerTokenStored == r.rewardPerTokenStored
            && Backing(r') <= Backing(r) + amount * TWO_192
            && Backing(r) + amount * TWO_192
               < Backing(r') + (r.rewardDuration + TWO_64) * TWO_128
                 + (if carryForward then TWO_192 else 0)
            && r'.cumulativeSecondsWithEmptyLiquidityReward == 0
            && r'.lastUpdateTime == now && r'.rewardDurationEnd == now + r.rewardDuration
  {
    hide RateAfterFunding, Backing;
    if carryForward {
      IneligibleConserves(r);
      var emptied := r.(cumulativeSecondsWithEmptyLiquidityReward := 0);
      RateConserves(emptied, now, amount + Ineligible(r).value);
      StoredUnchanged(emptied, now, amount + Ineligible(r).value);
    } else {
      RateConserves(r, now, amount);
      StoredUnchanged(r, now, amount);
    }
  }

  lemma StoredUnchanged(r: RewardData, now: U64, amount: U64)
    requires RateAfterFunding(r, now, amount).Ok?
    ensures RateAfterFunding(r, now, amount).value.initialized == r.initialized
    ensures RateAfterFunding(r, now, amount).value.cumulativeSecondsWithEmptyLiquidityReward
            == r.cumulativeSecondsWithEmptyLiquidityReward
    ensures RateAfterFunding(r, now, amount).value.rewardPerTokenStored == r.rewardPerTokenStored
  {
  }

  // ----- The struct as the program updates it -----

  /** How a fallible update of a struct relates to the function that specifies it. After a failure the
      transaction is rolled back, so nothing is said about the fields. */
  ghost predicate Updated<T(!new)>(spec: Result<T>, r: Result<Unit>, view: T) {
    match spec
    case Ok(value) => r.Ok? && view == value
    case Err(error) => r == Err(error)
  }

  class RewardInfo {
    var initialized: bool
    var rewardDuration: U64
    var rewardDurationEnd: U64
    var rewardRate: U128
    var rewardPerTokenStored: U256
    var lastUpdateTime: U64
    var cumulativeSecondsWithEmptyLiquidityReward: U64

    function View(): RewardData
      reads this
    {
      RewardData(
        initialized, rewardDuration, rewardDurationEnd, rewardRate, rewardPerTokenStored, lastUpdateTime,
        cumulativeSecondsWithEmptyLiquidityReward)
    }

    constructor ()
      ensures View() == NO_REWARD
    {
      initialized := false;
      rewardDuration, rewardDurationEnd, rewardRate := 0, 0, 0;
      rewardPerTokenStored, lastUpdateTime, cumulativeSecondsWithEmptyLiquidityReward := 0, 0, 0;
    }

    method UpdateRewards(liquiditySupply: U128, currentTime: U64) returns (r: Result<Unit>)
      modifies this
      ensures Updated(UpdateReward(old(View()), liquiditySupply, currentTime), r, View())
    {
      if initialized {
        if liquiditySupply > 0 {
          var delta: U256 :- StoredGrowth(View(), liquiditySupply, currentTime);
          var stored: U256 :- Fit256(rewardPerTokenStored + delta);
          rewardPerTokenStored := stored;
        } else {
          var timePeriod: U64 :- Elapsed(View(), currentTime);
          var empty: U64 :- Fit64(cumulativeSecondsWithEmptyLiquidityReward + timePeriod);
          cumulativeSecondsWithEmptyLiquidityReward := empty;
        }
        lastUpdateTime := Min(currentTime, rewardDurationEnd);
      }
      return Ok(Unit);
    }

    method UpdateRateAfterFunding(currentTime: U64, fundingAmount: U64) returns (r: Result<Unit>)
      modifies this
      ensures Updated(RateAfterFunding(old(View()), currentTime, fundingAmount), r, View())
    {
      var totalAmount: U64 := fundingAmount;
      if currentTime < rewardDurationEnd {
        var leftover: U64 :- MulShrCast64(rewardRate, rewardDurationEnd - currentTime, TWO_64);
        totalAmount :- Fit64(fundingAmount + leftover);
      }
      rewardRate :- ShlDivCast128(totalAmount, rewardDuration);
      lastUpdateTime := currentTime;
      rewardDurationEnd :- Fit64(currentTime + rewardDuration);
      return Ok(Unit);
    }

    /** The part of `claim_ineligible_reward` that works on one stream. */
    method ClaimIneligible() returns (r: Result<U64>)
      modifies this`cumulativeSecondsWithEmptyLiquidityReward
      ensures r == Ineligible(old(View()))
      ensures r.Ok? ==> View() == old(View()).(cumulativeSecondsWithEmptyLiquidityReward := 0)
    {
      var reward: U64 :- MulShrCast64(cumulativeSecondsWithEmptyLiquidityReward, rewardRate, TWO_64);
      cumulativeSecondsWithEmptyLiquidityReward := 0;
      return Ok(reward);
    }
  }
}

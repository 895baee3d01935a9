/** The formulas of the fee router: who may share, how much, and what is left over. */
module RouterMath {
  import opened Checked
  import opened Division

  const BASIS_POINTS_DIVISOR: int := 10_000
  const MIN_PAYOUT_THRESHOLD: int := 1_000

  datatype Policy = Policy(
    investorFeeShareBps: U16,
    dailyCap: Option<U64>,
    minPayout: U64,
    y0TotalAllocation: U64,
    totalInvestors: U32)

  /** What `handle_setup_policy` requires. */
  predicate ValidPolicy(policy: Policy) {
    && policy.investorFeeShareBps <= BASIS_POINTS_DIVISOR
    && policy.y0TotalAllocation > 0
    && policy.minPayout >= MIN_PAYOUT_THRESHOLD
    && policy.totalInvestors > 0
  }

  /** `calculate_eligible_investor_share` */
  function EligibleShareBps(policy: Policy, lockedTotal: U64): (bps: U16)
    ensures bps <= policy.investorFeeShareBps && bps <= BASIS_POINTS_DIVISOR
  {
    if policy.y0TotalAllocation == 0 then
      0
    else
      var fraction := FloorDiv(lockedTotal * BASIS_POINTS_DIVISOR, policy.y0TotalAllocation);
      Min(policy.investorFeeShareBps, Min(fraction, BASIS_POINTS_DIVISOR))
  }

  /** `calculate_investor_fee_amount` */
  function InvestorFeeAmount(claimed: U64, bps: U16): Result<U64> {
    Fit64(FloorDiv(claimed * bps, BASIS_POINTS_DIVISOR))
  }

  /** `calculate_individual_payout` */
  function IndividualPayout(investorFee: U64, locked: U64, totalLocked: U64): Result<U64> {
    if totalLocked == 0 then Ok(0) else Fit64(FloorDiv(investorFee * locked, totalLocked))
  }

  datatype PayoutAndDust = PayoutAndDust(payout: U64, dust: U64)

  /** `apply_dust_threshold` */
  function ApplyDustThreshold(amount: U64, minPayout: U64): PayoutAndDust {
    if amount >= minPayout then PayoutAndDust(amount, 0) else PayoutAndDust(0, amount)
  }

  /** `calculate_creator_remainder` */
  function CreatorRemainder(claimed: U64, distributed: U64, carryOver: U64): U64 {
    Monus(Monus(claimed, distributed), carryOver)
  }

  /** `check_daily_cap`: the part of a payout that may still be made today. */
  function CheckDailyCap(distributed: U64, proposed: U64, cap: Option<U64>): Result<U64> {
    match cap
    case None => Ok(proposed)
    case Some(cap) =>
      var total: U64 :- Fit64(distributed + proposed);
      Ok(if total > cap then Monus(cap, distributed) as U64 else proposed)
  }

  // ----- What the formulas guarantee -----

  /** `k` basis points are within the configured share, 100%, and the part of the allocation that is
      still locked. */
  ghost predicate ShareAllowed(policy: Policy, lockedTotal: nat, k: nat) {
    && k <= policy.investorFeeShareBps && k <= BASIS_POINTS_DIVISOR
    && k * policy.y0TotalAllocation <= lockedTotal * BASIS_POINTS_DIVISOR
  }

  /** The investors' share is the greatest that is allowed; without an allocation it is zero. */
  lemma EligibleShareIsGreatest(policy: Policy, lockedTotal: U64, k: nat)
    ensures policy.y0TotalAllocation == 0 ==> EligibleShareBps(policy, lockedTotal) == 0
    ensures policy.y0TotalAllocation > 0 ==>
              (k <= EligibleShareBps(policy, lockedTotal) <==> ShareAllowed(policy, lockedTotal, k))
  {
    var y0 := policy.y0TotalAllocation;
    if y0 > 0 {
      var fraction := FloorDiv(lockedTotal * BASIS_POINTS_DIVISOR, y0);
      if k <= fraction {
        MulMono(k, fraction, y0);
      } else {
        MulMono(fraction + 1, k, y0);
      }
    }
  }

  /** The investors' pool is the floor of its share of the claim. */
  lemma InvestorFeeIsFloor(claimed: U64, bps: U16)
    requires bps <= BASIS_POINTS_DIVISOR
    ensures InvestorFeeAmount(claimed, bps).Ok?
    ensures var pool := InvestorFeeAmount(claimed, bps).value;
            pool * BASIS_POINTS_DIVISOR <= claimed * bps < (pool + 1) * BASIS_POINTS_DIVISOR
  {
    InvestorFeeBounded(claimed, claimed, bps);
  }

  /** So the pool never exceeds the part of the claim that corresponds to what is still locked. */
  lemma PoolWithinLockedPart(policy: Policy, claimed: U64, lockedTotal: U64)
    ensures var pool := InvestorFeeAmount(claimed, EligibleShareBps(policy, lockedTotal));
            && pool.Ok? && pool.value * policy.y0TotalAllocation <= claimed * lockedTotal
            && pool.value * BASIS_POINTS_DIVISOR <= claimed * policy.investorFeeShareBps
  {
    var bps, y0 := EligibleShareBps(policy, lockedTotal), policy.y0TotalAllocation;
    EligibleShareIsGreatest(policy, lockedTotal, bps);
    InvestorFeeIsFloor(claimed, bps);
    MulMono(bps, policy.investorFeeShareBps, claimed);
    PoolArithmetic(InvestorFeeAmount(claimed, bps).value, claimed, bps, y0, lockedTotal);
  }

  lemma PoolArithmetic(pool: nat, claimed: nat, bps: nat, y0: nat, locked: nat)
    requires pool * BASIS_POINTS_DIVISOR <= claimed * bps
    requires bps * y0 <= locked * BASIS_POINTS_DIVISOR || y0 == 0
    ensures pool * y0 <= claimed * locked
  {
    if y0 == 0 {
      MulMono(0, claimed, locked);
    } else {
      MulMono(pool * BASIS_POINTS_DIVISOR, claimed * bps, y0);
      MulMono(bps * y0, locked * BASIS_POINTS_DIVISOR, claimed);
      assert (claimed * bps) * y0 == (bps * y0) * claimed;
      assert (pool * BASIS_POINTS_DIVISOR) * y0 == (pool * y0) * BASIS_POINTS_DIVISOR;
      assert (locked * BASIS_POINTS_DIVISOR) * claimed == (claimed * locked) * BASIS_POINTS_DIVISOR;
      CancelLe(pool * y0, claimed * locked, BASIS_POINTS_DIVISOR);
    }
  }

  /** The investors' pool is at most what was claimed, so it is always defined, and it grows with the
      claim. */
  lemma InvestorFeeBounded(claimed: U64, more: U64, bps: U16)
    requires bps <= BASIS_POINTS_DIVISOR && claimed <= more
    ensures InvestorFeeAmount(claimed, bps).Ok? && InvestorFeeAmount(more, bps).Ok?
    ensures InvestorFeeAmount(claimed, bps).value <= InvestorFeeAmount(more, bps).value
    ensures InvestorFeeAmount(claimed, bps).value <= claimed
  {
    AtMostAll(claimed, bps, BASIS_POINTS_DIVISOR);
    AtMostAll(more, bps, BASIS_POINTS_DIVISOR);
    MulMono(claimed, more, bps);
    FloorMono(claimed * bps, more * bps, BASIS_POINTS_DIVISOR);
  }

  lemma AtMostAll(amount: nat, part: nat, whole: nat)
    requires 0 < whole && part <= whole
    ensures FloorDiv(amount * part, whole) <= amount
  {
    MulMono(part, whole, amount);
    FloorBelow(amount * part, whole, amount + 1);
  }

  /** A payout out of a locked amount within the total is at most the pool, and the floor of its
      proportion of it. */
  lemma IndividualPayoutBounded(investorFee: U64, locked: U64, totalLocked: U64)
    requires locked <= totalLocked
    ensures IndividualPayout(investorFee, locked, totalLocked).Ok?
    ensures IndividualPayout(investorFee, locked, totalLocked).value <= investorFee
    ensures IndividualPayout(investorFee, locked, totalLocked).value * totalLocked <= investorFee * locked
    ensures totalLocked > 0 ==>
              investorFee * locked
              < (IndividualPayout(investorFee, locked, totalLocked).value + 1) * totalLocked
  {
    if totalLocked > 0 {
      AtMostAll(investorFee, locked, totalLocked);
    }
  }

  /** The cap never raises a payout and never lets the day's total pass it. */
  lemma DailyCapHolds(distributed: U64, proposed: U64, cap: U64)
    requires CheckDailyCap(distributed, proposed, Some(cap)).Ok?
    ensures var allowed := CheckDailyCap(distributed, proposed, Some(cap)).value;
            allowed <= proposed && (distributed <= cap ==> distributed + allowed <= cap)
  {
  }
}

/** Charging a fee on an amount, undoing it, and splitting it between its four recipients. */
module Fees {
  import opened Checked
  import opened Division
  import opened UtilsMath

  const FEE_DENOMINATOR: U64 := 1_000_000_000
  const MIN_FEE_NUMERATOR: U64 := 100_000
  const MAX_FEE_NUMERATOR_V0: U64 := 500_000_000
  const MAX_FEE_NUMERATOR_V1: U64 := 990_000_000
  const CURRENT_POOL_VERSION: U8 := 0

  function MaxFeeNumerator(version: U8): (r: Result<U64>)
    ensures r.Ok? <==> version <= CURRENT_POOL_VERSION + 1
    ensures r.Ok? ==> r.value < FEE_DENOMINATOR
    ensures r.Ok? && version == CURRENT_POOL_VERSION ==> 2 * r.value == FEE_DENOMINATOR
    ensures r.Ok? && version > CURRENT_POOL_VERSION ==> 100 * r.value == 99 * FEE_DENOMINATOR
  {
    if version == 0 then Ok(MAX_FEE_NUMERATOR_V0)
    else if version == 1 then Ok(MAX_FEE_NUMERATOR_V1)
    else Err(InvalidPoolVersion)
  }

  datatype FeeAmount = FeeAmount(amount: U64, fee: U64)

  /** `get_excluded_fee_amount`: what is left of an amount that includes the fee. */
  function ExcludedFee(numerator: U64, included: U64): Result<FeeAmount> {
    var fee :- MulDivU64(included, numerator, FEE_DENOMINATOR, Up);
    var excluded :- Fit64(included - fee);
    Ok(FeeAmount(excluded, fee))
  }

  /** `get_included_fee_amount`: the amount that has to be paid so that `excluded` is left. */
  function IncludedFee(numerator: U64, excluded: U64): Result<FeeAmount> {
    var complement :- Fit64(FEE_DENOMINATOR - numerator);
    var included :- MulDivU64(excluded, FEE_DENOMINATOR, complement, Up);
    var fee :- Fit64(included - excluded);
    Ok(FeeAmount(included, fee))
  }

  /** Below 100% the fee never exceeds the amount, and the rest is the floor of the other share. */
  lemma ExcludedFeeIsFloor(numerator: U64, included: U64)
    requires numerator <= FEE_DENOMINATOR
    ensures ExcludedFee(numerator, included).Ok?
    ensures var r := ExcludedFee(numerator, included).value;
            && r.amount + r.fee == included
            && r.amount == FloorDiv(included * (FEE_DENOMINATOR - numerator), FEE_DENOMINATOR)
  {
    var d := FEE_DENOMINATOR;
    var fee := CeilDiv(included * numerator, d);
    MulMono(numerator, d, included);
    CeilAtMost(included * numerator, d, included);
    assert included * (d - numerator) == included * d - included * numerator;
    FloorAtLeast(included * (d - numerator), d, included - fee);
    FloorBelow(included * (d - numerator), d, included - fee + 1);
  }

  /** Below 100% the inverse fails only when the amount to pay does not fit 64 bits. */
  lemma IncludedFeeIsCeil(numerator: U64, excluded: U64)
    requires numerator < FEE_DENOMINATOR
    ensures var needed := CeilDiv(excluded * FEE_DENOMINATOR, FEE_DENOMINATOR - numerator);
            && excluded <= needed
            && IncludedFee(numerator, excluded)
               == if needed <= U64_MAX then Ok(FeeAmount(needed, needed - excluded))
                  else Err(TypeCastFailed)
  {
    var d, c := FEE_DENOMINATOR, FEE_DENOMINATOR - numerator;
    var needed := CeilDiv(excluded * d, c);
    MulMono(c, d, excluded);
    CancelLe(excluded, needed, c);
  }

  /** The two directions are adjoint: paying `included` leaves at least `excluded` exactly when
      `included` is at least what the inverse asks for. */
  lemma FeeAdjoint(numerator: U64, included: U64, excluded: U64)
    requires numerator < FEE_DENOMINATOR
    ensures excluded <= ExcludedFeeValue(numerator, included)
            <==> CeilDiv(excluded * FEE_DENOMINATOR, FEE_DENOMINATOR - numerator) <= included
  {
    var d, c := FEE_DENOMINATOR, FEE_DENOMINATOR - numerator;
    ExcludedFeeIsFloor(numerator, included);
    var left, needed := FloorDiv(included * c, d), CeilDiv(excluded * d, c);
    if excluded <= left {
      MulMono(excluded, left, d);
      CeilAtMost(excluded * d, c, included);
    }
    if needed <= included {
      MulMono(needed, included, c);
      FloorAtLeast(included * c, d, excluded);
    }
  }

  /** The amount left after the fee, which is always defined below 100%. */
  function ExcludedFeeValue(numerator: U64, included: U64): (amount: U64)
    requires numerator <= FEE_DENOMINATOR
    ensures amount <= included
  {
    ExcludedFeeIsFloor(numerator, included);
    ExcludedFee(numerator, included).value.amount
  }

  datatype FeeShares = FeeShares(protocolPercent: U8, partnerPercent: U8, referralPercent: U8)

  predicate ArePercents(shares: FeeShares) {
    shares.protocolPercent <= 100 && shares.partnerPercent <= 100 && shares.referralPercent <= 100
  }

  datatype SplitFees = SplitFees(trading: U64, protocol: U64, referral: U64, partner: U64)

  const NO_FEES := SplitFees(0, 0, 0, 0)

  /** `split_fees` */
  function Split(shares: FeeShares, fee: U64, hasReferral: bool, hasPartner: bool): Result<SplitFees> {
    var protocol :- MulDivU64(fee, shares.protocolPercent, 100, Down);
    var trading :- Fit64(fee - protocol);
    var referral :- if hasReferral then MulDivU64(protocol, shares.referralPercent, 100, Down) else Zero();
    var afterReferral :- Fit64(protocol - referral);
    var partner :- if hasPartner && shares.partnerPercent > 0
                   then MulDivU64(afterReferral, shares.partnerPercent, 100, Down)
                   else Zero();
    var kept :- Fit64(afterReferral - partner);
    Ok(SplitFees(trading, kept, referral, partner))
  }

  function Zero(): Result<U64> {
    Ok(0)
  }

  /** Every split hands out the whole fee and nothing else. */
  lemma SplitConserves(shares: FeeShares, fee: U64, hasReferral: bool, hasPartner: bool)
    ensures var r := Split(shares, fee, hasReferral, hasPartner);
            && (r.Ok? ==>
                  && r.value.trading + r.value.protocol + r.value.referral + r.value.partner == fee
                  && (!hasReferral ==> r.value.referral == 0)
                  && (!hasPartner ==> r.value.partner == 0))
            && (ArePercents(shares) ==> r.Ok?)
  {
    if ArePercents(shares) {
      PercentFits(fee, shares.protocolPercent);
      var protocol := FloorDiv(fee * shares.protocolPercent, 100);
      PercentFits(protocol, shares.referralPercent);
      var referral := if hasReferral then FloorDiv(protocol * shares.referralPercent, 100) else 0;
      PercentFits(protocol - referral, shares.partnerPercent);
    }
  }

  /** `part` is the percentage of `whole`, rounded down. */
  ghost predicate IsPercent(part: int, percent: nat, whole: int) {
    part * 100 <= whole * percent < (part + 1) * 100
  }

  /** Each part of a split is the floor of its own percentage: the liquidity gives up the protocol's, out
      of that the referrer takes its own first, and the partner its own of what is left. */
  lemma SplitShares(shares: FeeShares, fee: U64, hasReferral: bool, hasPartner: bool)
    requires Split(shares, fee, hasReferral, hasPartner).Ok?
    ensures var r := Split(shares, fee, hasReferral, hasPartner).value;
            && IsPercent(fee - r.trading, shares.protocolPercent, fee)
            && (if hasReferral then IsPercent(r.referral, shares.referralPercent, fee - r.trading)
                else r.referral == 0)
            && (if hasPartner
                then IsPercent(r.partner, shares.partnerPercent, fee - r.trading - r.referral)
                else r.partner == 0)
            && r.protocol == fee - r.trading - r.referral - r.partner
  {
  }

  lemma PercentFits(amount: U64, percent: U8)
    requires percent <= 100
    ensures FloorDiv(amount * percent, 100) <= amount
  {
    MulMono(percent, 100, amount);
    FloorBelow(amount * percent, 100, amount + 1);
  }

  datatype TradeDirection = AtoB | BtoA

  datatype CollectFeeMode = BothToken | OnlyB

  datatype FeeMode = FeeMode(feesOnInput: bool, feesOnTokenA: bool, hasReferral: bool)

  /** `get_fee_mode` */
  function GetFeeMode(collect: CollectFeeMode, direction: TradeDirection, hasReferral: bool): (m: FeeMode)
    ensures m.feesOnInput <==> collect.OnlyB? && direction.BtoA?
    ensures m.feesOnInput ==> !m.feesOnTokenA
    ensures !m.feesOnInput ==> m.feesOnTokenA == direction.BtoA?
    ensures collect.OnlyB? ==> !m.feesOnTokenA
    ensures m.hasReferral == hasReferral
  {
    match (collect, direction)
    case (BothToken, AtoB) => FeeMode(false, false, hasReferral)
    case (BothToken, BtoA) => FeeMode(false, true, hasReferral)
    case (OnlyB, AtoB) => FeeMode(false, false, hasReferral)
    case (OnlyB, BtoA) => FeeMode(true, false, hasReferral)
  }
}

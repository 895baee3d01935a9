/** The crank as the program runs it: three loops over the investors of a page, updating the progress
    account, its bitmap and the treasury in place, proved to do what `Crank` says. */
module CrankHandler {
  import opened Checked
  import opened Handlers
  import opened Progress
  import opened RouterMath
  import opened Crank

  /** The part of `InvestorFeePositionOwner` that the crank writes. */
  class PositionOwner {
    var totalFeesClaimed: U64

    constructor ()
      ensures totalFeesClaimed == 0
    {
      totalFeesClaimed := 0;
    }
  }

  ghost function AccountsOf(progress: DistributionProgress, treasury: TokenAccount, owner: PositionOwner)
    : Accounts
    requires progress.Valid()
    reads progress, progress.paidInvestorBitmap, treasury, owner
  {
    Accounts(progress.View(), treasury.amount, owner.totalFeesClaimed)
  }

  /** The running totals of a page, part of them in the accounts. */
  ghost function TotalsOf(
      progress: DistributionProgress, treasury: TokenAccount, pageDistributed: U64, pageDust: U64): Totals
    requires progress.Valid()
    reads progress, progress.paidInvestorBitmap, treasury
  {
    Totals(
      progress.currentDayDistributed, treasury.amount, pageDistributed, pageDust, progress.Paid())
  }

  // ----- Reading streams -----

  method ReadTotalLocked(streams: seq<Result<U64>>) returns (total: Result<U64>)
    ensures total == TotalLocked(streams, 0)
  {
    var sum: U64 := 0;
    for i := 0 to |streams|
      invariant TotalLocked(streams, 0) == TotalLocked(streams[i..], sum)
    {
      assert streams[i..][1..] == streams[i + 1..];
      var locked: U64 :- streams[i];
      sum :- Fit64(sum + locked);
    }
    return Ok(sum);
  }

  method ReadPage(streams: seq<Result<U64>>) returns (page: Result<seq<U64>>)
    ensures page == ReadLocked(streams, [])
  {
    var individualLocked: seq<U64> := [];
    for i := 0 to |streams|
      invariant ReadLocked(streams, []) == ReadLocked(streams[i..], individualLocked)
    {
      assert streams[i..][1..] == streams[i + 1..];
      var locked: U64 :- streams[i];
      individualLocked := individualLocked + [locked];
    }
    return Ok(individualLocked);
  }

  // ----- Paying out -----

  method PayOneInvestor(
      policy: Policy, progress: DistributionProgress, treasury: TokenAccount, fee: U64, totalLocked: U64,
      index: nat, locked: U64, pageDistributed: U64, pageDust: U64)
    returns (r: Outcome<Unit>, pageDistributed': U64, pageDust': U64)
    requires progress.Valid()
    modifies progress`currentDayDistributed, progress.paidInvestorBitmap, treasury
    ensures Handled(
              PayInvestor(
                policy, fee, totalLocked,
                old(TotalsOf(progress, treasury, pageDistributed, pageDust)), index, locked),
              r, TotalsOf(progress, treasury, pageDistributed', pageDust'))
  {
    pageDistributed', pageDust' := pageDistributed, pageDust;
    var paid := progress.IsInvestorPaid(index);
    if paid {
      r := Aborted(InvestorAlreadyPaid);
      return;
    }
    var payout := IndividualPayout(fee, locked, totalLocked);
    if payout.Err? {
      r := Aborted(payout.error);
      return;
    }
    var split := ApplyDustThreshold(payout.value, policy.minPayout);
    if split.payout > 0 {
      var cap := CheckDailyCap(progress.currentDayDistributed, split.payout, policy.dailyCap);
      if cap.Err? {
        r := Aborted(cap.error);
        return;
      }
      var allowed: U64 := cap.value;
      if allowed > 0 {
        r := treasury.TransferOut(allowed);
        if !r.Done? {
          return;
        }
        progress.currentDayDistributed := SaturatingAdd(progress.currentDayDistributed, allowed);
        pageDistributed' := SaturatingAdd(pageDistributed, allowed);
        var marked := progress.MarkInvestorPaid(index);
        if marked.Err? {
          r := Aborted(marked.error);
          return;
        }
      }
      pageDust' := SaturatingAdd(pageDust, Monus(split.payout, allowed));
    } else {
      pageDust' := SaturatingAdd(pageDust, split.dust);
    }
    r := Done(Unit);
  }

  method PayInvestors(
      policy: Policy, progress: DistributionProgress, treasury: TokenAccount, fee: U64, totalLocked: U64,
      pageStart: U32, locked: seq<U64>)
    returns (r: Outcome<Unit>, pageDistributed: U64, pageDust: U64)
    requires progress.Valid()
    modifies progress`currentDayDistributed, progress.paidInvestorBitmap, treasury
    ensures Handled(
              PayAll(
                policy, fee, totalLocked, old(TotalsOf(progress, treasury, 0, 0)), pageStart, locked, 0),
              r, TotalsOf(progress, treasury, pageDistributed, pageDust))
  {
    hide PayInvestor;
    pageDistributed, pageDust := 0, 0;
    for idx := 0 to |locked|
      invariant PayAll(
                  policy, fee, totalLocked, old(TotalsOf(progress, treasury, 0, 0)), pageStart, locked, 0)
                == PayAll(
                     policy, fee, totalLocked, TotalsOf(progress, treasury, pageDistributed, pageDust),
                     pageStart, locked, idx)
    {
      if pageStart + idx >= 0x1_0000_0000 {
        r := Aborted(MathOverflow);
        return;
      }
      r, pageDistributed, pageDust := PayOneInvestor(
        policy, progress, treasury, fee, totalLocked, pageStart + idx, locked[idx], pageDistributed,
        pageDust);
      if !r.Done? {
        return;
      }
    }
    r := Done(Unit);
  }

  method SumLocked(locked: seq<U64>) returns (sum: Result<U64>)
    ensures sum == Plain64(Sum(locked))
  {
    var total: U64 := 0;
    for i := 0 to |locked|
      invariant Sum(locked) == total + Sum(locked[i..])
    {
      assert locked[i..][1..] == locked[i + 1..];
      if total + locked[i] >= TWO_64 {
        return Err(Panic);
      }
      total := total + locked[i];
    }
    return Ok(total);
  }

  method PayDustShares(
      progress: DistributionProgress, treasury: TokenAccount, dust: U64, pageLocked: U64, locked: seq<U64>,
      pageDistributed: U64, ghost pageDust: U64)
    returns (r: Outcome<Unit>, pageDistributed': U64)
    requires progress.Valid() && pageLocked > 0
    modifies progress`currentDayDistributed, treasury
    ensures Handled(
              PayDust(
                dust, pageLocked, old(TotalsOf(progress, treasury, pageDistributed, pageDust)), locked, 0),
              r, TotalsOf(progress, treasury, pageDistributed', pageDust))
  {
    hide ShareTruncated;
    pageDistributed' := pageDistributed;
    for idx := 0 to |locked|
      invariant PayDust(
                  dust, pageLocked, old(TotalsOf(progress, treasury, pageDistributed, pageDust)), locked, 0)
                == PayDust(
                     dust, pageLocked, TotalsOf(progress, treasury, pageDistributed', pageDust), locked,
                     idx)
    {
      var share := ShareTruncated(dust, locked[idx], pageLocked);
      if share > 0 {
        r := treasury.TransferOut(share);
        if !r.Done? {
          return;
        }
        progress.currentDayDistributed := SaturatingAdd(progress.currentDayDistributed, share);
        pageDistributed' := SaturatingAdd(pageDistributed', share);
      }
    }
    r := Done(Unit);
  }

  method PayCarried(
      progress: DistributionProgress, treasury: TokenAccount, dust: U64, carried: U64, locked: seq<U64>,
      pageDistributed: U64, pageDust: U64)
    returns (r: Outcome<Unit>, pageDistributed': U64, pageDust': U64)
    requires progress.Valid()
    modifies progress`currentDayDistributed, treasury
    ensures Handled(
              PayCarriedDust(
                dust, carried, old(TotalsOf(progress, treasury, pageDistributed, pageDust)), locked),
              r, TotalsOf(progress, treasury, pageDistributed', pageDust'))
  {
    hide PayDust;
    pageDistributed', pageDust' := pageDistributed, pageDust;
    if dust > 0 {
      var sum := SumLocked(locked);
      if sum.Err? {
        r := Aborted(sum.error);
        return;
      }
      if sum.value > 0 {
        r, pageDistributed' := PayDustShares(
          progress, treasury, dust, sum.value, locked, pageDistributed, pageDust);
        if !r.Done? {
          return;
        }
      }
      pageDust' := SaturatingAdd(pageDust, Monus(carried, dust));
    } else {
      pageDust' := SaturatingAdd(pageDust, carried);
    }
    r := Done(Unit);
  }

  // ----- The whole call -----

  /** Opens a day when the call asks for its first page; yields the amount the page accounts for and
      the number of investors it pays. */
  method StartDayIfNeeded(
      progress: DistributionProgress, treasury: TokenAccount, owner: PositionOwner, call: Call,
      kind: PageKind)
    returns (r: Outcome<Unit>, claimed: U64, toProcess: nat)
    requires WellFormedCall(call) && progress.Valid()
    modifies progress, progress.paidInvestorBitmap, treasury, owner
    ensures Handled(
              OpenDay(old(AccountsOf(progress, treasury, owner)), call, kind), r,
              Opened(AccountsOf(progress, treasury, owner), claimed, toProcess))
  {
    hide TotalLocked;
    claimed, toProcess := progress.currentDayTotalClaimed, Pairs(call);
    r := Done(Unit);
    if kind.FirstPage? && progress.dayCompleted {
      var total := ReadTotalLocked(call.streams);
      if total.Err? {
        r := Aborted(total.error);
        return;
      }
      if call.claim.Err? {
        r := Aborted(call.claim.error);
        return;
      }
      claimed := call.claim.value;
      r := treasury.TransferIn(claimed);
      if !r.Done? {
        return;
      }
      progress.BeginDay(call.now, claimed, total.value);
      if owner.totalFeesClaimed + claimed >= TWO_64 {
        r := Aborted(Panic);
        return;
      }
      owner.totalFeesClaimed := owner.totalFeesClaimed + claimed;
      toProcess := Min(call.pageSize, Pairs(call));
    }
  }

  method DustOfPage(policy: Policy, carried: U64, locked: seq<U64>, totalLocked: U64)
    returns (dust: Result<U64>)
    ensures dust == DustForPage(policy, carried, locked, totalLocked)
  {
    if carried < policy.minPayout {
      return Ok(0);
    }
    var sum := SumLocked(locked);
    var pageLocked: U64 :- sum;
    return Ok(if totalLocked > 0 then ShareTruncated(carried, pageLocked, totalLocked) else 0);
  }

  /** The payout loops of a page, leaving the totals in the accounts and the out-parameters. */
  method PayOnePage(
      policy: Policy, progress: DistributionProgress, treasury: TokenAccount, owner: PositionOwner,
      call: Call, claimed: U64, toProcess: nat)
    returns (r: Outcome<Unit>, locked: seq<U64>, pageDistributed: U64, pageDust: U64)
    requires WellFormedCall(call) && progress.Valid() && toProcess <= |call.streams|
    modifies progress`currentDayDistributed, progress.paidInvestorBitmap, treasury
    ensures Handled(
              PayPage(policy, Opened(old(AccountsOf(progress, treasury, owner)), claimed, toProcess), call),
              r, PagePaid(TotalsOf(progress, treasury, pageDistributed, pageDust), locked))
  {
    hide PayAll, PayCarriedDust, DustForPage, ReadLocked, EligibleShareBps, InvestorFeeAmount;
    pageDistributed, pageDust, locked := 0, 0, [];
    var read := ReadPage(call.streams[..toProcess]);
    if read.Err? {
      r := Aborted(read.error);
      return;
    }
    locked := read.value;
    var totalLocked := progress.currentDayTotalLockedAll;
    var fee := InvestorFeeAmount(claimed, EligibleShareBps(policy, totalLocked));
    if fee.Err? {
      r := Aborted(fee.error);
      return;
    }
    var carried := progress.currentDayCarryOver;
    var dust := DustOfPage(policy, carried, locked, totalLocked);
    if dust.Err? {
      r := Aborted(dust.error);
      return;
    }
    r, pageDistributed, pageDust := PayInvestors(
      policy, progress, treasury, fee.value, totalLocked, call.pageStart, locked);
    if !r.Done? {
      return;
    }
    r, pageDistributed, pageDust := PayCarried(
      progress, treasury, dust.value, carried, locked, pageDistributed, pageDust);
  }

  /** Gives the creator the remainder and closes the day. */
  method CloseTheDay(
      progress: DistributionProgress, treasury: TokenAccount, owner: PositionOwner, claimed: U64)
    returns (r: Outcome<Unit>)
    requires progress.Valid()
    modifies progress, progress.paidInvestorBitmap, treasury
    ensures Handled(
              CloseDay(old(AccountsOf(progress, treasury, owner)), claimed), r,
              AccountsOf(progress, treasury, owner))
  {
    var remainder :=
      CreatorRemainder(claimed, progress.currentDayDistributed, progress.currentDayCarryOver);
    if remainder > 0 {
      var _ :- treasury.TransferOut(remainder);
    }
    var finished := progress.FinishDay(remainder);
    var _ :- Computed(finished);
    return Done(Unit);
  }

  method RunOnePage(
      policy: Policy, progress: DistributionProgress, treasury: TokenAccount, owner: PositionOwner,
      call: Call, kind: PageKind)
    returns (r: Outcome<Unit>, locked: seq<U64>)
    requires WellFormedCall(call) && progress.Valid()
    modifies progress, progress.paidInvestorBitmap, treasury, owner
    ensures Handled(
              RunPage(policy, old(AccountsOf(progress, treasury, owner)), call, kind), r,
              Cranked(AccountsOf(progress, treasury, owner), locked))
  {
    hide OpenDay, PayPage, CloseDay, IsFinalPage;
    locked := [];
    var claimed, toProcess, pageDistributed, pageDust;
    r, claimed, toProcess := StartDayIfNeeded(progress, treasury, owner, call, kind);
    if !r.Done? {
      return;
    }
    var isFinalPage := IsFinalPage(policy, call, toProcess);
    if isFinalPage.Err? {
      r := Aborted(isFinalPage.error);
      return;
    }
    ToProcessFits(old(AccountsOf(progress, treasury, owner)), call, kind);
    r, locked, pageDistributed, pageDust := PayOnePage(
      policy, progress, treasury, owner, call, claimed, toProcess);
    if !r.Done? {
      return;
    }
    progress.currentDayCarryOver := pageDust;
    if call.pageStart + call.pageSize >= 0x1_0000_0000 {
      r := Aborted(Panic);
      return;
    }
    progress.paginationCursor := call.pageStart + call.pageSize;
    if progress.totalInvestorDistributed + pageDistributed >= TWO_64 {
      r := Aborted(Panic);
      return;
    }
    progress.totalInvestorDistributed := progress.totalInvestorDistributed + pageDistributed;
    if isFinalPage.value {
      r := CloseTheDay(progress, treasury, owner, claimed);
    }
  }

  lemma ToProcessFits(a: Accounts, call: Call, kind: PageKind)
    requires WellFormedCall(call) && OpenDay(a, call, kind).Done?
    ensures OpenDay(a, call, kind).value.toProcess <= |call.streams|
  {
    hide TotalLocked;
  }

  /** `handle_crank_distribution` */
  method HandleCrankDistribution(
      policy: Policy, progress: DistributionProgress, treasury: TokenAccount, owner: PositionOwner,
      call: Call)
    returns (r: Outcome<Unit>, locked: seq<U64>)
    requires WellFormedCall(call) && progress.Valid()
    modifies progress, progress.paidInvestorBitmap, treasury, owner
    ensures Handled(
              CrankDistribution(policy, old(AccountsOf(progress, treasury, owner)), call), r,
              Cranked(AccountsOf(progress, treasury, owner), locked))
  {
    hide RunPage;
    locked := [];
    if !(0 < call.pageSize <= MAX_PAGE_SIZE) {
      r := Aborted(InvalidPagination);
      return;
    }
    if PlainI64(progress.lastDistributionTs + SECONDS_PER_DAY).Err? {
      r := Aborted(Panic);
      return;
    }
    if progress.dayCompleted && call.now < progress.lastDistributionTs + SECONDS_PER_DAY {
      r := Aborted(CrankWindowNotReached);
      return;
    }
    var cursor := progress.paginationCursor;
    var isFirstPage := call.pageStart == 0 && (progress.dayCompleted || cursor == 0);
    var previousPageStart := if cursor >= call.pageSize then cursor - call.pageSize else 0;
    if !progress.dayCompleted && call.pageStart == previousPageStart && call.pageStart < cursor {
      r := Done(Unit);
      return;
    }
    if !isFirstPage && call.pageStart != cursor {
      r := Aborted(InvalidPaginationSequence);
      return;
    }
    r, locked := RunOnePage(
      policy, progress, treasury, owner, call, if isFirstPage then FirstPage else NextPage);
  }
}

/** An open day can be closed: exactly when a page with no investors goes through. */
module DayEnd {
  import opened Checked
  import opened Progress
  import opened RouterMath
  import opened Crank
  import opened CrankProofs
  import opened CrankBooks
  import opened RouterRuns

  /** A continuation of the day with no investors. */
  predicate EmptyPage(r: Router, call: Call) {
    && !BetweenDays(r) && call.pageStart == r.accounts.progress.cursor
    && call.streams == [] && !call.trailing
  }

  /** What the creator gets when the day is closed as it stands. */
  ghost function Remainder(r: Router): int {
    var p := r.accounts.progress;
    p.totalClaimed - p.distributed - p.carryOver
  }

  /** The lifetime counters, which are checked, can take up the end of the day, and the next day has a
      representable start. */
  ghost predicate CountersFit(r: Router) {
    var p := r.accounts.progress;
    && p.lastDistributionTs + SECONDS_PER_DAY < 0x8000_0000_0000_0000
    && p.totalDistributions + 1 < TWO_64
    && p.totalCreatorDistributed + Remainder(r) < TWO_64
  }

  lemma NoInvestorsPaid(policy: Policy, o: Opened, call: Call)
    requires call.streams == [] && !call.trailing && o.toProcess == 0
    requires InvestorFeeAmount(
               o.claimed, EligibleShareBps(policy, o.accounts.progress.totalLockedAll)).Ok?
    ensures var p := o.accounts.progress;
            PayPage(policy, o, call)
            == Done(PagePaid(
                      Totals(p.distributed, o.accounts.treasury, 0, p.carryOver, p.paid), []))
  {
    hide EligibleShareBps, InvestorFeeAmount;
    assert call.streams[..0] == [];
    assert ReadLocked([], []) == Ok([]) && Sum([]) == 0;
  }

  /** The checks of an empty page: the page size and the time window. */
  lemma EmptyPageChecked(r: Router, call: Call)
    requires Books(r) && EmptyPage(r, call)
    ensures CheckCall(r.accounts.progress, call).Ok?
            <==> && 0 < call.pageSize <= MAX_PAGE_SIZE
                 && r.accounts.progress.lastDistributionTs + SECONDS_PER_DAY < 0x8000_0000_0000_0000
    ensures CheckCall(r.accounts.progress, call).Ok? ==>
              CheckCall(r.accounts.progress, call) == Ok(NextPage)
  {
    hide OpenBooks, NoDuplicates;
  }

  /** What is left of an empty page once it is checked: the books of the page and the end of the day. */
  lemma EmptyPageRuns(r: Router, call: Call)
    requires Books(r) && EmptyPage(r, call) && 0 < call.pageSize
    requires 0 <= Remainder(r) <= r.accounts.treasury
    ensures var p := r.accounts.progress;
            RunPage(r.policy, r.accounts, call, NextPage).Done?
            <==> && p.cursor + call.pageSize < 0x1_0000_0000
                 && p.totalDistributions + 1 < TWO_64 && p.totalCreatorDistributed + Remainder(r) < TWO_64
    ensures RunPage(r.policy, r.accounts, call, NextPage).Done? ==>
              RunPage(r.policy, r.accounts, call, NextPage).value.accounts.progress.dayCompleted
  {
    hide PayPage, EligibleShareBps, InvestorFeeAmount, WithinPool, NoDuplicates;
    var p := r.accounts.progress;
    var o := Opened(r.accounts, p.totalClaimed, 0);
    InvestorFeeBounded(p.totalClaimed, p.totalClaimed, EligibleShareBps(r.policy, p.totalLockedAll));
    NoInvestorsPaid(r.policy, o, call);
  }

  lemma RemainderFunded(r: Router)
    requires Reachable(r) && !BetweenDays(r)
    ensures 0 <= Remainder(r) <= r.accounts.treasury
  {
    hide Reachable, WithinPool, DayPool, NoDuplicates;
    ReachableBooks(r);
    DayWithinPool(r);
  }

  /** In every reachable open day the page with no investors goes through, and closes the day, exactly
      when its size is allowed, the cursor it books fits 32 bits, and the lifetime counters fit. */
  lemma EmptyPageClosesIff(r: Router, call: Call)
    requires Reachable(r) && EmptyPage(r, call)
    ensures CrankDistribution(r.policy, r.accounts, call).Done?
            <==> && 0 < call.pageSize <= MAX_PAGE_SIZE
                 && r.accounts.progress.cursor + call.pageSize < 0x1_0000_0000
                 && CountersFit(r)
    ensures CrankDistribution(r.policy, r.accounts, call).Done? ==> BetweenDays(AfterCall(r, call))
  {
    hide Reachable, Books, CheckCall, RunPage, EmptyPage, Remainder, PaidIn;
    ReachableBooks(r);
    EmptyPageChecked(r, call);
    OpenWhenEmpty(r, call);
    RemainderFunded(r);
    if 0 < call.pageSize {
      EmptyPageRuns(r, call);
    }
  }

  lemma OpenWhenEmpty(r: Router, call: Call)
    requires EmptyPage(r, call)
    ensures !BetweenDays(r) && WellFormedCall(call)
  {
  }

  /** So in every reachable open day there is a consistent call that closes it, unless a lifetime counter
      is full: a page of one without investors, whose cursor always fits. */
  lemma OpenDayCanBeClosed(r: Router) returns (call: Call)
    requires Reachable(r) && !BetweenDays(r)
    ensures WellFormedCall(call) && Consistent(r, call)
    ensures CrankDistribution(r.policy, r.accounts, call).Done? <==> CountersFit(r)
    ensures CountersFit(r) ==> BetweenDays(AfterCall(r, call))
  {
    hide Reachable, CrankDistribution, AfterCall, CountersFit, WithinPool, DayPool, NoDuplicates;
    ReachableBooks(r);
    call := Call(r.accounts.progress.cursor, 1, 0, [], false, Ok(0));
    assert call.streams[..0] == [] && ReadLocked([], []) == Ok([]) && Sum([]) == 0;
    EmptyPageClosesIff(r, call);
  }
}

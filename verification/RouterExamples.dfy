/** Two runs of the crank that show what it does not promise: a day that passes its cap, a day closed with
    an investor left out, and carried dust that is never handed out again. */
module RouterExamples {
  import opened Checked
  import opened Division
  import opened Progress
  import opened RouterMath
  import opened Crank
  import opened CrankBooks
  import opened RouterRuns
  import opened DailyCap

  // Two investors with equal locks, a cap of zero, and a claim of 4000.
  const POLICY := Policy(10_000, Some(0), 1_000, 10, 2)
  const FIRST_PAGE := Call(0, 1, 86_400, [Ok(5), Ok(5)], false, Ok(4_000))
  const SECOND_PAGE := Call(1, 1, 86_400, [Ok(5)], false, Ok(0))
  const EMPTY_PAGE := Call(1, 1, 86_400, [], false, Ok(0))
  const NEXT_DAY := Call(0, 2, 172_800, [Ok(5), Ok(5)], false, Ok(0))

  /** After the first page: the share of 2000 is over the cap, so it is carried. */
  const HALFWAY :=
    Accounts(ProgressData(86_400, 0, 2_000, 1, false, 4_000, 0, 0, 0, 10, 0, {}), 4_000, 4_000)

  /** After the second page: half of the carried dust has been handed out. */
  const CLOSED :=
    Accounts(ProgressData(86_400, 1_000, 3_000, 0, true, 4_000, 1, 1_000, 0, 10, 3_000, {}), 3_000, 4_000)

  // ----- A page of one investor -----

  lemma OneStream(locked: U64)
    ensures ReadLocked([Ok(locked)], []) == Ok([locked])
    ensures Sum([locked]) == locked
  {
    var streams: seq<Result<U64>>, so: seq<U64> := [Ok(locked)], [];
    assert streams[1..] == [] && so + [locked] == [locked] && [locked][1..] == [];
    assert ReadLocked(streams, so) == ReadLocked([], [locked]);
  }

  lemma TwoStreams(x: U64, y: U64)
    requires x + y <= U64_MAX
    ensures TotalLocked([Ok(x), Ok(y)], 0) == Ok(x + y)
  {
    var streams: seq<Result<U64>> := [Ok(x), Ok(y)];
    assert TotalLocked(streams[1..], x) == TotalLocked(streams[1..][1..], x + y);
  }

  lemma OneInvestor(policy: Policy, fee: U64, total: U64, t: Totals, pageStart: U32, locked: U64)
    ensures PayAll(policy, fee, total, t, pageStart, [locked], 0)
            == PayInvestor(policy, fee, total, t, pageStart, locked)
  {
    hide PayInvestor;
    var r := PayInvestor(policy, fee, total, t, pageStart, locked);
    assert r.Done? ==> PayAll(policy, fee, total, r.value, pageStart, [locked], 1) == r;
  }

  /** Over a cap of zero everything due is set aside. */
  lemma NothingAllowed(policy: Policy, fee: U64, total: U64, t: Totals, index: nat, locked: U64)
    requires policy.dailyCap == Some(0) && index !in t.paid && locked <= total
    requires Share(fee, locked, total) >= policy.minPayout > 0
    requires t.distributed + Share(fee, locked, total) + t.pageDust <= U64_MAX
    ensures PayInvestor(policy, fee, total, t, index, locked)
            == Done(t.(pageDust := t.pageDust + Share(fee, locked, total)))
  {
    hide FloorDiv;
    IndividualPayoutBounded(fee, locked, total);
  }

  lemma OneDustShare(dust: U64, t: Totals, locked: U64)
    requires 0 < dust <= t.treasury && 0 < locked
    requires t.distributed + dust <= U64_MAX && t.pageDistributed + dust <= U64_MAX
    ensures PayDust(dust, locked, t, [locked], 0)
            == Done(t.(
                      treasury := t.treasury - dust, distributed := t.distributed + dust,
                      pageDistributed := t.pageDistributed + dust))
  {
    hide ShareTruncated, FloorDiv;
    ShareNotTruncated(dust, locked, locked);
    FloorAtLeast(dust * locked, locked, dust);
    assert Share(dust, locked, locked) == dust;
    var t1 := Transfer(t, dust).value;
    assert PayDust(dust, locked, t1, [locked], 1) == Done(t1);
  }

  // ----- The run -----

  lemma Amounts()
    ensures EligibleShareBps(POLICY, 10) == 10_000 && InvestorFeeAmount(4_000, 10_000) == Ok(4_000)
    ensures Share(4_000, 5, 10) == 2_000 && ShareTruncated(2_000, 5, 10) == 1_000
  {
  }

  const OPENED :=
    Opened(
      Accounts(ProgressData(86_400, 0, 0, 0, false, 4_000, 0, 0, 0, 10, 0, {}), 4_000, 4_000), 4_000, 1)

  lemma FirstPageOpens()
    ensures OpenDay(NewRouter(POLICY, 0).accounts, FIRST_PAGE, FirstPage) == Done(OPENED)
  {
    hide TotalLocked;
    TwoStreams(5, 5);
  }

  lemma FirstPagePays()
    ensures PayPage(POLICY, OPENED, FIRST_PAGE) == Done(PagePaid(Totals(0, 4_000, 0, 2_000, {}), [5]))
  {
    hide ReadLocked, PayAll, PayInvestor, EligibleShareBps, InvestorFeeAmount, Share;
    OneStream(5);
    Amounts();
    assert FIRST_PAGE.streams[..1] == [Ok(5)];
    OneInvestor(POLICY, 4_000, 10, Totals(0, 4_000, 0, 0, {}), 0, 5);
    NothingAllowed(POLICY, 4_000, 10, Totals(0, 4_000, 0, 0, {}), 0, 5);
  }

  /** The steps of a call, put together. */
  lemma CallRuns(
      policy: Policy, a: Accounts, call: Call, kind: PageKind, o: Opened, paid: PagePaid, p: ProgressData,
      closes: bool)
    requires WellFormedCall(call) && o.toProcess <= |call.streams| && !kind.Retry?
    requires CheckCall(a.progress, call) == Ok(kind) && OpenDay(a, call, kind) == Done(o)
    requires PayPage(policy, o, call) == Done(paid) && IsFinalPage(policy, call, o.toProcess) == Ok(closes)
    requires BookPage(o.accounts.progress, call, paid.totals) == Ok(p)
    ensures var booked := o.accounts.(progress := p, treasury := paid.totals.treasury);
            CrankDistribution(policy, a, call)
            == if !closes then Done(Cranked(booked, paid.locked))
               else if CloseDay(booked, o.claimed).Done?
               then Done(Cranked(CloseDay(booked, o.claimed).value, paid.locked))
               else CloseDay(booked, o.claimed).PropagateFailure()
  {
    hide CheckCall, OpenDay, PayPage, IsFinalPage, BookPage, CloseDay;
  }

  lemma FirstPageRuns()
    ensures CrankDistribution(POLICY, NewRouter(POLICY, 0).accounts, FIRST_PAGE) == Done(Cranked(HALFWAY, [5]))
  {
    hide OpenDay, PayPage, CrankDistribution;
    FirstPageOpens();
    FirstPagePays();
    CallRuns(
      POLICY, NewRouter(POLICY, 0).accounts, FIRST_PAGE, FirstPage, OPENED,
      PagePaid(Totals(0, 4_000, 0, 2_000, {}), [5]), HALFWAY.progress, false);
  }

  lemma SecondPagePays()
    ensures PayPage(POLICY, Opened(HALFWAY, 4_000, 1), SECOND_PAGE)
            == Done(PagePaid(Totals(1_000, 3_000, 1_000, 3_000, {}), [5]))
  {
    hide ReadLocked, PayAll, PayInvestor, EligibleShareBps, InvestorFeeAmount, Share, ShareTruncated,
         PayDust, Sum;
    OneStream(5);
    Amounts();
    assert SECOND_PAGE.streams[..1] == [Ok(5)];
    var start := Totals(0, 4_000, 0, 0, {});
    OneInvestor(POLICY, 4_000, 10, start, 1, 5);
    NothingAllowed(POLICY, 4_000, 10, start, 1, 5);
    OneDustShare(1_000, start.(pageDust := 2_000), 5);
  }

  lemma SecondPageRuns()
    ensures CrankDistribution(POLICY, HALFWAY, SECOND_PAGE) == Done(Cranked(CLOSED, [5]))
  {
    hide PayPage, CrankDistribution;
    SecondPagePays();
    var p := HALFWAY.progress.(
      distributed := 1_000, carryOver := 3_000, cursor := 2, totalInvestorDistributed := 1_000);
    CallRuns(
      POLICY, HALFWAY, SECOND_PAGE, NextPage, Opened(HALFWAY, 4_000, 1),
      PagePaid(Totals(1_000, 3_000, 1_000, 3_000, {}), [5]), p, true);
  }

  lemma EmptyPagePays()
    ensures PayPage(POLICY, Opened(HALFWAY, 4_000, 0), EMPTY_PAGE)
            == Done(PagePaid(Totals(0, 4_000, 0, 2_000, {}), []))
  {
    hide EligibleShareBps, InvestorFeeAmount, FloorDiv;
    Amounts();
    assert EMPTY_PAGE.streams[..0] == [];
    assert ReadLocked([], []) == Ok([]) && Sum([]) == 0;
  }

  lemma EmptyPageRuns()
    ensures CrankDistribution(POLICY, HALFWAY, EMPTY_PAGE).Done?
    ensures CrankDistribution(POLICY, HALFWAY, EMPTY_PAGE).value.accounts.progress.dayCompleted
  {
    hide PayPage, CrankDistribution;
    EmptyPagePays();
    CallRuns(
      POLICY, HALFWAY, EMPTY_PAGE, NextPage, Opened(HALFWAY, 4_000, 0),
      PagePaid(Totals(0, 4_000, 0, 2_000, {}), []), HALFWAY.progress.(cursor := 2), true);
  }

  /** The day after, with nothing claimed. */
  const REOPENED :=
    Opened(
      Accounts(ProgressData(172_800, 0, 0, 0, false, 3_000, 1, 1_000, 0, 10, 0, {}), 3_000, 4_000), 0, 2)

  lemma NextDayOpens()
    ensures OpenDay(CLOSED, NEXT_DAY, FirstPage) == Done(REOPENED)
  {
    hide TotalLocked;
    TwoStreams(5, 5);
  }

  lemma TwoReads(x: U64, y: U64)
    ensures ReadLocked([Ok(x), Ok(y)], []) == Ok([x, y])
  {
    var streams: seq<Result<U64>>, so: seq<U64> := [Ok(x), Ok(y)], [];
    assert so + [x] == [x] && [x] + [y] == [x, y];
    assert ReadLocked(streams, so) == ReadLocked(streams[1..], [x]) == ReadLocked(streams[1..][1..], [x, y]);
  }

  /** Out of an empty pool nothing is paid and nothing set aside. */
  lemma {:induction false} NothingToPay(
      policy: Policy, total: U64, t: Totals, pageStart: U32, locked: seq<U64>, idx: nat)
    requires policy.minPayout > 0 && t.paid == {} && idx <= |locked| && pageStart + |locked| < 0x1_0000_0000
    ensures PayAll(policy, 0, total, t, pageStart, locked, idx) == Done(t)
    decreases |locked| - idx
  {
    if idx < |locked| {
      NothingToPay(policy, total, t, pageStart, locked, idx + 1);
    }
  }

  lemma NextDayPays()
    ensures PayPage(POLICY, REOPENED, NEXT_DAY) == Done(PagePaid(Totals(0, 3_000, 0, 0, {}), [5, 5]))
  {
    hide ReadLocked, PayAll;
    TwoReads(5, 5);
    assert NEXT_DAY.streams[..2] == [Ok(5), Ok(5)];
    NothingToPay(POLICY, 10, Totals(0, 3_000, 0, 0, {}), 0, [5, 5], 0);
  }

  lemma NextDayRuns()
    ensures CrankDistribution(POLICY, CLOSED, NEXT_DAY).Done?
  {
    hide PayPage, OpenDay, CrankDistribution;
    NextDayOpens();
    NextDayPays();
    CallRuns(
      POLICY, CLOSED, NEXT_DAY, FirstPage, REOPENED, PagePaid(Totals(0, 3_000, 0, 0, {}), [5, 5]),
      REOPENED.accounts.progress.(cursor := 2), true);
  }

  lemma HalfwayReached() returns (r: Router)
    ensures Reachable(r) && r.policy == POLICY && r.accounts == HALFWAY
    ensures r.lockedToday == 5 && r.processedToday == 1
  {
    hide CrankDistribution, Reachable, PaidIn;
    var start := NewRouter(POLICY, 0);
    NewReachable(POLICY, 0);
    CallReaches(start, FIRST_PAGE);
    FirstPageRuns();
    r := AfterCall(start, FIRST_PAGE);
  }

  lemma ClosedReached() returns (r: Router)
    ensures Reachable(r) && r.policy == POLICY && r.accounts == CLOSED
  {
    hide CrankDistribution, Reachable, PaidIn, ReadLocked, Sum;
    var halfway := HalfwayReached();
    OneStream(5);
    assert SECOND_PAGE.streams[..1] == [Ok(5)];
    CallReaches(halfway, SECOND_PAGE);
    SecondPageRuns();
    r := AfterCall(halfway, SECOND_PAGE);
  }

  // ----- A run with two investors on the second page -----

  const ROUNDING := Policy(10_000, Some(0), 1_000, 8, 3)
  const ONE_OF_THREE := Call(0, 1, 86_400, [Ok(5), Ok(1), Ok(2)], false, Ok(4_000))
  const OTHER_TWO := Call(1, 2, 86_400, [Ok(1), Ok(2)], false, Ok(0))

  const ROUNDING_OPENED :=
    Opened(
      Accounts(ProgressData(86_400, 0, 0, 0, false, 4_000, 0, 0, 0, 8, 0, {}), 4_000, 4_000), 4_000, 1)

  /** After the first page the whole share of 2500 is carried. */
  const ROUNDING_HALFWAY :=
    Accounts(ProgressData(86_400, 0, 2_500, 1, false, 4_000, 0, 0, 0, 8, 0, {}), 4_000, 4_000)

  lemma RoundingAmounts()
    ensures EligibleShareBps(ROUNDING, 8) == 10_000 && InvestorFeeAmount(4_000, 10_000) == Ok(4_000)
    ensures Share(4_000, 5, 8) == 2_500 && Share(4_000, 1, 8) == 500 && Share(4_000, 2, 8) == 1_000
    ensures ShareTruncated(2_500, 3, 8) == 937
    ensures ShareTruncated(937, 1, 3) == 312 && ShareTruncated(937, 2, 3) == 624
  {
  }

  lemma ThreeStreams(x: U64, y: U64, z: U64)
    requires x + y + z <= U64_MAX
    ensures TotalLocked([Ok(x), Ok(y), Ok(z)], 0) == Ok(x + y + z)
  {
    var streams: seq<Result<U64>> := [Ok(x), Ok(y), Ok(z)];
    assert streams[1..][1..] == [Ok(z)] && streams[1..][1..][1..] == [];
    assert TotalLocked(streams[1..][1..], x + y) == Ok(x + y + z);
  }

  lemma RoundingFirstPage()
    ensures CrankDistribution(ROUNDING, NewRouter(ROUNDING, 0).accounts, ONE_OF_THREE)
            == Done(Cranked(ROUNDING_HALFWAY, [5]))
  {
    hide PayPage, CrankDistribution, TotalLocked;
    ThreeStreams(5, 1, 2);
    RoundingFirstPays();
    CallRuns(
      ROUNDING, NewRouter(ROUNDING, 0).accounts, ONE_OF_THREE, FirstPage, ROUNDING_OPENED,
      PagePaid(Totals(0, 4_000, 0, 2_500, {}), [5]), ROUNDING_HALFWAY.progress, false);
  }

  lemma RoundingFirstPays()
    ensures PayPage(ROUNDING, ROUNDING_OPENED, ONE_OF_THREE)
            == Done(PagePaid(Totals(0, 4_000, 0, 2_500, {}), [5]))
  {
    hide ReadLocked, PayAll, PayInvestor, EligibleShareBps, InvestorFeeAmount, Share;
    OneStream(5);
    RoundingAmounts();
    assert ONE_OF_THREE.streams[..1] == [Ok(5)];
    OneInvestor(ROUNDING, 4_000, 8, Totals(0, 4_000, 0, 0, {}), 0, 5);
    NothingAllowed(ROUNDING, 4_000, 8, Totals(0, 4_000, 0, 0, {}), 0, 5);
  }

  /** One investor below the minimum payout and one over the cap. */
  lemma TwoSetAside(t: Totals)
    requires t == Totals(0, 4_000, 0, 0, {})
    ensures PayAll(ROUNDING, 4_000, 8, t, 1, [1, 2], 0) == Done(t.(pageDust := 1_500))
  {
    hide PayInvestor, Share;
    RoundingAmounts();
    BelowMinimum(ROUNDING, 4_000, 8, t, 1, 1);
    NothingAllowed(ROUNDING, 4_000, 8, t.(pageDust := 500), 2, 2);
    assert PayAll(ROUNDING, 4_000, 8, t.(pageDust := 1_500), 1, [1, 2], 2) == Done(t.(pageDust := 1_500));
    assert PayAll(ROUNDING, 4_000, 8, t.(pageDust := 500), 1, [1, 2], 1) == Done(t.(pageDust := 1_500));
  }

  lemma BelowMinimum(policy: Policy, fee: U64, total: U64, t: Totals, index: nat, locked: U64)
    requires index !in t.paid && locked <= total && Share(fee, locked, total) < policy.minPayout
    requires Share(fee, locked, total) + t.pageDust <= U64_MAX
    ensures PayInvestor(policy, fee, total, t, index, locked)
            == Done(t.(pageDust := t.pageDust + Share(fee, locked, total)))
  {
    hide FloorDiv;
    IndividualPayoutBounded(fee, locked, total);
  }

  /** Of 937 lamports of dust the two shares are 312 and 624. */
  lemma TwoDustShares(t: Totals)
    requires t.distributed == 0 == t.pageDistributed && t.treasury == 4_000
    ensures PayDust(937, 3, t, [1, 2], 0)
            == Done(t.(treasury := 3_064, distributed := 936, pageDistributed := 936))
  {
    hide ShareTruncated;
    RoundingAmounts();
    var t1 := t.(treasury := 3_688, distributed := 312, pageDistributed := 312);
    var t2 := t.(treasury := 3_064, distributed := 936, pageDistributed := 936);
    assert PayDust(937, 3, t2, [1, 2], 2) == Done(t2);
    assert PayDust(937, 3, t1, [1, 2], 1) == Done(t2);
  }

  lemma OtherTwoPay()
    ensures PayPage(ROUNDING, Opened(ROUNDING_HALFWAY, 4_000, 2), OTHER_TWO)
            == Done(PagePaid(Totals(936, 3_064, 936, 3_063, {}), [1, 2]))
  {
    hide ReadLocked, PayAll, EligibleShareBps, InvestorFeeAmount, ShareTruncated, PayDust;
    TwoReads(1, 2);
    RoundingAmounts();
    assert OTHER_TWO.streams[..2] == [Ok(1), Ok(2)];
    assert Sum([1, 2]) == 3 by {
      assert [1, 2][1..] == [2] && [2][1..] == [];
    }
    var start := Totals(0, 4_000, 0, 0, {});
    TwoSetAside(start);
    TwoDustShares(start.(pageDust := 1_500));
  }

  lemma OtherTwoRun()
    ensures CrankDistribution(ROUNDING, ROUNDING_HALFWAY, OTHER_TWO).Done?
    ensures var a := CrankDistribution(ROUNDING, ROUNDING_HALFWAY, OTHER_TWO).value.accounts;
            && a.progress.distributed == 936 && a.progress.carryOver == 3_063
            && a.progress.totalCreatorDistributed == 1
  {
    hide PayPage, CrankDistribution;
    OtherTwoPay();
    var p := ROUNDING_HALFWAY.progress.(
      distributed := 936, carryOver := 3_063, cursor := 3, totalInvestorDistributed := 936);
    CallRuns(
      ROUNDING, ROUNDING_HALFWAY, OTHER_TWO, NextPage, Opened(ROUNDING_HALFWAY, 4_000, 2),
      PagePaid(Totals(936, 3_064, 936, 3_063, {}), [1, 2]), p, true);
  }

  // ----- What the runs show -----

  /** A consistent call of a reachable router with nothing due and everything locked, on which the rounding
      of the dust shares is not carried on but goes to the creator. */
  lemma RoundingIsNotCarried() returns (r: Router, call: Call)
    ensures Reachable(r) && Pays(r, call) && Consistent(r, call)
    ensures r.accounts.progress.totalCreatorDistributed == 0
    ensures var p := CrankDistribution(r.policy, r.accounts, call).value.accounts.progress;
            p.distributed + p.carryOver == 3_999 && p.totalCreatorDistributed == 1
            && p.totalClaimed == 4_000 == DayPool(r.policy, r.accounts.progress)
  {
    hide CrankDistribution, Reachable, PaidIn, ReadLocked, EligibleShareBps, InvestorFeeAmount;
    var start := NewRouter(ROUNDING, 0);
    NewReachable(ROUNDING, 0);
    CallReaches(start, ONE_OF_THREE);
    RoundingFirstPage();
    r := AfterCall(start, ONE_OF_THREE);
    call := OTHER_TWO;
    TwoReads(1, 2);
    assert OTHER_TWO.streams[..2] == [Ok(1), Ok(2)];
    assert Sum([1, 2]) == 3 && Sum([5]) == 5 by {
      assert [1, 2][1..] == [2] && [2][1..] == [] && [5][1..] == [];
    }
    OtherTwoRun();
    ClaimStays(r, call);
    RoundingAmounts();
  }

  lemma ClaimStays(r: Router, call: Call)
    requires Pays(r, call) && !r.accounts.progress.dayCompleted
    ensures CrankDistribution(r.policy, r.accounts, call).value.accounts.progress.totalClaimed
            == r.accounts.progress.totalClaimed
  {
    hide PayPage, CheckCall;
  }

  /** A consistent call of a reachable router that finds nothing distributed, and passes a cap of zero by
      handing out 1000 lamports of carried dust. */
  lemma CapIsPassed() returns (r: Router, call: Call)
    ensures Reachable(r) && Pays(r, call) && Consistent(r, call) && r.policy.dailyCap == Some(0)
    ensures r.accounts.progress.distributed == 0
    ensures CrankDistribution(r.policy, r.accounts, call).value.accounts.progress.distributed == 1_000
  {
    hide CrankDistribution, Reachable, ReadLocked, Sum;
    r := HalfwayReached();
    call := SECOND_PAGE;
    OneStream(5);
    assert SECOND_PAGE.streams[..1] == [Ok(5)];
    SecondPageRuns();
  }

  /** A consistent call with no investors closes the day of a reachable router with one of its two
      investors left out. */
  lemma DayIsClosedEarly() returns (r: Router, call: Call)
    ensures Reachable(r) && Pays(r, call) && Consistent(r, call) && call.streams == []
    ensures !BetweenDays(r) && BetweenDays(AfterCall(r, call))
    ensures AfterCall(r, call).processedToday == 1 < r.policy.totalInvestors
  {
    hide CrankDistribution, Reachable;
    r := HalfwayReached();
    call := EMPTY_PAGE;
    EmptyPageRuns();
    DayClosedEarlyIff(r, call);
  }

  /** A consistent call on a reachable router with 3000 lamports of carried dust leaves all of them in the
      treasury with nobody they are due to. */
  lemma DustIsStranded() returns (r: Router, call: Call)
    ensures Reachable(r) && Pays(r, call) && Consistent(r, call)
    ensures BetweenDays(r) && SinglePage(r.policy, call) && r.accounts.progress.persistentCarryOver == 3_000
    ensures Slack(CrankDistribution(r.policy, r.accounts, call).value.accounts) == Slack(r.accounts) + 3_000
  {
    hide CrankDistribution, Reachable, Slack;
    r := ClosedReached();
    call := NEXT_DAY;
    NextDayRuns();
    OnlySinglePageDaysStrandDust(r, call);
  }
}

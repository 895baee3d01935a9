/** The daily cap: what a page pays under it, and exactly when the day stays within it. */
module DailyCap {
  import opened Checked
  import opened Division
  import opened RouterMath
  import opened Crank
  import opened CrankBooks
  import opened RouterRuns

  // ----- What a page has to pay -----

  /** The shares, from investor `idx` of the page on, that reach the minimum payout. */
  ghost function Due(minPayout: U64, fee: nat, total: nat, locked: seq<U64>, idx: nat): nat
    requires idx <= |locked|
    decreases |locked| - idx
  {
    if idx == |locked| then
      0
    else
      var share := Share(fee, locked[idx], total);
      (if share >= minPayout then share else 0) + Due(minPayout, fee, total, locked, idx + 1)
  }

  /** An amount, or the cap if there is one and it is less. */
  ghost function UpTo(cap: Option<U64>, amount: nat): nat {
    match cap
    case None => amount
    case Some(most) => Min(most, amount)
  }

  ghost predicate WithinCap(cap: Option<U64>, distributed: nat) {
    cap.Some? ==> distributed <= cap.value
  }

  lemma PayInvestorPaysDue(policy: Policy, fee: U64, total: U64, t: Totals, index: nat, locked: U64)
    requires WithinCap(policy.dailyCap, t.distributed)
    requires PayInvestor(policy, fee, total, t, index, locked).Done?
    requires policy.dailyCap.None? ==> t.distributed + Share(fee, locked, total) <= U64_MAX
    ensures var share := Share(fee, locked, total);
            var after := PayInvestor(policy, fee, total, t, index, locked).value;
            && after.distributed
               == UpTo(policy.dailyCap, t.distributed + (if share >= policy.minPayout then share else 0))
            && WithinCap(policy.dailyCap, after.distributed)
            && t.treasury - after.treasury == after.distributed - t.distributed
  {
    hide FloorDiv;
    assert IndividualPayout(fee, locked, total).value == Share(fee, locked, total);
  }

  /** The main loop pays out exactly what is due, up to the cap if there is one. */
  lemma {:induction false} MainLoopPaysDue(
      policy: Policy, fee: U64, total: U64, t: Totals, pageStart: U32, locked: seq<U64>, idx: nat)
    requires WithinCap(policy.dailyCap, t.distributed) && idx <= |locked|
    requires policy.dailyCap.None? ==> t.distributed + Shares(fee, total, locked, idx) <= U64_MAX
    requires PayAll(policy, fee, total, t, pageStart, locked, idx).Done?
    ensures PayAll(policy, fee, total, t, pageStart, locked, idx).value.distributed
            == UpTo(policy.dailyCap, t.distributed + Due(policy.minPayout, fee, total, locked, idx))
    decreases |locked| - idx
  {
    hide PayInvestor, Share;
    if idx < |locked| {
      PayInvestorPaysDue(policy, fee, total, t, pageStart + idx, locked[idx]);
      MainLoopPaysDue(
        policy, fee, total, PayInvestor(policy, fee, total, t, pageStart + idx, locked[idx]).value,
        pageStart, locked, idx + 1);
    }
  }

  /** What a page hands out of its part of the carried dust. */
  ghost function HandedDust(dust: nat, locked: seq<U64>): nat {
    if dust > 0 && Sum(locked) > 0 then Shares(dust, Sum(locked), locked, 0) else 0
  }

  /** The dust a page may hand out: nothing below the minimum payout, and otherwise the page's proportion
      of what is carried, rounded down. */
  lemma DustForPageIs(policy: Policy, carried: U64, locked: seq<U64>, total: U64)
    requires Sum(locked) <= total
    ensures DustForPage(policy, carried, locked, total)
            == Ok(if carried >= policy.minPayout then Share(carried, Sum(locked), total) else 0)
  {
    hide ShareTruncated;
    if total > 0 {
      ShareNotTruncated(carried, Sum(locked), total);
    }
  }

  lemma DustLoopPays(dust: U64, carried: U64, t: Totals, locked: seq<U64>, total: U64)
    requires dust <= carried && Sum(locked) <= total && Room(t, carried)
    ensures PayCarriedDust(dust, carried, t, locked).Done?
    ensures PayCarriedDust(dust, carried, t, locked).value.distributed
            == t.distributed + HandedDust(dust, locked)
    ensures PayCarriedDust(dust, carried, t, locked).value.pageDust == t.pageDust + carried - dust
  {
    hide PayDust, Shares;
    CarriedDustSettles(dust, carried, t, locked, total);
    if dust > 0 && Sum(locked) > 0 {
      SumIsSumFrom(locked, 0);
      assert locked[0..] == locked;
      SharesBounded(dust, Sum(locked), locked, 0);
      CancelLe(Shares(dust, Sum(locked), locked, 0), dust, Sum(locked));
      PayDustHandsOut(dust, Sum(locked), t, locked, 0);
    }
  }

  lemma {:induction false} SharesLose(pool: nat, total: nat, locked: seq<U64>, idx: nat)
    requires idx <= |locked| && 0 < total
    ensures pool * SumFrom(locked, idx)
            <= Shares(pool, total, locked, idx) * total + (|locked| - idx) * (total - 1)
    decreases |locked| - idx
  {
    if idx < |locked| {
      SharesLose(pool, total, locked, idx + 1);
      LoseOnce(
        pool, total, locked[idx], SumFrom(locked, idx + 1), Share(pool, locked[idx], total),
        Shares(pool, total, locked, idx + 1), |locked| - idx);
    }
  }

  lemma LoseOnce(pool: nat, total: nat, first: nat, rest: nat, share: nat, shares: nat, count: nat)
    requires 0 < total && 0 < count && pool * first < (share + 1) * total
    requires pool * rest <= shares * total + (count - 1) * (total - 1)
    ensures pool * (first + rest) <= (share + shares) * total + count * (total - 1)
  {
    assert pool * (first + rest) == pool * first + pool * rest;
    assert (share + 1) * total == share * total + total;
    assert (share + shares) * total == share * total + shares * total;
    assert count * (total - 1) == (count - 1) * (total - 1) + (total - 1);
  }

  /** The shares of the dust round down by less than one lamport for each investor of the page. */
  lemma DustRoundsDown(dust: nat, locked: seq<U64>)
    requires dust > 0 ==> Sum(locked) > 0
    ensures HandedDust(dust, locked) <= dust
    ensures dust > 0 ==> dust < HandedDust(dust, locked) + |locked|
  {
    hide Shares, SumFrom;
    if dust > 0 {
      var total, shares := Sum(locked), Shares(dust, Sum(locked), locked, 0);
      SumIsSumFrom(locked, 0);
      assert locked[0..] == locked;
      SharesBounded(dust, total, locked, 0);
      CancelLe(shares, dust, total);
      SharesLose(dust, total, locked, 0);
      LosesLess(dust, shares, total, |locked|);
    }
  }

  lemma LosesLess(dust: nat, shares: nat, total: nat, count: nat)
    requires 0 < total && 0 < count && dust * total <= shares * total + count * (total - 1)
    ensures dust < shares + count
  {
    assert (shares + count) * total == shares * total + count * (total - 1) + count;
    CancelLt(dust, shares + count, total);
  }

  // ----- A page -----

  /** What a page is about to be given: all of it is known before the page is paid. */
  datatype PageTerms = PageTerms(
    distributed: U64, // today, before this page
    shares: nat, // of the pool, for the investors of this page
    due: nat, // those shares that reach the minimum payout
    carried: U64, // dust from earlier pages
    offered: nat, // the part of it for this page
    dust: nat) // the rounded shares of that part

  /** From the policy, the progress of the opened day, and the locked amounts. */
  ghost function TermsOf(policy: Policy, o: Opened, call: Call): PageTerms
    requires WellFormedCall(call) && o.toProcess <= |call.streams|
    requires ReadLocked(call.streams[..o.toProcess], []).Ok?
  {
    var p := o.accounts.progress;
    var locked := ReadLocked(call.streams[..o.toProcess], []).value;
    var bps := EligibleShareBps(policy, p.totalLockedAll);
    InvestorFeeBounded(o.claimed, o.claimed, bps);
    var dust :=
      if p.carryOver >= policy.minPayout then Share(p.carryOver, Sum(locked), p.totalLockedAll) else 0;
    var pool := InvestorFeeAmount(o.claimed, bps).value;
    PageTerms(
      p.distributed, Shares(pool, p.totalLockedAll, locked, 0),
      Due(policy.minPayout, pool, p.totalLockedAll, locked, 0), p.carryOver, dust, HandedDust(dust, locked))
  }

  /** What is carried on: what was carried less what was offered, and the shares that were not paid. The
      rounding of the dust shares is not part of it. */
  ghost function CarriedOn(cap: Option<U64>, terms: PageTerms): int {
    terms.carried - terms.offered + terms.shares
    - (UpTo(cap, terms.distributed + terms.due) - terms.distributed)
  }

  lemma PagePays(policy: Policy, o: Opened, call: Call, fee: U64, processed: nat)
    requires WellFormedCall(call) && ReadyToPay(policy, o, call, fee, processed)
    requires WithinCap(policy.dailyCap, o.accounts.progress.distributed)
    requires PayPage(policy, o, call).Done?
    ensures ReadLocked(call.streams[..o.toProcess], []).Ok?
    ensures var terms := TermsOf(policy, o, call);
            && PayPage(policy, o, call).value.totals.distributed
               == UpTo(policy.dailyCap, terms.distributed + terms.due) + terms.dust
            && PayPage(policy, o, call).value.totals.pageDust == CarriedOn(policy.dailyCap, terms)
  {
    hide PayAll, PayCarriedDust, DustForPage, WithinPool, Room, Settled, Shares, EligibleShareBps,
         InvestorFeeAmount, ReadLocked, Due, HandedDust, DayPool;
    var p, locked := o.accounts.progress, ReadLocked(call.streams[..o.toProcess], []).value;
    var total := p.totalLockedAll;
    var shares := Shares(fee, total, locked, 0);
    SumIsSumFrom(locked, 0);
    assert locked[0..] == locked;
    SharesBounded(fee, total, locked, 0);
    PoolGrows(p.distributed + p.carryOver, shares, total, fee, processed, Sum(locked));
    SpentAtMostPool(p.distributed + p.carryOver + shares, total, fee, processed + Sum(locked));
    DustAtMostCarried(policy, p.carryOver, locked, total);
    DustForPageIs(policy, p.carryOver, locked, total);
    var start := Totals(p.distributed, o.accounts.treasury, 0, 0, p.paid);
    RoomAtStart(start, shares, p.carryOver, fee);
    PayAllSettles(policy, fee, total, start, call.pageStart, locked, 0);
    var main := PayAll(policy, fee, total, start, call.pageStart, locked, 0).value;
    SettledRoom(start, main, shares, p.carryOver);
    SettledTotals(start, main, shares);
    MainLoopPaysDue(policy, fee, total, start, call.pageStart, locked, 0);
    DustLoopPays(DustForPage(policy, p.carryOver, locked, total).value, p.carryOver, main, locked, total);
  }

  // ----- A call -----

  /** The day as the page of this call finds it: opened afresh on a first page, as it stands on a later
      one. */
  ghost function DayOf(r: Router, call: Call): Opened
    requires WellFormedCall(call) && CheckCall(r.accounts.progress, call).Ok?
    requires OpenDay(r.accounts, call, CheckCall(r.accounts.progress, call).value).Done?
  {
    OpenDay(r.accounts, call, CheckCall(r.accounts.progress, call).value).value
  }

  /** A call that is not a retry and goes through. */
  ghost predicate Pays(r: Router, call: Call) {
    && WellFormedCall(call) && CrankDistribution(r.policy, r.accounts, call).Done?
    && !CheckCall(r.accounts.progress, call).value.Retry?
  }

  /** What a paying call is given. On the first page of a day nothing has been distributed and no dust is
      carried. */
  lemma CallTerms(r: Router, call: Call)
    requires Books(r) && Pays(r, call)
    ensures OpenDay(r.accounts, call, CheckCall(r.accounts.progress, call).value).Done?
    ensures var o := DayOf(r, call);
            && o.toProcess <= |call.streams| && ReadLocked(call.streams[..o.toProcess], []).Ok?
            && (if r.accounts.progress.dayCompleted then
                  TermsOf(r.policy, o, call).distributed == 0 == TermsOf(r.policy, o, call).dust
                else
                  o.accounts == r.accounts)
  {
    hide PayAll, PayCarriedDust, CheckCall, EligibleShareBps, InvestorFeeAmount, BookPage, IsFinalPage,
         CloseDay, Due, TotalLocked, ReadLocked, DayPool, WithinPool;
    KindOfCall(r, call);
  }

  /** A call takes the day to what is due, up to the cap if there is one, plus the dust it hands out, and
      carries on the rest of the shares and of the dust. */
  lemma CallDistributes(r: Router, call: Call)
    requires Books(r) && Pays(r, call) && Consistent(r, call)
    requires !r.accounts.progress.dayCompleted ==>
               WithinCap(r.policy.dailyCap, r.accounts.progress.distributed)
    ensures OpenDay(r.accounts, call, CheckCall(r.accounts.progress, call).value).Done?
    ensures var o := DayOf(r, call);
            && o.toProcess <= |call.streams| && ReadLocked(call.streams[..o.toProcess], []).Ok?
            && CrankDistribution(r.policy, r.accounts, call).value.accounts.progress.distributed
               == UpTo(
                    r.policy.dailyCap,
                    TermsOf(r.policy, o, call).distributed + TermsOf(r.policy, o, call).due)
                  + TermsOf(r.policy, o, call).dust
            && CrankDistribution(r.policy, r.accounts, call).value.accounts.progress.carryOver
               == CarriedOn(r.policy.dailyCap, TermsOf(r.policy, o, call))
  {
    hide CarriedOn, UpTo, CheckCall, RunPage, PayPage, ReadyToPay, WithinPool, DayPool, TermsOf, OpenBooks,
         ReadLocked, TotalLocked;
    CallTerms(r, call);
    KindOfCall(r, call);
    var kind := CheckCall(r.accounts.progress, call).value;
    RunPageIs(r.policy, r.accounts, call, kind);
    if r.accounts.progress.dayCompleted {
      var fee := StartReady(r, call);
      PagePays(r.policy, DayOf(r, call), call, fee, 0);
    } else {
      var fee := ContinueReady(r, call);
      PagePays(r.policy, DayOf(r, call), call, fee, r.lockedToday);
    }
  }

  /** The main loop respects the daily cap and the dust loop does not look at it. So a call that finds
      the day within its cap leaves it there exactly when it has no dust to hand out, or there is room
      under the cap for everything due and the dust. Nothing here depends on the outcome of the call:
      the amounts follow from the policy, the progress and the locked amounts it starts from. */
  lemma CapHoldsIff(r: Router, call: Call, cap: U64)
    requires Reachable(r) && Pays(r, call) && Consistent(r, call) && r.policy.dailyCap == Some(cap)
    requires !r.accounts.progress.dayCompleted ==> r.accounts.progress.distributed <= cap
    ensures OpenDay(r.accounts, call, CheckCall(r.accounts.progress, call).value).Done?
    ensures var o := DayOf(r, call);
            && o.toProcess <= |call.streams| && ReadLocked(call.streams[..o.toProcess], []).Ok?
            && var terms := TermsOf(r.policy, o, call);
            (CrankDistribution(r.policy, r.accounts, call).value.accounts.progress.distributed <= cap
             <==> terms.dust == 0 || terms.distributed + terms.due + terms.dust <= cap)
  {
    hide Reachable, Consistent, Pays, CrankDistribution, TermsOf, Books, OpenDay, CheckCall, ReadLocked;
    ReachableBooks(r);
    CallDistributes(r, call);
  }

  /** The first page of a day never passes the cap. */
  lemma FirstPageWithinCap(r: Router, call: Call, cap: U64)
    requires Reachable(r) && Pays(r, call) && r.policy.dailyCap == Some(cap)
    requires r.accounts.progress.dayCompleted
    ensures CrankDistribution(r.policy, r.accounts, call).value.accounts.progress.distributed <= cap
  {
    hide Reachable, Pays, CrankDistribution, TermsOf, Books, OpenDay, CheckCall, ReadLocked;
    ReachableBooks(r);
    CallTerms(r, call);
    CallDistributes(r, call);
  }
}

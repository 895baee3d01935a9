/** The daily distribution over every run of the crank. */
module RouterRuns {
  import opened Checked
  import opened Division
  import opened Progress
  import opened RouterMath
  import opened Crank
  import opened CrankProofs
  import opened CrankBooks

  /** The accounts, and the history of the current or last day: the locked amounts and the number of
      investors processed, and the investors paid by the main loop. */
  datatype Router = Router(
    policy: Policy, accounts: Accounts, lockedToday: nat, processedToday: nat, paidToday: seq<nat>)

  function NewRouter(policy: Policy, treasury: U64): Router {
    Router(policy, Accounts(NEW_PROGRESS, treasury, 0), 0, 0, [])
  }

  /** Besides the crank, anybody may add to the treasury. */
  datatype Event = CrankCall(call: Call) | TopUp(amount: U64)

  predicate BetweenDays(r: Router) {
    r.accounts.progress.dayCompleted
  }

  /** The investors a call that is not a retry pays in its main loop. */
  ghost function PaidIn(r: Router, call: Call): seq<nat>
    requires WellFormedCall(call)
    requires CrankDistribution(r.policy, r.accounts, call).Done?
    requires !CheckCall(r.accounts.progress, call).value.Retry?
  {
    var o := OpenDay(r.accounts, call, CheckCall(r.accounts.progress, call).value).value;
    PaidOnPage(r.policy, o, call)
  }

  ghost function PaidOnPage(policy: Policy, o: Opened, call: Call): seq<nat>
    requires WellFormedCall(call) && o.toProcess <= |call.streams| && PayPage(policy, o, call).Done?
  {
    var p := o.accounts.progress;
    PaidBy(
      policy, InvestorFeeAmount(o.claimed, EligibleShareBps(policy, p.totalLockedAll)).value,
      p.totalLockedAll, Totals(p.distributed, o.accounts.treasury, 0, 0, p.paid), call.pageStart,
      ReadLocked(call.streams[..o.toProcess], []).value, 0)
  }

  /** A call, successful or not. */
  ghost function AfterCall(r: Router, call: Call): Router
    requires WellFormedCall(call)
  {
    var c := CrankDistribution(r.policy, r.accounts, call);
    if !c.Done? || CheckCall(r.accounts.progress, call).value.Retry? then
      r
    else if BetweenDays(r) then
      Router(r.policy, c.value.accounts, Sum(c.value.locked), |c.value.locked|, PaidIn(r, call))
    else
      Router(
        r.policy, c.value.accounts, r.lockedToday + Sum(c.value.locked),
        r.processedToday + |c.value.locked|, r.paidToday + PaidIn(r, call))
  }

  ghost function AfterTopUp(r: Router, amount: U64): Router {
    if r.accounts.treasury + amount <= U64_MAX
    then r.(accounts := r.accounts.(treasury := r.accounts.treasury + amount))
    else r
  }

  // ----- The invariant -----

  /** The investors' share of what the day has to give. */
  ghost function DayPool(policy: Policy, p: ProgressData): nat {
    InvestorFeeBounded(
      p.totalClaimed, p.totalClaimed, EligibleShareBps(policy, p.totalLockedAll));
    InvestorFeeAmount(p.totalClaimed, EligibleShareBps(policy, p.totalLockedAll)).value
  }

  /** The books of an open day. */
  ghost predicate OpenBooks(r: Router) {
    var p := r.accounts.progress;
    && WithinPool(p.distributed + p.carryOver, p.totalLockedAll, DayPool(r.policy, p), r.lockedToday)
    && r.lockedToday <= p.totalLockedAll
    && p.totalClaimed <= r.accounts.treasury + p.distributed
    && p.persistentCarryOver == 0
    && r.processedToday == p.cursor
    && p.paid == (set i | i in r.paidToday)
  }

  ghost predicate Books(r: Router) {
    var p := r.accounts.progress;
    && ValidPolicy(r.policy) && Paging(r.policy, p)
    && (if p.dayCompleted then p.persistentCarryOver <= r.accounts.treasury else OpenBooks(r))
    && NoDuplicates(r.paidToday)
    && (forall i :: i in r.paidToday ==> i < r.processedToday)
  }

  /** What is assumed of a call that continues a day: it supplies at most a page of investors, and the
      locked amounts it reads, with those processed before, are within the day's total. */
  ghost predicate Consistent(r: Router, call: Call)
    requires WellFormedCall(call)
  {
    !r.accounts.progress.dayCompleted ==>
      && Pairs(call) <= call.pageSize
      && var locked := ReadLocked(call.streams[..Pairs(call)], []);
         locked.Ok? ==> r.lockedToday + Sum(locked.value) <= r.accounts.progress.totalLockedAll
  }

  // ----- Opening -----

  lemma {:induction false} SumAppend(amounts: seq<U64>, x: U64)
    ensures Sum(amounts + [x]) == Sum(amounts) + x
  {
    if amounts == [] {
      assert amounts + [x] == [x];
    } else {
      assert (amounts + [x])[1..] == amounts[1..] + [x];
      SumAppend(amounts[1..], x);
    }
  }

  /** The total read at the start of a day covers the amounts of any first page. */
  lemma {:induction false} TotalCoversPage(
      streams: seq<Result<U64>>, n: nat, total: U64, so: seq<U64>)
    requires n <= |streams| && Sum(so) <= total && TotalLocked(streams, total).Ok?
    requires ReadLocked(streams[..n], so).Ok?
    ensures Sum(ReadLocked(streams[..n], so).value) <= TotalLocked(streams, total).value
    decreases |streams|
  {
    if n == 0 {
      TotalGrows(streams, total);
    } else {
      var locked := streams[0].value;
      assert streams[..n][1..] == streams[1..][..n - 1];
      SumAppend(so, locked);
      TotalCoversPage(streams[1..], n - 1, total + locked, so + [locked]);
    }
  }

  /** The total is the sum of all the locked amounts, and is refused exactly when one cannot be read or
      the sum does not fit 64 bits. */
  lemma {:induction false} TotalLockedIsSum(streams: seq<Result<U64>>, total: U64, so: seq<U64>)
    requires Sum(so) == total
    ensures TotalLocked(streams, total).Ok?
            <==> ReadLocked(streams, so).Ok? && Sum(ReadLocked(streams, so).value) <= U64_MAX
    ensures TotalLocked(streams, total).Ok? ==>
              TotalLocked(streams, total).value == Sum(ReadLocked(streams, so).value)
    decreases |streams|
  {
    if streams != [] && streams[0].Ok? {
      var locked := streams[0].value;
      SumAppend(so, locked);
      if total + locked <= U64_MAX {
        TotalLockedIsSum(streams[1..], total + locked, so + [locked]);
      } else if ReadLocked(streams[1..], so + [locked]).Ok? {
        ReadsOnlyAdd(streams[1..], so + [locked]);
      }
    }
  }

  lemma {:induction false} ReadsOnlyAdd(streams: seq<Result<U64>>, so: seq<U64>)
    requires ReadLocked(streams, so).Ok?
    ensures Sum(so) <= Sum(ReadLocked(streams, so).value)
    decreases |streams|
  {
    if streams != [] {
      SumAppend(so, streams[0].value);
      ReadsOnlyAdd(streams[1..], so + [streams[0].value]);
    }
  }

  lemma {:induction false} TotalGrows(streams: seq<Result<U64>>, total: U64)
    requires TotalLocked(streams, total).Ok?
    ensures total <= TotalLocked(streams, total).value
    decreases |streams|
  {
    if streams != [] {
      TotalGrows(streams[1..], total + streams[0].value);
    }
  }

  /** The pool this page shares out, before anything is added to the day's claim. */
  ghost predicate ReadyToPay(policy: Policy, o: Opened, call: Call, fee: U64, processed: nat)
    requires WellFormedCall(call)
  {
    var p := o.accounts.progress;
    && o.toProcess <= |call.streams|
    && InvestorFeeAmount(o.claimed, EligibleShareBps(policy, p.totalLockedAll)) == Ok(fee)
    && WithinPool(p.distributed + p.carryOver, p.totalLockedAll, fee, processed)
    && fee <= o.claimed <= o.accounts.treasury + p.distributed
    && fee <= DayPool(policy, p)
    && p.totalClaimed <= o.accounts.treasury + p.distributed
    && (ReadLocked(call.streams[..o.toProcess], []).Ok? ==>
          processed + Sum(ReadLocked(call.streams[..o.toProcess], []).value) <= p.totalLockedAll)
  }

  lemma StartReady(r: Router, call: Call) returns (fee: U64)
    requires WellFormedCall(call) && Books(r) && r.accounts.progress.dayCompleted
    requires OpenDay(r.accounts, call, FirstPage).Done?
    ensures ReadyToPay(r.policy, OpenDay(r.accounts, call, FirstPage).value, call, fee, 0)
  {
    hide TotalLocked, ReadLocked, EligibleShareBps, InvestorFeeAmount;
    OpenDayStarts(r.accounts, call, FirstPage);
    var o := OpenDay(r.accounts, call, FirstPage).value;
    var p := o.accounts.progress;
    var bps := EligibleShareBps(r.policy, p.totalLockedAll);
    InvestorFeeBounded(o.claimed, p.totalClaimed, bps);
    fee := InvestorFeeAmount(o.claimed, bps).value;
    if ReadLocked(call.streams[..o.toProcess], []).Ok? {
      TotalCoversPage(call.streams, o.toProcess, 0, []);
    }
  }

  lemma ContinueReady(r: Router, call: Call) returns (fee: U64)
    requires WellFormedCall(call) && Books(r) && !r.accounts.progress.dayCompleted && Consistent(r, call)
    ensures OpenDay(r.accounts, call, NextPage).Done?
    ensures ReadyToPay(r.policy, OpenDay(r.accounts, call, NextPage).value, call, fee, r.lockedToday)
  {
    hide ReadLocked, EligibleShareBps, InvestorFeeAmount, WithinPool;
    var p := r.accounts.progress;
    var bps := EligibleShareBps(r.policy, p.totalLockedAll);
    InvestorFeeBounded(p.totalClaimed, p.totalClaimed, bps);
    fee := InvestorFeeAmount(p.totalClaimed, bps).value;
  }

  // ----- Closing -----

  /** On a page that is ready, closing gives the creator exactly what was neither distributed nor
      carried, and leaves the carried dust in the treasury. */
  lemma CloseExact(a: Accounts, claimed: U64)
    requires a.progress.distributed + a.progress.carryOver <= claimed
    requires claimed <= a.treasury + a.progress.distributed
    ensures !CloseDay(a, claimed).Unfunded?
    ensures CloseDay(a, claimed).Done? ==>
              var c := CloseDay(a, claimed).value;
              var remainder := c.progress.totalCreatorDistributed - a.progress.totalCreatorDistributed;
              && a.progress.distributed + a.progress.carryOver + remainder == claimed
              && c.treasury == a.treasury - remainder
              && c.progress.persistentCarryOver == a.progress.carryOver
              && c.progress.totalDistributions == a.progress.totalDistributions + 1
              && c.progress.distributed == a.progress.distributed
              && c.progress.dayCompleted && c.progress.cursor == 0 && c.progress.paid == {}
              && c.treasury - c.progress.persistentCarryOver
                 == a.treasury + a.progress.distributed - claimed
  {
  }

  // ----- One page -----

  /** The accounts after the payout loops of a page, before the day is closed. */
  ghost function Booked(policy: Policy, o: Opened, call: Call): Accounts
    requires WellFormedCall(call) && o.toProcess <= |call.streams|
    requires PayPage(policy, o, call).Done?
    requires BookPage(o.accounts.progress, call, PayPage(policy, o, call).value.totals).Ok?
  {
    var t := PayPage(policy, o, call).value.totals;
    o.accounts.(
      progress := BookPage(o.accounts.progress, call, t).value, treasury := t.treasury)
  }

  lemma PoolOrder(spent: nat, total: nat, fee: nat, pool: nat, processed: nat)
    requires WithinPool(spent, total, fee, processed) && fee <= pool
    ensures WithinPool(spent, total, pool, processed)
  {
    MulMono(fee, pool, processed);
  }

  lemma PageBooked(policy: Policy, o: Opened, call: Call, fee: U64, processed: nat)
    requires WellFormedCall(call) && ReadyToPay(policy, o, call, fee, processed)
    ensures !PayPage(policy, o, call).Unfunded?
    ensures PayPage(policy, o, call).Done?
            && BookPage(o.accounts.progress, call, PayPage(policy, o, call).value.totals).Ok? ==>
              var b := Booked(policy, o, call);
              var p, p' := o.accounts.progress, b.progress;
              var locked := PayPage(policy, o, call).value.locked;
              && WithinPool(
                   p'.distributed + p'.carryOver, p'.totalLockedAll, DayPool(policy, p'),
                   processed + Sum(locked))
              && p'.distributed + p'.carryOver <= fee
              && processed + Sum(locked) <= p'.totalLockedAll
              && b.treasury + p'.distributed == o.accounts.treasury + p.distributed
              && p'.totalInvestorDistributed - p.totalInvestorDistributed
                 == p'.distributed - p.distributed
              && p' == p.(
                   distributed := p'.distributed, carryOver := p'.carryOver, cursor := p'.cursor,
                   totalInvestorDistributed := p'.totalInvestorDistributed, paid := p'.paid)
  {
    hide PayPage, WithinPool, InvestorFeeAmount, EligibleShareBps, ReadLocked;
    PayPageSettles(policy, o, call, fee, processed);
    var r := PayPage(policy, o, call);
    if r.Done? && BookPage(o.accounts.progress, call, r.value.totals).Ok? {
      var t, p := r.value.totals, o.accounts.progress;
      PagesReadAll(policy, o, call);
      SpentAtMostPool(
        t.distributed + t.pageDust, p.totalLockedAll, fee, processed + Sum(r.value.locked));
      PoolOrder(
        t.distributed + t.pageDust, p.totalLockedAll, fee, DayPool(policy, p),
        processed + Sum(r.value.locked));
    }
  }

  /** Whether a page succeeds or not, it never finds the treasury short. */
  lemma PageFunded(policy: Policy, a: Accounts, call: Call, kind: PageKind, fee: U64, processed: nat)
    requires WellFormedCall(call)
    requires OpenDay(a, call, kind).Done? ==>
               ReadyToPay(policy, OpenDay(a, call, kind).value, call, fee, processed)
    ensures !RunPage(policy, a, call, kind).Unfunded?
  {
    hide PayPage, BookPage, IsFinalPage, CloseDay, OpenDay, ReadyToPay;
    OpenDayFunded(a, call, kind);
    var day := OpenDay(a, call, kind);
    if day.Done? {
      var o := day.value;
      PageBooked(policy, o, call, fee, processed);
      ReadyFacts(policy, o, call, fee, processed);
      var paid := PayPage(policy, o, call);
      if paid.Done? && BookPage(o.accounts.progress, call, paid.value.totals).Ok? {
        CloseExact(Booked(policy, o, call), o.claimed);
      }
    }
  }

  lemma OpenDayFunded(a: Accounts, call: Call, kind: PageKind)
    requires WellFormedCall(call)
    ensures !OpenDay(a, call, kind).Unfunded?
    ensures OpenDay(a, call, kind).Done? ==> OpenDay(a, call, kind).value.toProcess <= |call.streams|
  {
    hide TotalLocked;
  }

  lemma ReadyFacts(policy: Policy, o: Opened, call: Call, fee: U64, processed: nat)
    requires WellFormedCall(call) && ReadyToPay(policy, o, call, fee, processed)
    ensures fee <= o.claimed <= o.accounts.treasury + o.accounts.progress.distributed
    ensures o.accounts.progress.totalClaimed <= o.accounts.treasury + o.accounts.progress.distributed
    ensures o.toProcess <= |call.streams|
  {
  }

  lemma RunPageIs(policy: Policy, a: Accounts, call: Call, kind: PageKind)
    requires WellFormedCall(call) && RunPage(policy, a, call, kind).Done?
    ensures OpenDay(a, call, kind).Done?
    ensures var o := OpenDay(a, call, kind).value;
            && o.toProcess <= |call.streams| && PayPage(policy, o, call).Done?
            && BookPage(o.accounts.progress, call, PayPage(policy, o, call).value.totals).Ok?
            && RunPage(policy, a, call, kind).value.locked == PayPage(policy, o, call).value.locked
            && var after, b := RunPage(policy, a, call, kind).value.accounts, Booked(policy, o, call);
               after == b || CloseDay(b, o.claimed) == Done(after)
  {
    hide PayPage, BookPage, CloseDay, OpenDay;
    OpenDayFunded(a, call, kind);
  }

  // ----- Who was paid on a page -----

  lemma {:induction false} DustLeavesBitmap(
      dust: U64, pageLocked: U64, t: Totals, locked: seq<U64>, idx: nat)
    requires pageLocked > 0 && idx <= |locked| && PayDust(dust, pageLocked, t, locked, idx).Done?
    ensures PayDust(dust, pageLocked, t, locked, idx).value.paid == t.paid
    decreases |locked| - idx
  {
    hide ShareTruncated;
    if idx < |locked| {
      var share := ShareTruncated(dust, locked[idx], pageLocked);
      var t1 := if share > 0 then Transfer(t, share).value else t;
      DustLeavesBitmap(dust, pageLocked, t1, locked, idx + 1);
    }
  }

  lemma CarriedDustLeavesBitmap(dust: U64, carried: U64, t: Totals, locked: seq<U64>)
    requires PayCarriedDust(dust, carried, t, locked).Done?
    ensures PayCarriedDust(dust, carried, t, locked).value.paid == t.paid
  {
    hide PayDust;
    if dust > 0 && Sum(locked) > 0 {
      DustLeavesBitmap(dust, Sum(locked), t, locked, 0);
    }
  }

  lemma PaidOnPageOnce(policy: Policy, o: Opened, call: Call)
    requires WellFormedCall(call) && o.toProcess <= |call.streams| && PayPage(policy, o, call).Done?
    ensures var indices := PaidOnPage(policy, o, call);
            && NoDuplicates(indices)
            && (forall i :: i in indices ==> call.pageStart <= i < call.pageStart + o.toProcess)
            && PayPage(policy, o, call).value.totals.paid
               == o.accounts.progress.paid + (set i | i in indices)
  {
    hide PayAll, PayCarriedDust, DustForPage, EligibleShareBps, InvestorFeeAmount, PaidBy, ReadLocked;
    var p := o.accounts.progress;
    var locked := ReadLocked(call.streams[..o.toProcess], []).value;
    var fee := InvestorFeeAmount(o.claimed, EligibleShareBps(policy, p.totalLockedAll)).value;
    var start := Totals(p.distributed, o.accounts.treasury, 0, 0, p.paid);
    PagesReadAll(policy, o, call);
    PaidOnce(policy, fee, p.totalLockedAll, start, call.pageStart, locked, 0);
    CarriedDustLeavesBitmap(
      DustForPage(policy, p.carryOver, locked, p.totalLockedAll).value, p.carryOver,
      PayAll(policy, fee, p.totalLockedAll, start, call.pageStart, locked, 0).value, locked);
  }

  lemma AppendDistinct(before: seq<nat>, more: seq<nat>, bound: nat)
    requires NoDuplicates(before) && NoDuplicates(more)
    requires forall i :: i in before ==> i < bound
    requires forall i :: i in more ==> bound <= i
    ensures NoDuplicates(before + more)
    ensures (set i | i in before + more) == (set i | i in before) + (set i | i in more)
  {
    forall j, k | 0 <= j < k < |before + more| ensures (before + more)[j] != (before + more)[k] {
      if j < |before| <= k {
        assert before[j] in before && more[k - |before|] in more;
      }
    }
  }

  // ----- One call -----

  /** A page of a ready day, closed or not, leaves the books in order. */
  lemma PageKeepsBooks(r: Router, call: Call, kind: PageKind, fee: U64, processed: nat)
    requires WellFormedCall(call) && RunPage(r.policy, r.accounts, call, kind).Done?
    requires OpenDay(r.accounts, call, kind).Done?
    requires var o := OpenDay(r.accounts, call, kind).value;
             ReadyToPay(r.policy, o, call, fee, processed) && !o.accounts.progress.dayCompleted
             && o.accounts.progress.persistentCarryOver == 0
    ensures var after := RunPage(r.policy, r.accounts, call, kind).value;
            var p' := after.accounts.progress;
            if p'.dayCompleted then
              p'.persistentCarryOver <= after.accounts.treasury
            else
              && WithinPool(
                   p'.distributed + p'.carryOver, p'.totalLockedAll, DayPool(r.policy, p'),
                   processed + Sum(after.locked))
              && processed + Sum(after.locked) <= p'.totalLockedAll
              && p'.totalClaimed <= after.accounts.treasury + p'.distributed
              && p'.persistentCarryOver == 0
              && p'.paid == OpenDay(r.accounts, call, kind).value.accounts.progress.paid
                            + (set i | i in PaidOnPage(r.policy, OpenDay(r.accounts, call, kind).value, call))
  {
    hide RunPage, PayPage, BookPage, CloseDay, OpenDay, ReadyToPay, WithinPool, DayPool, PaidOnPage;
    RunPageIs(r.policy, r.accounts, call, kind);
    var o := OpenDay(r.accounts, call, kind).value;
    PageBooked(r.policy, o, call, fee, processed);
    ReadyFacts(r.policy, o, call, fee, processed);
    PaidOnPageOnce(r.policy, o, call);
    BookedPaid(r.policy, o, call);
    CloseExact(Booked(r.policy, o, call), o.claimed);
  }

  lemma BookedPaid(policy: Policy, o: Opened, call: Call)
    requires WellFormedCall(call) && o.toProcess <= |call.streams| && PayPage(policy, o, call).Done?
    requires BookPage(o.accounts.progress, call, PayPage(policy, o, call).value.totals).Ok?
    ensures Booked(policy, o, call).progress.paid == PayPage(policy, o, call).value.totals.paid
  {
    hide PayPage;
  }

  lemma StartKeeps(r: Router, call: Call)
    requires WellFormedCall(call) && Books(r) && r.accounts.progress.dayCompleted
    requires CheckCall(r.accounts.progress, call) == Ok(FirstPage)
    ensures !CrankDistribution(r.policy, r.accounts, call).Unfunded?
    ensures Books(AfterCall(r, call))
  {
    hide CheckCall, RunPage, OpenDay, ReadyToPay, WithinPool, DayPool, PaidOnPage;
    var fee: U64 := 0;
    if OpenDay(r.accounts, call, FirstPage).Done? {
      fee := StartReady(r, call);
    }
    PageFunded(r.policy, r.accounts, call, FirstPage, fee, 0);
    if RunPage(r.policy, r.accounts, call, FirstPage).Done? {
      RunPageIs(r.policy, r.accounts, call, FirstPage);
      OpenDayStarts(r.accounts, call, FirstPage);
      PageKeepsBooks(r, call, FirstPage, fee, 0);
      CallMakesProgress(r.policy, r.accounts, call);
      OpenPageTiles(r.policy, r.accounts, call);
      PageStartsAtCursor(r.policy, r.accounts.progress, call);
      var o := OpenDay(r.accounts, call, FirstPage).value;
      PaidOnPageOnce(r.policy, o, call);
      PagesReadAll(r.policy, o, call);
    }
  }

  lemma ContinueKeeps(r: Router, call: Call)
    requires WellFormedCall(call) && Books(r) && !r.accounts.progress.dayCompleted && Consistent(r, call)
    requires CheckCall(r.accounts.progress, call) == Ok(NextPage)
    ensures !CrankDistribution(r.policy, r.accounts, call).Unfunded?
    ensures Books(AfterCall(r, call))
  {
    hide CheckCall, RunPage, OpenDay, ReadyToPay, WithinPool, DayPool, PaidOnPage, ReadLocked;
    var fee := ContinueReady(r, call);
    PageFunded(r.policy, r.accounts, call, NextPage, fee, r.lockedToday);
    if RunPage(r.policy, r.accounts, call, NextPage).Done? {
      OpenDayStarts(r.accounts, call, NextPage);
      PageKeepsBooks(r, call, NextPage, fee, r.lockedToday);
      CallMakesProgress(r.policy, r.accounts, call);
      OpenPageTiles(r.policy, r.accounts, call);
      PageStartsAtCursor(r.policy, r.accounts.progress, call);
      var o := OpenDay(r.accounts, call, NextPage).value;
      RunPageIs(r.policy, r.accounts, call, NextPage);
      PaidOnPageOnce(r.policy, o, call);
      PagesReadAll(r.policy, o, call);
      AppendDistinct(r.paidToday, PaidOnPage(r.policy, o, call), r.processedToday);
    }
  }

  lemma KindOfCall(r: Router, call: Call)
    requires Books(r) && CheckCall(r.accounts.progress, call).Ok?
    ensures var kind := CheckCall(r.accounts.progress, call).value;
            kind.Retry? || (if r.accounts.progress.dayCompleted then kind.FirstPage? else kind.NextPage?)
  {
    hide OpenBooks;
    var kind := CheckCall(r.accounts.progress, call).value;
    if !kind.Retry? {
      PageStartsAtCursor(r.policy, r.accounts.progress, call);
    }
  }

  /** A call keeps the books in order and is never refused for lack of funds. */
  lemma CallKeeps(r: Router, call: Call)
    requires WellFormedCall(call) && Books(r) && Consistent(r, call)
    ensures !CrankDistribution(r.policy, r.accounts, call).Unfunded?
    ensures Books(AfterCall(r, call))
  {
    hide CheckCall, RunPage, Books, Consistent;
    if CheckCall(r.accounts.progress, call).Ok? {
      KindOfCall(r, call);
      match CheckCall(r.accounts.progress, call).value
      case Retry =>
      case FirstPage => StartKeeps(r, call);
      case NextPage => ContinueKeeps(r, call);
    }
  }

  lemma TopUpKeeps(r: Router, amount: U64)
    requires Books(r)
    ensures Books(AfterTopUp(r, amount))
  {
    hide WithinPool, DayPool, NoDuplicates;
  }

  // ----- All runs -----

  ghost function After(r: Router, e: Event): Router
    requires e.CrankCall? ==> WellFormedCall(e.call)
  {
    match e
    case CrankCall(call) => AfterCall(r, call)
    case TopUp(amount) => AfterTopUp(r, amount)
  }

  /** Every call is well formed and, when it continues a day, consistent with it. */
  ghost predicate ConsistentRun(r: Router, events: seq<Event>)
    decreases |events|
  {
    events == [] || (
      && (events[0].CrankCall? ==>
            WellFormedCall(events[0].call) && Consistent(r, events[0].call))
      && ConsistentRun(After(r, events[0]), events[1..]))
  }

  ghost function Run(r: Router, events: seq<Event>): Router
    requires ConsistentRun(r, events)
    decreases |events|
  {
    if events == [] then r else Run(After(r, events[0]), events[1..])
  }

  lemma NewBooks(policy: Policy, treasury: U64)
    requires ValidPolicy(policy)
    ensures Books(NewRouter(policy, treasury))
  {
  }

  lemma {:induction false} RunKeeps(r: Router, events: seq<Event>)
    requires Books(r) && ConsistentRun(r, events)
    ensures Books(Run(r, events))
    decreases |events|
  {
    hide Books, AfterCall, AfterTopUp, Consistent;
    if events != [] {
      match events[0]
      case CrankCall(call) =>
        CallKeeps(r, call);
        RunKeeps(After(r, events[0]), events[1..]);
      case TopUp(amount) =>
        TopUpKeeps(r, amount);
        RunKeeps(After(r, events[0]), events[1..]);
    }
  }

  /** A state some run of the distribution leads to, every call of it being consistent. */
  ghost predicate Reachable(r: Router) {
    exists policy: Policy, treasury: U64, events: seq<Event> ::
      ValidPolicy(policy) && ConsistentRun(NewRouter(policy, treasury), events)
      && r == Run(NewRouter(policy, treasury), events)
  }

  lemma {:induction false} RunOneMore(r: Router, events: seq<Event>, e: Event)
    requires ConsistentRun(r, events)
    requires e.CrankCall? ==> WellFormedCall(e.call) && Consistent(Run(r, events), e.call)
    ensures ConsistentRun(r, events + [e]) && Run(r, events + [e]) == After(Run(r, events), e)
    decreases |events|
  {
    hide AfterCall, AfterTopUp, Consistent, WellFormedCall;
    if events == [] {
      assert events + [e] == [e];
    } else {
      assert (events + [e])[1..] == events[1..] + [e];
      RunOneMore(After(r, events[0]), events[1..], e);
    }
  }

  lemma NewReachable(policy: Policy, treasury: U64)
    requires ValidPolicy(policy)
    ensures Reachable(NewRouter(policy, treasury))
  {
    var r := NewRouter(policy, treasury);
    assert ConsistentRun(r, []) && r == Run(r, []);
  }

  lemma CallReaches(r: Router, call: Call)
    requires Reachable(r) && WellFormedCall(call) && Consistent(r, call)
    ensures Reachable(AfterCall(r, call))
  {
    hide AfterCall, Consistent, ConsistentRun, Run, WellFormedCall;
    var policy, treasury, events :|
      ValidPolicy(policy) && ConsistentRun(NewRouter(policy, treasury), events)
      && r == Run(NewRouter(policy, treasury), events);
    RunOneMore(NewRouter(policy, treasury), events, CrankCall(call));
    assert Run(NewRouter(policy, treasury), events + [CrankCall(call)]) == AfterCall(r, call);
  }

  /** In every reachable state the books are in order: the cursor is inside the list in an open day,
      pages have tiled the investors from 0 to the cursor, nobody was paid twice, what was distributed
      and carried stays within the pool, and between days the treasury covers the carried dust. */
  lemma ReachableBooks(r: Router)
    requires Reachable(r)
    ensures Books(r)
  {
    hide Books, ConsistentRun, Run;
    var policy, treasury, events :|
      ValidPolicy(policy) && ConsistentRun(NewRouter(policy, treasury), events)
      && r == Run(NewRouter(policy, treasury), events);
    NewBooks(policy, treasury);
    RunKeeps(NewRouter(policy, treasury), events);
  }

  /** No transfer of the crank ever finds the treasury short. */
  lemma NeverShort(r: Router, call: Call)
    requires Reachable(r) && WellFormedCall(call) && Consistent(r, call)
    ensures !CrankDistribution(r.policy, r.accounts, call).Unfunded?
  {
    hide Books, Reachable, Consistent, CrankDistribution;
    ReachableBooks(r);
    CallKeeps(r, call);
  }

  /** Within a day, what was distributed and what is carried never exceed the investors' pool, nor the
      pool what there is to give. */
  lemma DayWithinPool(r: Router)
    requires Reachable(r) && !r.accounts.progress.dayCompleted
    ensures var p := r.accounts.progress;
            p.distributed + p.carryOver <= DayPool(r.policy, p) <= p.totalClaimed
  {
    hide Reachable, EligibleShareBps, InvestorFeeAmount, WithinPool;
    ReachableBooks(r);
    var p := r.accounts.progress;
    InvestorFeeBounded(p.totalClaimed, p.totalClaimed, EligibleShareBps(r.policy, p.totalLockedAll));
    SpentAtMostPool(
      p.distributed + p.carryOver, p.totalLockedAll, DayPool(r.policy, p), r.lockedToday);
  }

  /** In every reachable open day the investors' pool is the floor of the greatest allowed share of the
      day's claim, and so within the part of the claim that corresponds to what is still locked. */
  lemma DayPoolFollowsLocks(r: Router) returns (bps: nat)
    requires Reachable(r) && !r.accounts.progress.dayCompleted
    ensures forall k: nat :: k <= bps <==> ShareAllowed(r.policy, r.accounts.progress.totalLockedAll, k)
    ensures var p, pool := r.accounts.progress, DayPool(r.policy, r.accounts.progress);
            && pool * BASIS_POINTS_DIVISOR <= p.totalClaimed * bps < (pool + 1) * BASIS_POINTS_DIVISOR
            && pool * r.policy.y0TotalAllocation <= p.totalClaimed * p.totalLockedAll
  {
    hide Reachable, EligibleShareBps, InvestorFeeAmount, OpenBooks, ShareAllowed;
    ReachableBooks(r);
    var p := r.accounts.progress;
    bps := EligibleShareBps(r.policy, p.totalLockedAll);
    PoolWithinLockedPart(r.policy, p.totalClaimed, p.totalLockedAll);
    InvestorFeeIsFloor(p.totalClaimed, bps);
    forall k: nat ensures k <= bps <==> ShareAllowed(r.policy, p.totalLockedAll, k) {
      EligibleShareIsGreatest(r.policy, p.totalLockedAll, k);
    }
  }

  // ----- One day at a time -----

  /** The times at which a run starts a day. */
  ghost function DayStarts(r: Router, events: seq<Event>): seq<I64>
    requires ConsistentRun(r, events)
    decreases |events|
  {
    if events == [] then
      []
    else
      var r' := After(r, events[0]);
      var rest := DayStarts(r', events[1..]);
      if LastStart(r') != LastStart(r) then [LastStart(r')] + rest else rest
  }

  ghost function LastStart(r: Router): I64 {
    r.accounts.progress.lastDistributionTs
  }

  ghost predicate DaysApart(last: I64, starts: seq<I64>)
    decreases |starts|
  {
    starts == [] || (last + SECONDS_PER_DAY <= starts[0] && DaysApart(starts[0], starts[1..]))
  }

  lemma CallStartsDayLater(r: Router, call: Call)
    requires WellFormedCall(call) && Books(r)
    ensures LastStart(AfterCall(r, call)) != LastStart(r) ==>
              LastStart(r) + SECONDS_PER_DAY <= LastStart(AfterCall(r, call))
  {
    hide CheckCall, CrankDistribution, OpenBooks, PaidIn;
    if CrankDistribution(r.policy, r.accounts, call).Done? {
      CallMakesProgress(r.policy, r.accounts, call);
    }
  }

  /** Over every run, each day starts at least 24 hours after the one before. */
  lemma {:induction false} DaysStartApart(r: Router, events: seq<Event>)
    requires Books(r) && ConsistentRun(r, events)
    ensures DaysApart(LastStart(r), DayStarts(r, events))
    decreases |events|
  {
    hide Books, AfterCall, Consistent;
    if events != [] {
      match events[0]
      case CrankCall(call) =>
        CallKeeps(r, call);
        CallStartsDayLater(r, call);
        DaysStartApart(After(r, events[0]), events[1..]);
      case TopUp(amount) =>
        TopUpKeeps(r, amount);
        DaysStartApart(After(r, events[0]), events[1..]);
    }
  }

  // ----- Closing a day -----

  /** What a page accounts for: the fresh claim on the first page of a day, the claim and the dust
      carried into the day on a later one. */
  ghost function PageClaim(r: Router, call: Call): U64 {
    if !r.accounts.progress.dayCompleted then r.accounts.progress.totalClaimed
    else if call.claim.Ok? then call.claim.value
    else 0
  }

  /** What the treasury holds beyond what the day, or the dust carried between days, is due. */
  ghost function Slack(a: Accounts): int {
    if a.progress.dayCompleted then a.treasury - a.progress.persistentCarryOver
    else a.treasury + a.progress.distributed - a.progress.totalClaimed
  }

  lemma PageSlack(r: Router, call: Call, kind: PageKind, fee: U64, processed: nat)
    requires WellFormedCall(call) && RunPage(r.policy, r.accounts, call, kind).Done?
    requires OpenDay(r.accounts, call, kind).Done?
    requires var o := OpenDay(r.accounts, call, kind).value;
             ReadyToPay(r.policy, o, call, fee, processed) && !o.accounts.progress.dayCompleted
    ensures var o := OpenDay(r.accounts, call, kind).value;
            var after := RunPage(r.policy, r.accounts, call, kind).value.accounts;
            var p' := after.progress;
            if p'.dayCompleted then
              && p'.distributed + p'.persistentCarryOver
                 + (p'.totalCreatorDistributed - o.accounts.progress.totalCreatorDistributed)
                 == o.claimed
              && Slack(after) == o.accounts.treasury + o.accounts.progress.distributed - o.claimed
            else
              Slack(after) == Slack(o.accounts)
  {
    hide RunPage, PayPage, BookPage, CloseDay, OpenDay, ReadyToPay, WithinPool, DayPool;
    RunPageIs(r.policy, r.accounts, call, kind);
    var o := OpenDay(r.accounts, call, kind).value;
    PageBooked(r.policy, o, call, fee, processed);
    ReadyFacts(r.policy, o, call, fee, processed);
    CloseExact(Booked(r.policy, o, call), o.claimed);
  }

  lemma CallSlack(r: Router, call: Call)
    requires WellFormedCall(call) && Books(r) && Consistent(r, call)
    requires CrankDistribution(r.policy, r.accounts, call).Done?
    requires !CheckCall(r.accounts.progress, call).value.Retry?
    ensures var a, a' := r.accounts, CrankDistribution(r.policy, r.accounts, call).value.accounts;
            && (a'.progress.dayCompleted ==>
                  a'.progress.distributed + a'.progress.persistentCarryOver
                  + (a'.progress.totalCreatorDistributed - a.progress.totalCreatorDistributed)
                  == PageClaim(r, call))
            && Slack(a') == Slack(a) + (if a.progress.dayCompleted && a'.progress.dayCompleted
                                        then a.progress.persistentCarryOver else 0)
  {
    hide CheckCall, RunPage, OpenDay, ReadyToPay, WithinPool, DayPool, Consistent;
    KindOfCall(r, call);
    var kind := CheckCall(r.accounts.progress, call).value;
    RunPageIs(r.policy, r.accounts, call, kind);
    OpenDayStarts(r.accounts, call, kind);
    if r.accounts.progress.dayCompleted {
      var fee := StartReady(r, call);
      PageSlack(r, call, kind, fee, 0);
    } else {
      var fee := ContinueReady(r, call);
      PageSlack(r, call, kind, fee, r.lockedToday);
    }
  }

  /** Closing is exact: what was distributed, what is carried over and what the creator gets add up to
      what the closing page accounts for, so no saturating subtraction ever bites. */
  lemma ClosingExact(r: Router, call: Call)
    requires Reachable(r) && WellFormedCall(call) && Consistent(r, call)
    requires CrankDistribution(r.policy, r.accounts, call).Done?
    requires !CheckCall(r.accounts.progress, call).value.Retry?
    requires CrankDistribution(r.policy, r.accounts, call).value.accounts.progress.dayCompleted
    ensures var p' := CrankDistribution(r.policy, r.accounts, call).value.accounts.progress;
            p'.distributed + p'.persistentCarryOver
            + (p'.totalCreatorDistributed - r.accounts.progress.totalCreatorDistributed)
            == PageClaim(r, call)
  {
    hide CheckCall, CrankDistribution, Reachable, Consistent, Books;
    ReachableBooks(r);
    CallSlack(r, call);
  }

  /** The investors a page pays: on the first page of a day at most a page of those supplied. */
  function InvestorsOnPage(r: Router, call: Call): nat
    requires WellFormedCall(call)
  {
    if BetweenDays(r) then Min(call.pageSize, Pairs(call)) else Pairs(call)
  }

  lemma PageCloses(policy: Policy, a: Accounts, call: Call, kind: PageKind)
    requires WellFormedCall(call) && RunPage(policy, a, call, kind).Done?
    requires kind.FirstPage? || !a.progress.dayCompleted
    ensures OpenDay(a, call, kind).Done?
    ensures var n := OpenDay(a, call, kind).value.toProcess;
            RunPage(policy, a, call, kind).value.accounts.progress.dayCompleted
            <==> n < call.pageSize || call.pageStart + n >= policy.totalInvestors
  {
    hide PayPage, TotalLocked;
  }

  /** A page closes the day when it is short of investors or reaches the last of them. */
  lemma DayClosesWhen(r: Router, call: Call)
    requires Books(r) && WellFormedCall(call) && Consistent(r, call)
    requires CrankDistribution(r.policy, r.accounts, call).Done?
    requires !CheckCall(r.accounts.progress, call).value.Retry?
    ensures var r', n := AfterCall(r, call), InvestorsOnPage(r, call);
            && r'.processedToday == call.pageStart + n
            && (BetweenDays(r') <==> n < call.pageSize || call.pageStart + n >= r.policy.totalInvestors)
  {
    hide CheckCall, RunPage, OpenDay, Consistent, OpenBooks, PaidIn;
    KindOfCall(r, call);
    var kind := CheckCall(r.accounts.progress, call).value;
    PageStartsAtCursor(r.policy, r.accounts.progress, call);
    OpenDayProcesses(r, call);
    PageCloses(r.policy, r.accounts, call, kind);
    RunPageAdvances(r.policy, r.accounts, call, kind);
    OpenDayStarts(r.accounts, call, kind);
  }

  lemma OpenDayProcesses(r: Router, call: Call)
    requires Books(r)
    ensures !BetweenDays(r) ==> r.processedToday == r.accounts.progress.cursor
  {
    hide WithinPool, DayPool, NoDuplicates;
  }

  /** A day that closes has not always processed every investor: it is closed with the others left out
      exactly when the page is short and does not reach the last of them. Anybody may crank such a page,
      even one with no investors. */
  lemma DayClosedEarlyIff(r: Router, call: Call)
    requires Reachable(r) && WellFormedCall(call) && Consistent(r, call)
    requires CrankDistribution(r.policy, r.accounts, call).Done?
    requires !CheckCall(r.accounts.progress, call).value.Retry?
    ensures var r', n := AfterCall(r, call), InvestorsOnPage(r, call);
            && r'.processedToday == r.accounts.progress.cursor + n
            && (BetweenDays(r') && r'.processedToday < r.policy.totalInvestors
                <==> n < call.pageSize && r.accounts.progress.cursor + n < r.policy.totalInvestors)
  {
    hide Reachable, OpenBooks, CheckCall, RunPage, Consistent, AfterCall;
    ReachableBooks(r);
    DayClosesWhen(r, call);
    PageStartsAtCursor(r.policy, r.accounts.progress, call);
  }

  /** A first page that closes its day: too few investors for the page, or a page for all of them. */
  predicate SinglePage(policy: Policy, call: Call)
    requires WellFormedCall(call)
  {
    Pairs(call) < call.pageSize || call.pageSize >= policy.totalInvestors
  }

  /** Across days nothing is lost but the dust carried into a day that closes on its first page: that
      dust, and only that, stays in the treasury for good. */
  lemma OnlySinglePageDaysStrandDust(r: Router, call: Call)
    requires Reachable(r) && WellFormedCall(call) && Consistent(r, call)
    requires CrankDistribution(r.policy, r.accounts, call).Done?
    requires !CheckCall(r.accounts.progress, call).value.Retry?
    ensures var a, a' := r.accounts, CrankDistribution(r.policy, r.accounts, call).value.accounts;
            var stranded := BetweenDays(r) && SinglePage(r.policy, call);
            && 0 <= Slack(a)
            && Slack(a') == Slack(a) + (if stranded then a.progress.persistentCarryOver else 0)
            && (Slack(a') != Slack(a) <==> stranded && a.progress.persistentCarryOver > 0)
  {
    hide CheckCall, CrankDistribution, Reachable, Consistent, OpenBooks;
    ReachableBooks(r);
    CallSlack(r, call);
    SlackNonNegative(r);
    if BetweenDays(r) {
      FirstPageCloses(r, call);
    }
  }

  lemma FirstPageCloses(r: Router, call: Call)
    requires Books(r) && WellFormedCall(call) && BetweenDays(r)
    requires CrankDistribution(r.policy, r.accounts, call).Done?
    requires !CheckCall(r.accounts.progress, call).value.Retry?
    ensures CrankDistribution(r.policy, r.accounts, call).value.accounts.progress.dayCompleted
            <==> SinglePage(r.policy, call)
  {
    hide CheckCall, RunPage, OpenBooks, PaidIn;
    PageStartsAtCursor(r.policy, r.accounts.progress, call);
    DayClosesWhen(r, call);
  }

  lemma SlackNonNegative(r: Router)
    requires Books(r)
    ensures 0 <= Slack(r.accounts)
  {
    hide WithinPool, DayPool, NoDuplicates;
  }
}

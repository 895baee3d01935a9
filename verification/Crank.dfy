/** One call of the daily distribution crank, as a function of the accounts it reads and writes. */
module Crank {
  import opened Checked
  import opened Division
  import opened Instructions
  import opened Progress
  import opened RouterMath

  const MAX_PAGE_SIZE: int := 50

  /** What a call is given: the page asked for, the clock, what each stream account reads as, whether a
      stream account without its token account trails the list, and what the claim of the position's
      fees yields. */
  datatype Call = Call(
    pageStart: U32,
    pageSize: U32,
    now: I64,
    streams: seq<Result<U64>>,
    trailing: bool,
    claim: Result<U64>)

  /** The accounts a call writes. */
  datatype Accounts = Accounts(progress: ProgressData, treasury: U64, totalFeesClaimed: U64)

  predicate WellFormedCall(call: Call) {
    call.trailing ==> |call.streams| > 0
  }

  /** The number of investors supplied, each a pair of a stream and a token account. */
  function Pairs(call: Call): nat
    requires WellFormedCall(call)
  {
    if call.trailing then |call.streams| - 1 else |call.streams|
  }

  // ----- Pagination -----

  /** First page, retry of the previous page, or the page at the cursor. */
  datatype PageKind = FirstPage | Retry | NextPage

  function PreviousPageStart(cursor: U32, pageSize: U32): U32 {
    if cursor >= pageSize then cursor - pageSize else 0
  }

  function ClassifyPage(p: ProgressData, call: Call): Result<PageKind> {
    var isFirst := call.pageStart == 0 && (p.dayCompleted || p.cursor == 0);
    var isRetry :=
      && !p.dayCompleted && call.pageStart == PreviousPageStart(p.cursor, call.pageSize)
      && call.pageStart < p.cursor;
    if isRetry then Ok(Retry)
    else if isFirst then Ok(FirstPage)
    else
      var _ :- Require(call.pageStart == p.cursor, InvalidPaginationSequence);
      Ok(NextPage)
  }

  // ----- Reading streams -----

  /** The total over all streams, with checked additions. */
  function TotalLocked(streams: seq<Result<U64>>, so: U64): Result<U64>
    decreases |streams|
  {
    if streams == [] then
      Ok(so)
    else
      var locked: U64 :- streams[0];
      var sum: U64 :- Fit64(so + locked);
      TotalLocked(streams[1..], sum)
  }

  /** The locked amounts of the investors of this page. */
  function ReadLocked(streams: seq<Result<U64>>, so: seq<U64>): Result<seq<U64>>
    decreases |streams|
  {
    if streams == [] then
      Ok(so)
    else
      var locked: U64 :- streams[0];
      ReadLocked(streams[1..], so + [locked])
  }

  function Sum(amounts: seq<U64>): nat {
    if amounts == [] then 0 else amounts[0] + Sum(amounts[1..])
  }

  // ----- Paying out -----

  /** The running totals of the payout loops. `paid` is the bitmap. */
  datatype Totals = Totals(
    distributed: U64, treasury: U64, pageDistributed: U64, pageDust: U64, paid: set<nat>)

  /** A transfer out of the treasury, counted. */
  function Transfer(t: Totals, amount: U64): Outcome<Totals> {
    var treasury: U64 :- Withdraw(t.treasury, amount);
    Done(t.(
      treasury := treasury, distributed := SaturatingAdd(t.distributed, amount),
      pageDistributed := SaturatingAdd(t.pageDistributed, amount)))
  }

  function MarkPaid(t: Totals, index: nat): Result<Totals> {
    if index < MAX_TRACKED then Ok(t.(paid := t.paid + {index})) else Err(InvalidPagination)
  }

  /** One investor of the main loop. */
  function PayInvestor(policy: Policy, fee: U64, totalLocked: U64, t: Totals, index: nat, locked: U64)
    : Outcome<Totals>
  {
    var _ :- Computed(Require(index !in t.paid, InvestorAlreadyPaid));
    var payout: U64 :- Computed(IndividualPayout(fee, locked, totalLocked));
    var split := ApplyDustThreshold(payout, policy.minPayout);
    if split.payout > 0 then
      var allowed: U64 :- Computed(CheckDailyCap(t.distributed, split.payout, policy.dailyCap));
      var t1 :- if allowed > 0 then PayAndMark(t, index, allowed) else Done(t);
      Done(t1.(pageDust := SaturatingAdd(t1.pageDust, Monus(split.payout, allowed))))
    else
      Done(t.(pageDust := SaturatingAdd(t.pageDust, split.dust)))
  }

  function PayAndMark(t: Totals, index: nat, amount: U64): Outcome<Totals> {
    var t1 :- Transfer(t, amount);
    Computed(MarkPaid(t1, index))
  }

  /** The main loop, from investor `idx` of the page on. */
  function PayAll(
      policy: Policy, fee: U64, totalLocked: U64, t: Totals, pageStart: U32, locked: seq<U64>, idx: nat)
    : Outcome<Totals>
    requires idx <= |locked|
    decreases |locked| - idx
  {
    if idx == |locked| then
      Done(t)
    else if pageStart + idx >= 0x1_0000_0000 then
      Aborted(MathOverflow)
    else
      var t1 :- PayInvestor(policy, fee, totalLocked, t, pageStart + idx, locked[idx]);
      PayAll(policy, fee, totalLocked, t1, pageStart, locked, idx + 1)
  }

  /** `(x * y / d) as u64`, which keeps the low 64 bits. */
  function ShareTruncated(x: U64, y: U64, d: U64): U64
    requires d > 0
  {
    FloorDiv(x * y, d) % TWO_64
  }

  /** The loop that hands out carried dust, which does not look at the daily cap. */
  function PayDust(dust: U64, pageLocked: U64, t: Totals, locked: seq<U64>, idx: nat): Outcome<Totals>
    requires pageLocked > 0 && idx <= |locked|
    decreases |locked| - idx
  {
    if idx == |locked| then
      Done(t)
    else
      var share := ShareTruncated(dust, locked[idx], pageLocked);
      var t1 :- if share > 0 then Transfer(t, share) else Done(t);
      PayDust(dust, pageLocked, t1, locked, idx + 1)
  }

  /** How much of the carried dust this page hands out. */
  function DustForPage(policy: Policy, carried: U64, locked: seq<U64>, totalLocked: U64): Result<U64> {
    if carried >= policy.minPayout then
      var pageLocked: U64 :- Plain64(Sum(locked));
      Ok(if totalLocked > 0 then ShareTruncated(carried, pageLocked, totalLocked) else 0)
    else
      Ok(0)
  }

  function PayCarriedDust(dust: U64, carried: U64, t: Totals, locked: seq<U64>): Outcome<Totals> {
    if dust > 0 then
      var pageLocked: U64 :- Computed(Plain64(Sum(locked)));
      var t1 :- if pageLocked > 0 then PayDust(dust, pageLocked, t, locked, 0) else Done(t);
      Done(t1.(pageDust := SaturatingAdd(t1.pageDust, Monus(carried, dust))))
    else
      Done(t.(pageDust := SaturatingAdd(t.pageDust, carried)))
  }

  // ----- The steps of a call -----

  /** The state once the day is open and the page is known. */
  datatype Opened = Opened(accounts: Accounts, claimed: U64, toProcess: nat)

  /** Starts a new day when the first page of a completed day is asked for. */
  function OpenDay(a: Accounts, call: Call, kind: PageKind): Outcome<Opened>
    requires WellFormedCall(call)
  {
    if kind.FirstPage? && a.progress.dayCompleted then
      var total: U64 :- Computed(TotalLocked(call.streams, 0));
      var claimed: U64 :- Computed(call.claim);
      var treasury: U64 :- Deposit(a.treasury, claimed);
      var p := StartNewDay(a.progress, call.now, claimed, total);
      var fees: U64 :- Computed(Plain64(a.totalFeesClaimed + claimed));
      Done(Opened(Accounts(p, treasury, fees), claimed, Min(call.pageSize, Pairs(call))))
    else
      Done(Opened(a, a.progress.totalClaimed, Pairs(call)))
  }

  /** What the payout loops of a page produce. */
  datatype PagePaid = PagePaid(totals: Totals, locked: seq<U64>)

  function PayPage(policy: Policy, o: Opened, call: Call): Outcome<PagePaid>
    requires WellFormedCall(call) && o.toProcess <= |call.streams|
  {
    var locked: seq<U64> :- Computed(ReadLocked(call.streams[..o.toProcess], []));
    var p := o.accounts.progress;
    var fee: U64 :- Computed(
      InvestorFeeAmount(o.claimed, EligibleShareBps(policy, p.totalLockedAll)));
    var dust: U64 :- Computed(DustForPage(policy, p.carryOver, locked, p.totalLockedAll));
    var start := Totals(p.distributed, o.accounts.treasury, 0, 0, p.paid);
    var t1 :- PayAll(policy, fee, p.totalLockedAll, start, call.pageStart, locked, 0);
    var t2 :- PayCarriedDust(dust, p.carryOver, t1, locked);
    Done(PagePaid(t2, locked))
  }

  /** Moves the cursor and books what the page paid. */
  function BookPage(p: ProgressData, call: Call, t: Totals): Result<ProgressData> {
    var cursor: U32 :- Plain32(call.pageStart + call.pageSize);
    var total: U64 :- Plain64(p.totalInvestorDistributed + t.pageDistributed);
    Ok(p.(
      distributed := t.distributed, carryOver := t.pageDust, cursor := cursor,
      totalInvestorDistributed := total, paid := t.paid))
  }

  function IsFinalPage(policy: Policy, call: Call, toProcess: nat): Result<bool> {
    if call.pageStart + toProcess >= 0x1_0000_0000 then Err(InvalidPagination)
    else Ok(toProcess < call.pageSize || call.pageStart + toProcess >= policy.totalInvestors)
  }

  /** On the final page the creator gets the remainder and the day is closed. */
  function CloseDay(a: Accounts, claimed: U64): Outcome<Accounts> {
    var remainder := CreatorRemainder(claimed, a.progress.distributed, a.progress.carryOver);
    var treasury: U64 :- Withdraw(a.treasury, remainder);
    var p :- Computed(CompleteDay(a.progress, remainder));
    Done(a.(progress := p, treasury := treasury))
  }

  datatype Cranked = Cranked(accounts: Accounts, locked: seq<U64>)

  /** The part of `handle_crank_distribution` after the pagination checks. */
  function RunPage(policy: Policy, a: Accounts, call: Call, kind: PageKind): Outcome<Cranked>
    requires WellFormedCall(call)
  {
    var o :- OpenDay(a, call, kind);
    var final: bool :- Computed(IsFinalPage(policy, call, o.toProcess));
    var paid :- PayPage(policy, o, call);
    var p :- Computed(BookPage(o.accounts.progress, call, paid.totals));
    var booked := o.accounts.(progress := p, treasury := paid.totals.treasury);
    var closed :- if final then CloseDay(booked, o.claimed) else Done(booked);
    Done(Cranked(closed, paid.locked))
  }

  /** The checks before anything is touched. */
  function CheckCall(p: ProgressData, call: Call): Result<PageKind> {
    var _ :- Require(0 < call.pageSize <= MAX_PAGE_SIZE, InvalidPagination);
    var can: bool :- CanDistribute(p, call.now);
    var _ :- Require(can, CrankWindowNotReached);
    ClassifyPage(p, call)
  }

  /** `handle_crank_distribution`; a retry of the previous page does nothing. */
  function CrankDistribution(policy: Policy, a: Accounts, call: Call): Outcome<Cranked>
    requires WellFormedCall(call)
  {
    var kind :- Computed(CheckCall(a.progress, call));
    if kind.Retry? then Done(Cranked(a, [])) else RunPage(policy, a, call, kind)
  }
}

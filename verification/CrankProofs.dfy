/** What one call of the crank guarantees: pages in order, nobody paid twice, and every lamport of the
    day accounted for. */
module CrankProofs {
  import opened Checked
  import opened Progress
  import opened RouterMath
  import opened Crank

  // ----- Paging -----

  /** Between days the cursor is at the start; in an open day it is inside the list of investors. */
  ghost predicate Paging(policy: Policy, p: ProgressData) {
    if p.dayCompleted then p.cursor == 0 && p.paid == {} else 0 < p.cursor < policy.totalInvestors
  }

  /** A page that is not a retry starts at the cursor. */
  lemma PageStartsAtCursor(policy: Policy, p: ProgressData, call: Call)
    requires Paging(policy, p) && CheckCall(p, call).Ok? && !CheckCall(p, call).value.Retry?
    ensures call.pageStart == p.cursor && 0 < call.pageSize
    ensures CheckCall(p, call).value.FirstPage? <==> p.dayCompleted
    ensures p.dayCompleted ==> p.lastDistributionTs + SECONDS_PER_DAY <= call.now
  {
  }

  /** Between days a call passes the checks exactly when it asks for the first page, of an allowed size,
      at least 24 hours after the last day started; in an open day exactly when it is the next page or
      a retry. */
  lemma CallPassesIff(policy: Policy, p: ProgressData, call: Call)
    requires Paging(policy, p)
    ensures CheckCall(p, call).Ok?
            <==> && 0 < call.pageSize <= MAX_PAGE_SIZE
                 && p.lastDistributionTs + SECONDS_PER_DAY < 0x8000_0000_0000_0000
                 && (if p.dayCompleted then
                       call.pageStart == 0 && p.lastDistributionTs + SECONDS_PER_DAY <= call.now
                     else
                       call.pageStart == p.cursor || call.pageStart + call.pageSize == p.cursor
                       || (p.cursor < call.pageSize && call.pageStart == 0))
  {
  }

  /** A call counts as a retry exactly in an open day when it asks for the page that ends at the cursor,
      or for the start of the list if the cursor is within the first page. */
  lemma RetryIsPreviousPage(policy: Policy, p: ProgressData, call: Call)
    requires Paging(policy, p) && CheckCall(p, call).Ok?
    ensures CheckCall(p, call).value.Retry? <==>
              && !p.dayCompleted
              && (if p.cursor < call.pageSize then call.pageStart == 0
                  else call.pageStart + call.pageSize == p.cursor)
  {
  }

  ghost function Remaining(policy: Policy, p: ProgressData): int {
    if p.dayCompleted then 0 else policy.totalInvestors - p.cursor
  }

  /** What `RunPage` does to the page counter and the day. */
  lemma RunPageAdvances(policy: Policy, a: Accounts, call: Call, kind: PageKind)
    requires WellFormedCall(call) && RunPage(policy, a, call, kind).Done?
    requires a.progress.dayCompleted ==> kind.FirstPage?
    ensures OpenDay(a, call, kind).Done?
    ensures var c := RunPage(policy, a, call, kind).value;
            var o := OpenDay(a, call, kind).value;
            && |c.locked| == o.toProcess
            && (c.accounts.progress.dayCompleted ==>
                  c.accounts.progress.cursor == 0 && c.accounts.progress.paid == {})
            && (!c.accounts.progress.dayCompleted ==>
                  && !o.accounts.progress.dayCompleted
                  && c.accounts.progress.cursor == call.pageStart + call.pageSize
                  && call.pageSize <= o.toProcess
                  && call.pageStart + o.toProcess < policy.totalInvestors)
            && c.accounts.progress.lastDistributionTs == o.accounts.progress.lastDistributionTs
  {
    hide PayPage, TotalLocked, EligibleShareBps;
    PagesReadAll(policy, OpenDay(a, call, kind).value, call);
  }

  lemma PagesReadAll(policy: Policy, o: Opened, call: Call)
    requires WellFormedCall(call) && o.toProcess <= |call.streams| && PayPage(policy, o, call).Done?
    ensures ReadLocked(call.streams[..o.toProcess], []) == Ok(PayPage(policy, o, call).value.locked)
    ensures |PayPage(policy, o, call).value.locked| == o.toProcess
  {
    hide PayAll, PayCarriedDust, DustForPage, EligibleShareBps;
    ReadLockedLength(call.streams[..o.toProcess], []);
  }

  lemma {:induction false} ReadLockedLength(streams: seq<Result<U64>>, so: seq<U64>)
    requires ReadLocked(streams, so).Ok?
    ensures |ReadLocked(streams, so).value| == |so| + |streams|
    decreases |streams|
  {
    if streams != [] {
      ReadLockedLength(streams[1..], so + [streams[0].value]);
    }
  }

  /** The locked amounts of a page are what its streams read, in order. */
  lemma {:induction false} ReadLockedIs(streams: seq<Result<U64>>, so: seq<U64>, locked: seq<U64>)
    ensures ReadLocked(streams, so) == Ok(so + locked)
            <==> |locked| == |streams| && forall k :: 0 <= k < |streams| ==> streams[k] == Ok(locked[k])
    decreases |streams|
  {
    if streams == [] {
      if locked == [] {
        assert so + locked == so;
      } else {
        assert |so + locked| != |so|;
      }
    } else if streams[0].Ok? {
      var first := streams[0].value;
      if locked != [] && locked[0] == first {
        ReadLockedIs(streams[1..], so + [first], locked[1..]);
        assert so + [first] + locked[1..] == so + locked;
        assert forall k :: 1 <= k < |streams| ==> streams[k] == streams[1..][k - 1];
        assert forall k :: 1 <= k < |locked| ==> locked[k] == locked[1..][k - 1];
      } else if ReadLocked(streams, so).Ok? {
        ReadLockedPrefix(streams[1..], so + [first]);
        assert ReadLocked(streams, so).value[|so|] == first;
      }
    }
  }

  lemma {:induction false} ReadLockedPrefix(streams: seq<Result<U64>>, so: seq<U64>)
    requires ReadLocked(streams, so).Ok?
    ensures so <= ReadLocked(streams, so).value
    decreases |streams|
  {
    if streams != [] {
      ReadLockedPrefix(streams[1..], so + [streams[0].value]);
    }
  }

  /** Every successful call leaves the accounts alone (a retry), advances the cursor by the page size,
      or closes the day; in an open day the last two bring the day strictly closer to its end. */
  lemma CallMakesProgress(policy: Policy, a: Accounts, call: Call)
    requires WellFormedCall(call) && ValidPolicy(policy) && Paging(policy, a.progress)
    requires CrankDistribution(policy, a, call).Done?
    ensures var p, p' := a.progress, CrankDistribution(policy, a, call).value.accounts.progress;
            && Paging(policy, p')
            && (CrankDistribution(policy, a, call).value.accounts == a
                || p'.dayCompleted
                || p'.cursor == p.cursor + call.pageSize)
            && (CrankDistribution(policy, a, call).value.accounts == a
                || p.dayCompleted
                || Remaining(policy, p') < Remaining(policy, p))
            && (p'.lastDistributionTs != p.lastDistributionTs ==>
                  && p.dayCompleted && p'.lastDistributionTs == call.now
                  && p.lastDistributionTs + SECONDS_PER_DAY <= p'.lastDistributionTs)
  {
    hide RunPage, CheckCall, OpenDay;
    var kind := CheckCall(a.progress, call).value;
    if !kind.Retry? {
      PageStartsAtCursor(policy, a.progress, call);
      RunPageAdvances(policy, a, call, kind);
      OpenDayStarts(a, call, kind);
    }
  }

  lemma OpenDayStarts(a: Accounts, call: Call, kind: PageKind)
    requires WellFormedCall(call) && OpenDay(a, call, kind).Done?
    ensures var o := OpenDay(a, call, kind).value;
            if kind.FirstPage? && a.progress.dayCompleted then
              && TotalLocked(call.streams, 0).Ok? && call.claim == Ok(o.claimed)
              && o.accounts.progress
                 == StartNewDay(a.progress, call.now, o.claimed, TotalLocked(call.streams, 0).value)
              && o.accounts.treasury == a.treasury + o.claimed
              && o.accounts.totalFeesClaimed == a.totalFeesClaimed + o.claimed
              && o.toProcess == Min(call.pageSize, Pairs(call))
            else
              o.accounts == a && o.claimed == a.progress.totalClaimed && o.toProcess == Pairs(call)
  {
    hide TotalLocked;
  }

  /** A page that leaves the day open has processed exactly the investors between the old cursor and
      the new one, provided no more pairs than a page were supplied. */
  lemma OpenPageTiles(policy: Policy, a: Accounts, call: Call)
    requires WellFormedCall(call) && ValidPolicy(policy) && Paging(policy, a.progress)
    requires CrankDistribution(policy, a, call).Done?
    requires !a.progress.dayCompleted ==> Pairs(call) <= call.pageSize
    requires !CheckCall(a.progress, call).value.Retry?
    ensures var c := CrankDistribution(policy, a, call).value;
            !c.accounts.progress.dayCompleted ==>
              c.accounts.progress.cursor == a.progress.cursor + |c.locked|
  {
    hide RunPage, CheckCall, OpenDay;
    var kind := CheckCall(a.progress, call).value;
    PageStartsAtCursor(policy, a.progress, call);
    RunPageAdvances(policy, a, call, kind);
    OpenDayStarts(a, call, kind);
  }

  // ----- Nobody is paid twice -----

  /** The investors the main loop makes a transfer to, in order. */
  ghost function PaidBy(
      policy: Policy, fee: U64, totalLocked: U64, t: Totals, pageStart: U32, locked: seq<U64>, idx: nat)
    : seq<nat>
    requires idx <= |locked|
    requires PayAll(policy, fee, totalLocked, t, pageStart, locked, idx).Done?
    decreases |locked| - idx
  {
    if idx == |locked| then
      []
    else
      var t1 := PayInvestor(policy, fee, totalLocked, t, pageStart + idx, locked[idx]).value;
      var rest := PaidBy(policy, fee, totalLocked, t1, pageStart, locked, idx + 1);
      if Transferred(t, t1) then [pageStart + idx] + rest else rest
  }

  /** One investor's round of the loop moved tokens. */
  ghost predicate Transferred(t: Totals, t1: Totals) {
    t1.treasury != t.treasury
  }

  ghost predicate NoDuplicates(indices: seq<nat>) {
    forall j, k :: 0 <= j < k < |indices| ==> indices[j] != indices[k]
  }

  lemma PayInvestorMarks(
      policy: Policy, fee: U64, totalLocked: U64, t: Totals, index: nat, locked: U64)
    requires PayInvestor(policy, fee, totalLocked, t, index, locked).Done?
    ensures index !in t.paid
    ensures var t1 := PayInvestor(policy, fee, totalLocked, t, index, locked).value;
            t1.paid == if Transferred(t, t1) then t.paid + {index} else t.paid
  {
    hide IndividualPayout, CheckDailyCap;
  }

  /** Each payment goes to an investor whose bit was clear and sets it, so no investor is paid twice. */
  lemma {:induction false} PaidOnce(
      policy: Policy, fee: U64, totalLocked: U64, t: Totals, pageStart: U32, locked: seq<U64>, idx: nat)
    requires idx <= |locked|
    requires PayAll(policy, fee, totalLocked, t, pageStart, locked, idx).Done?
    ensures var t' := PayAll(policy, fee, totalLocked, t, pageStart, locked, idx).value;
            var indices := PaidBy(policy, fee, totalLocked, t, pageStart, locked, idx);
            && NoDuplicates(indices)
            && (forall i :: i in indices ==> i !in t.paid && pageStart + idx <= i < pageStart + |locked|)
            && t'.paid == t.paid + (set i | i in indices)
    decreases |locked| - idx
  {
    hide PayInvestor;
    if idx < |locked| {
      PayInvestorMarks(policy, fee, totalLocked, t, pageStart + idx, locked[idx]);
      var t1 := PayInvestor(policy, fee, totalLocked, t, pageStart + idx, locked[idx]).value;
      PaidOnce(policy, fee, totalLocked, t1, pageStart, locked, idx + 1);
    }
  }
}

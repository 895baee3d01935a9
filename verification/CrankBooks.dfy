/** Every lamport of a page: what is paid, what is carried as dust, and what the treasury still holds. */
module CrankBooks {
  import opened Checked
  import opened Division
  import opened RouterMath
  import opened Crank

  // ----- What a page is entitled to -----

  ghost function SumFrom(locked: seq<U64>, idx: nat): nat
    requires idx <= |locked|
    decreases |locked| - idx
  {
    if idx == |locked| then 0 else locked[idx] + SumFrom(locked, idx + 1)
  }

  lemma {:induction false} SumIsSumFrom(locked: seq<U64>, idx: nat)
    requires idx <= |locked|
    ensures SumFrom(locked, idx) == Sum(locked[idx..])
    decreases |locked| - idx
  {
    if idx < |locked| {
      SumIsSumFrom(locked, idx + 1);
      assert locked[idx..][1..] == locked[idx + 1..];
    }
  }

  ghost function Share(pool: nat, locked: nat, total: nat): nat {
    if total == 0 then 0 else FloorDiv(pool * locked, total)
  }

  /** The rounded shares of a pool for the locked amounts from `idx` on. */
  ghost function Shares(pool: nat, total: nat, locked: seq<U64>, idx: nat): nat
    requires idx <= |locked|
    decreases |locked| - idx
  {
    if idx == |locked| then 0 else Share(pool, locked[idx], total) + Shares(pool, total, locked, idx + 1)
  }

  /** Rounded down, the shares never add up to more than the pool's proportion. */
  lemma {:induction false} SharesBounded(pool: nat, total: nat, locked: seq<U64>, idx: nat)
    requires idx <= |locked|
    ensures Shares(pool, total, locked, idx) * total <= pool * SumFrom(locked, idx)
    ensures total == 0 ==> Shares(pool, total, locked, idx) == 0
    decreases |locked| - idx
  {
    if idx < |locked| {
      SharesBounded(pool, total, locked, idx + 1);
      AddProducts(
        Share(pool, locked[idx], total), Shares(pool, total, locked, idx + 1), total, pool, locked[idx],
        SumFrom(locked, idx + 1));
    }
  }

  lemma AddProducts(x: nat, y: nat, total: nat, pool: nat, l: nat, rest: nat)
    requires x * total <= pool * l && y * total <= pool * rest
    ensures (x + y) * total <= pool * (l + rest)
  {
  }

  // ----- The main loop -----

  /** Nothing saturates and the treasury covers what is promised. */
  ghost predicate Room(t: Totals, promised: nat) {
    && t.distributed + t.pageDust + promised <= U64_MAX
    && t.pageDistributed <= t.distributed
    && t.pageDust + promised <= t.treasury
  }

  /** `promised` has been paid out or set aside as dust. */
  ghost predicate Settled(t: Totals, t': Totals, promised: nat) {
    && t'.distributed + t'.pageDust == t.distributed + t.pageDust + promised
    && t'.treasury + t'.distributed == t.treasury + t.distributed
    && t.distributed <= t'.distributed
    && t'.pageDistributed - t.pageDistributed == t'.distributed - t.distributed
  }

  lemma PayInvestorSettles(policy: Policy, fee: U64, total: U64, t: Totals, index: nat, locked: U64)
    requires locked <= total && Room(t, Share(fee, locked, total))
    ensures var r := PayInvestor(policy, fee, total, t, index, locked);
            && !r.Unfunded?
            && (r.Done? ==> Settled(t, r.value, Share(fee, locked, total)))
  {
    hide FloorDiv;
    IndividualPayoutBounded(fee, locked, total);
    var payout := IndividualPayout(fee, locked, total).value;
    assert payout == Share(fee, locked, total);
    AllowedAtMostProposed(t.distributed, payout, policy.dailyCap);
  }

  lemma AllowedAtMostProposed(distributed: U64, proposed: U64, cap: Option<U64>)
    ensures CheckDailyCap(distributed, proposed, cap).Ok? ==>
              CheckDailyCap(distributed, proposed, cap).value <= proposed
  {
  }

  lemma SettledRoom(t: Totals, t1: Totals, promised: nat, rest: nat)
    requires Room(t, promised + rest) && Settled(t, t1, promised)
    ensures Room(t1, rest)
  {
  }

  lemma SettledTwice(t: Totals, t1: Totals, t2: Totals, promised: nat, rest: nat)
    requires Settled(t, t1, promised) && Settled(t1, t2, rest)
    ensures Settled(t, t2, promised + rest)
  {
  }

  lemma RoomForLess(t: Totals, promised: nat, less: nat)
    requires Room(t, promised) && less <= promised
    ensures Room(t, less)
  {
  }

  /** The main loop is never short of funds and settles exactly the shares of the page. */
  lemma {:induction false} PayAllSettles(
      policy: Policy, fee: U64, total: U64, t: Totals, pageStart: U32, locked: seq<U64>, idx: nat)
    requires idx <= |locked| && SumFrom(locked, idx) <= total
    requires Room(t, Shares(fee, total, locked, idx))
    ensures var r := PayAll(policy, fee, total, t, pageStart, locked, idx);
            && !r.Unfunded?
            && (r.Done? ==> Settled(t, r.value, Shares(fee, total, locked, idx)))
    decreases |locked| - idx
  {
    hide PayInvestor, Share, Room, Settled;
    if idx == |locked| {
      SettledNothing(t);
    } else if pageStart + idx < 0x1_0000_0000 {
      var first, rest := Share(fee, locked[idx], total), Shares(fee, total, locked, idx + 1);
      RoomForLess(t, first + rest, first);
      PayInvestorSettles(policy, fee, total, t, pageStart + idx, locked[idx]);
      var r := PayInvestor(policy, fee, total, t, pageStart + idx, locked[idx]);
      if r.Done? {
        SettledRoom(t, r.value, first, rest);
        PayAllSettles(policy, fee, total, r.value, pageStart, locked, idx + 1);
        var r2 := PayAll(policy, fee, total, r.value, pageStart, locked, idx + 1);
        if r2.Done? {
          SettledTwice(t, r.value, r2.value, first, rest);
        }
      }
    }
  }

  lemma SettledNothing(t: Totals)
    ensures Settled(t, t, 0)
  {
  }

  // ----- The dust loop -----

  /** What a page hands out of carried dust: never more than is carried. */
  lemma ShareNotTruncated(x: U64, y: nat, d: nat)
    requires 0 < d && y <= d && y < TWO_64 && d < TWO_64
    ensures ShareTruncated(x, y, d) == Share(x, y, d) <= x
  {
    AtMostAll(x, y, d);
  }

  lemma {:induction false} SumFromBounds(locked: seq<U64>, idx: nat)
    requires idx < |locked|
    ensures locked[idx] <= SumFrom(locked, idx) && SumFrom(locked, idx + 1) <= SumFrom(locked, idx)
  {
  }

  /** `promised` has been paid out, on top of the dust set aside. */
  ghost predicate HandedOut(t: Totals, t': Totals, promised: nat) {
    && t'.distributed == t.distributed + promised && t'.treasury == t.treasury - promised
    && t'.pageDistributed == t.pageDistributed + promised
    && t'.pageDust == t.pageDust && t'.paid == t.paid
  }

  lemma TransferHandsOut(t: Totals, amount: U64)
    requires Room(t, amount)
    ensures Transfer(t, amount).Done? && HandedOut(t, Transfer(t, amount).value, amount)
  {
  }

  lemma HandedOutNothing(t: Totals)
    ensures HandedOut(t, t, 0)
  {
  }

  lemma HandedOutTwice(t: Totals, t1: Totals, t2: Totals, promised: nat, rest: nat)
    requires HandedOut(t, t1, promised)
    ensures Room(t, promised + rest) ==> Room(t1, rest)
    ensures HandedOut(t1, t2, rest) ==> HandedOut(t, t2, promised + rest)
  {
  }

  lemma {:induction false} PayDustHandsOut(
      dust: U64, pageLocked: U64, t: Totals, locked: seq<U64>, idx: nat)
    requires 0 < pageLocked && idx <= |locked| && SumFrom(locked, idx) <= pageLocked
    requires Room(t, Shares(dust, pageLocked, locked, idx))
    ensures PayDust(dust, pageLocked, t, locked, idx).Done?
    ensures HandedOut(
              t, PayDust(dust, pageLocked, t, locked, idx).value, Shares(dust, pageLocked, locked, idx))
    decreases |locked| - idx
  {
    hide Share, Room, HandedOut, ShareTruncated, Transfer;
    HandedOutNothing(t);
    if idx < |locked| {
      var share, rest := Share(dust, locked[idx], pageLocked), Shares(dust, pageLocked, locked, idx + 1);
      SumFromBounds(locked, idx);
      ShareNotTruncated(dust, locked[idx], pageLocked);
      RoomForLess(t, share + rest, share);
      TransferHandsOut(t, share);
      var t1 := if share > 0 then Transfer(t, share).value else t;
      PayDust1(dust, pageLocked, t, t1, locked, idx, share);
      HandedOutTwice(t, t1, t1, share, rest);
      PayDustHandsOut(dust, pageLocked, t1, locked, idx + 1);
      HandedOutTwice(t, t1, PayDust(dust, pageLocked, t1, locked, idx + 1).value, share, rest);
    }
  }

  /** One round of the dust loop. */
  lemma PayDust1(
      dust: U64, pageLocked: U64, t: Totals, t1: Totals, locked: seq<U64>, idx: nat, share: U64)
    requires 0 < pageLocked && idx < |locked| && share == ShareTruncated(dust, locked[idx], pageLocked)
    requires if share > 0 then Transfer(t, share) == Done(t1) else t1 == t
    ensures PayDust(dust, pageLocked, t, locked, idx) == PayDust(dust, pageLocked, t1, locked, idx + 1)
  {
  }

  /** Handing out part of the carried dust and carrying the rest on. */
  lemma CarriedDustSettles(dust: U64, carried: U64, t: Totals, locked: seq<U64>, total: U64)
    requires dust <= carried && Sum(locked) <= total && Room(t, carried)
    ensures var r := PayCarriedDust(dust, carried, t, locked);
            && r.Done? && r.value.paid == t.paid
            && r.value.treasury + r.value.distributed == t.treasury + t.distributed
            && t.distributed <= r.value.distributed
            && r.value.distributed + r.value.pageDust <= t.distributed + t.pageDust + carried
            && r.value.pageDistributed - t.pageDistributed == r.value.distributed - t.distributed
  {
    hide PayDust, Shares;
    if dust > 0 {
      var pageLocked := Sum(locked);
      SumIsSumFrom(locked, 0);
      assert locked[0..] == locked;
      if pageLocked > 0 {
        SharesBounded(dust, pageLocked, locked, 0);
        CancelLe(Shares(dust, pageLocked, locked, 0), dust, pageLocked);
        PayDustHandsOut(dust, pageLocked, t, locked, 0);
      }
    }
  }

  // ----- A whole page -----

  /** What has been paid and carried stays within the pool's proportion of what has been processed. */
  ghost predicate WithinPool(spent: nat, total: nat, pool: nat, processed: nat) {
    spent * total <= pool * processed && (total == 0 ==> spent == 0)
  }

  lemma PoolGrows(spent: nat, more: nat, total: nat, pool: nat, processed: nat, page: nat)
    requires WithinPool(spent, total, pool, processed) && more * total <= pool * page
    requires total == 0 ==> more == 0
    ensures WithinPool(spent + more, total, pool, processed + page)
  {
    AddProducts(spent, more, total, pool, processed, page);
  }

  lemma PoolShrinks(spent: nat, less: nat, total: nat, pool: nat, processed: nat)
    requires WithinPool(spent, total, pool, processed) && less <= spent
    ensures WithinPool(less, total, pool, processed)
  {
    MulMono(less, spent, total);
  }

  /** Once the processed amounts are within the total, so is what was spent within the pool. */
  lemma SpentAtMostPool(spent: nat, total: nat, pool: nat, processed: nat)
    requires WithinPool(spent, total, pool, processed) && processed <= total
    ensures spent <= pool
  {
    if total > 0 {
      MulMono(processed, total, pool);
      assert spent * total <= pool * total;
      CancelLe(spent, pool, total);
    }
  }

  lemma DustAtMostCarried(policy: Policy, carried: U64, locked: seq<U64>, total: U64)
    requires Sum(locked) <= total
    ensures DustForPage(policy, carried, locked, total).Ok?
    ensures DustForPage(policy, carried, locked, total).value <= carried
  {
    hide ShareTruncated;
    if carried >= policy.minPayout && total > 0 {
      ShareNotTruncated(carried, Sum(locked), total);
    }
  }

  /** A page is never short of funds; what it pays and carries is what was carried plus at most its own
      shares of the pool, and every lamport that left the treasury was distributed. */
  lemma PayPageSettles(policy: Policy, o: Opened, call: Call, fee: U64, processed: nat)
    requires WellFormedCall(call) && o.toProcess <= |call.streams|
    requires InvestorFeeAmount(
               o.claimed, EligibleShareBps(policy, o.accounts.progress.totalLockedAll)) == Ok(fee)
    requires var p := o.accounts.progress;
             && WithinPool(p.distributed + p.carryOver, p.totalLockedAll, fee, processed)
             && fee <= o.accounts.treasury + p.distributed
    requires var locked := ReadLocked(call.streams[..o.toProcess], []);
             locked.Ok? ==> processed + Sum(locked.value) <= o.accounts.progress.totalLockedAll
    ensures var r := PayPage(policy, o, call);
            var p := o.accounts.progress;
            && !r.Unfunded?
            && (r.Done? ==>
                  var t := r.value.totals;
                  && WithinPool(
                       t.distributed + t.pageDust, p.totalLockedAll, fee, processed + Sum(r.value.locked))
                  && t.treasury + t.distributed == o.accounts.treasury + p.distributed
                  && p.distributed <= t.distributed
                  && t.pageDistributed == t.distributed - p.distributed)
  {
    hide PayAll, PayCarriedDust, DustForPage, WithinPool, Room, Settled, Shares, EligibleShareBps,
         InvestorFeeAmount, ReadLocked;
    var read := ReadLocked(call.streams[..o.toProcess], []);
    if read.Ok? {
      var p, locked := o.accounts.progress, read.value;
      var total := p.totalLockedAll;
      var shares := Shares(fee, total, locked, 0);
      SumIsSumFrom(locked, 0);
      assert locked[0..] == locked;
      SharesBounded(fee, total, locked, 0);
      PoolGrows(p.distributed + p.carryOver, shares, total, fee, processed, Sum(locked));
      SpentAtMostPool(p.distributed + p.carryOver + shares, total, fee, processed + Sum(locked));
      DustAtMostCarried(policy, p.carryOver, locked, total);
      var dust := DustForPage(policy, p.carryOver, locked, total).value;
      var start := Totals(p.distributed, o.accounts.treasury, 0, 0, p.paid);
      RoomAtStart(start, shares, p.carryOver, fee);
      PayAllSettles(policy, fee, total, start, call.pageStart, locked, 0);
      var main := PayAll(policy, fee, total, start, call.pageStart, locked, 0);
      if main.Done? {
        SettledRoom(start, main.value, shares, p.carryOver);
        CarriedDustSettles(dust, p.carryOver, main.value, locked, total);
        var t := PayCarriedDust(dust, p.carryOver, main.value, locked).value;
        SettledTotals(start, main.value, shares);
        PoolShrinks(
          p.distributed + p.carryOver + shares, t.distributed + t.pageDust, total, fee,
          processed + Sum(locked));
      }
    }
  }

  lemma RoomAtStart(t: Totals, shares: nat, carried: nat, fee: U64)
    requires t.distributed + carried + shares <= fee <= t.treasury + t.distributed
    requires t.pageDust == 0 == t.pageDistributed
    ensures Room(t, shares + carried) && Room(t, shares)
  {
  }

  lemma SettledTotals(t: Totals, t': Totals, promised: nat)
    requires Settled(t, t', promised)
    ensures t'.distributed + t'.pageDust == t.distributed + t.pageDust + promised
    ensures t'.treasury + t'.distributed == t.treasury + t.distributed
    ensures t.distributed <= t'.distributed
    ensures t'.pageDistributed - t.pageDistributed == t'.distributed - t.distributed
  {
  }
}

/** The progress account of the daily distribution: opening and closing a day, and which investors have
    been paid in it. */
module Progress {
  import opened Checked

  const SECONDS_PER_DAY: int := 86_400
  const BITMAP_BYTES: nat := 256
  const MAX_TRACKED: nat := 2048

  type I64 = x: int | -0x8000_0000_0000_0000 <= x < 0x8000_0000_0000_0000

  /** A plain `i64` operator in a build with overflow checks. */
  function PlainI64(x: int): Result<I64> {
    if -0x8000_0000_0000_0000 <= x < 0x8000_0000_0000_0000 then Ok(x) else Err(Panic)
  }

  /** The account as a value; `paid` is the set of investors whose bit is set. */
  datatype ProgressData = ProgressData(
    lastDistributionTs: I64,
    distributed: U64,
    carryOver: U64,
    cursor: U32,
    dayCompleted: bool,
    totalClaimed: U64,
    totalDistributions: U64,
    totalInvestorDistributed: U64,
    totalCreatorDistributed: U64,
    totalLockedAll: U64,
    persistentCarryOver: U64,
    paid: set<nat>)

  /** The account `handle_setup_policy` creates. */
  const NEW_PROGRESS := ProgressData(0, 0, 0, 0, true, 0, 0, 0, 0, 0, 0, {})

  function SaturatingAdd(x: U64, y: U64): U64 {
    Min(x + y, U64_MAX)
  }

  /** `can_distribute`, with the sum the handler also forms for its log. */
  function CanDistribute(p: ProgressData, now: I64): Result<bool> {
    var window: I64 :- PlainI64(p.lastDistributionTs + SECONDS_PER_DAY);
    Ok(!p.dayCompleted || now >= window)
  }

  /** `start_new_day` */
  function StartNewDay(p: ProgressData, now: I64, claimed: U64, totalLockedAll: U64): ProgressData {
    p.(
      lastDistributionTs := now, distributed := 0, carryOver := 0, cursor := 0, dayCompleted := false,
      totalClaimed := SaturatingAdd(claimed, p.persistentCarryOver), totalLockedAll := totalLockedAll,
      persistentCarryOver := 0, paid := {})
  }

  /** `complete_day` */
  function CompleteDay(p: ProgressData, creatorAmount: U64): Result<ProgressData> {
    var distributions: U64 :- Plain64(p.totalDistributions + 1);
    var creator: U64 :- Plain64(p.totalCreatorDistributed + creatorAmount);
    Ok(p.(
      dayCompleted := true, totalDistributions := distributions, totalCreatorDistributed := creator,
      cursor := 0, persistentCarryOver := p.carryOver, paid := {}))
  }

  // ----- The bitmap -----

  /** `1 << bit_idx` */
  function Mask(bit: nat): bv8
    requires bit < 8
  {
    1 << bit
  }

  predicate BitSet(byte: bv8, bit: nat)
    requires bit < 8
  {
    byte & Mask(bit) != 0
  }

  lemma MaskTable(bit: nat)
    requires bit < 8
    ensures Mask(bit) == [1, 2, 4, 8, 16, 32, 64, 128][bit]
  {
    assert Mask(0) == 1 && Mask(1) == 2 && Mask(2) == 4 && Mask(3) == 8;
    assert Mask(4) == 16 && Mask(5) == 32 && Mask(6) == 64 && Mask(7) == 128;
  }

  lemma MasksDisjoint(bit: nat, other: nat)
    requires bit < 8 && other < 8
    ensures Mask(bit) & Mask(other) != 0 <==> bit == other
  {
    hide Mask;
    MaskTable(bit);
    MaskTable(other);
  }

  lemma Distributes(x: bv8, y: bv8, m: bv8)
    ensures (x | y) & m != 0 <==> x & m != 0 || y & m != 0
  {
  }

  /** Setting one bit sets that bit and no other. */
  lemma SetBit(byte: bv8, bit: nat, other: nat)
    requires bit < 8 && other < 8
    ensures BitSet(byte | Mask(bit), other) <==> other == bit || BitSet(byte, other)
  {
    hide Mask;
    Distributes(byte, Mask(bit), Mask(other));
    MasksDisjoint(bit, other);
  }

  lemma NoBits(bit: nat)
    requires bit < 8
    ensures !BitSet(0, bit)
  {
  }

  class DistributionProgress {
    var lastDistributionTs: I64
    var currentDayDistributed: U64
    var currentDayCarryOver: U64
    var paginationCursor: U32
    var dayCompleted: bool
    var currentDayTotalClaimed: U64
    var totalDistributions: U64
    var totalInvestorDistributed: U64
    var totalCreatorDistributed: U64
    var currentDayTotalLockedAll: U64
    var persistentCarryOver: U64
    const paidInvestorBitmap: array<bv8>

    ghost predicate Valid() {
      paidInvestorBitmap.Length == BITMAP_BYTES
    }

    function IsPaid(investor: nat): bool
      requires Valid() && investor < MAX_TRACKED
      reads paidInvestorBitmap
    {
      BitSet(paidInvestorBitmap[investor / 8], investor % 8)
    }

    ghost function Paid(): set<nat>
      requires Valid()
      reads paidInvestorBitmap
    {
      set investor: nat | investor < MAX_TRACKED && IsPaid(investor)
    }

    ghost function View(): ProgressData
      requires Valid()
      reads this, paidInvestorBitmap
    {
      ProgressData(
        lastDistributionTs, currentDayDistributed, currentDayCarryOver, paginationCursor, dayCompleted,
        currentDayTotalClaimed, totalDistributions, totalInvestorDistributed, totalCreatorDistributed,
        currentDayTotalLockedAll, persistentCarryOver, Paid())
    }

    /** The account as `handle_setup_policy` leaves it. */
    constructor ()
      ensures Valid() && fresh(paidInvestorBitmap) && View() == NEW_PROGRESS
    {
      lastDistributionTs := 0;
      currentDayDistributed, currentDayCarryOver, paginationCursor, dayCompleted := 0, 0, 0, true;
      currentDayTotalClaimed, totalDistributions, totalInvestorDistributed := 0, 0, 0;
      totalCreatorDistributed, currentDayTotalLockedAll, persistentCarryOver := 0, 0, 0;
      paidInvestorBitmap := new bv8[BITMAP_BYTES](i => 0);
      new;
      forall investor: nat | investor < MAX_TRACKED ensures !IsPaid(investor) {
        NoBits(investor % 8);
      }
    }

    method ResetBitmap()
      requires Valid()
      modifies paidInvestorBitmap
      ensures Paid() == {}
    {
      for i := 0 to BITMAP_BYTES
        invariant forall k :: 0 <= k < i ==> paidInvestorBitmap[k] == 0
      {
        paidInvestorBitmap[i] := 0;
      }
      forall investor: nat | investor < MAX_TRACKED ensures !IsPaid(investor) {
        NoBits(investor % 8);
      }
    }

    method BeginDay(currentTimestamp: I64, claimed: U64, totalLockedAll: U64)
      requires Valid()
      modifies this, paidInvestorBitmap
      ensures View() == StartNewDay(old(View()), currentTimestamp, claimed, totalLockedAll)
    {
      lastDistributionTs := currentTimestamp;
      currentDayDistributed := 0;
      currentDayCarryOver := 0;
      paginationCursor := 0;
      dayCompleted := false;
      currentDayTotalClaimed := SaturatingAdd(claimed, persistentCarryOver);
      currentDayTotalLockedAll := totalLockedAll;
      persistentCarryOver := 0;
      ResetBitmap();
    }

    method FinishDay(creatorAmount: U64) returns (r: Result<Unit>)
      requires Valid()
      modifies this, paidInvestorBitmap
      ensures match CompleteDay(old(View()), creatorAmount)
              case Ok(p) => r.Ok? && View() == p
              case Err(error) => r == Err(error)
    {
      dayCompleted := true;
      totalDistributions :- Plain64(totalDistributions + 1);
      totalCreatorDistributed :- Plain64(totalCreatorDistributed + creatorAmount);
      paginationCursor := 0;
      persistentCarryOver := currentDayCarryOver;
      ResetBitmap();
      return Ok(Unit);
    }

    /** `is_investor_paid`; an investor beyond the bitmap counts as not paid. */
    method IsInvestorPaid(investor: nat) returns (paid: bool)
      requires Valid()
      ensures paid <==> investor in Paid()
    {
      if investor / 8 >= paidInvestorBitmap.Length {
        return false;
      }
      return BitSet(paidInvestorBitmap[investor / 8], investor % 8);
    }

    /** `mark_investor_paid`; beyond the bitmap it fails. */
    method MarkInvestorPaid(investor: nat) returns (r: Result<Unit>)
      requires Valid()
      modifies paidInvestorBitmap
      ensures r == if investor < MAX_TRACKED then Ok(Unit) else Err(InvalidPagination)
      ensures r.Ok? ==> Paid() == old(Paid()) + {investor}
    {
      if investor / 8 >= paidInvestorBitmap.Length {
        return Err(InvalidPagination);
      }
      var byte, bit := investor / 8, investor % 8;
      paidInvestorBitmap[byte] := paidInvestorBitmap[byte] | Mask(bit);
      forall other: nat | other < MAX_TRACKED
        ensures IsPaid(other) <==> other == investor || old(IsPaid(other))
      {
        SetBit(old(paidInvestorBitmap[byte]), bit, other % 8);
      }
      return Ok(Unit);
    }
  }
}

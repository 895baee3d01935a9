/** Vested liquidity and the vesting accounts behind it stay in step. */
module VestingsKept {
  import opened Checked
  import opened PoolState
  import opened Positions
  import opened Vestings
  import opened Instructions
  import opened Sums
  import opened Ledger
  import opened Balance

  type VestingSlots = seq<Option<VestingData>>

  // ----- Steps that touch no vesting -----

  lemma KeepVested(positions: Slots, vestings: VestingSlots, i: nat, slot: Option<PositionData>)
    requires i < |positions| && VestedIn(slot) == VestedIn(positions[i])
    requires VestedAgrees(positions, vestings)
    ensures VestedAgrees(positions[i := slot], vestings)
  {
  }

  lemma LaterOpen(vestings: VestingSlots, positions: nat, more: nat, point: U64, later: U64)
    requires VestingsOpen(vestings, positions, point) && point <= later && positions <= more
    ensures VestingsOpen(vestings, more, later)
  {
    forall k | 0 <= k < |vestings| && vestings[k].Some? ensures Lags(vestings[k].value, later) {
      MaxUnlockedMonotone(vestings[k].value, point, later);
    }
  }

  lemma {:induction false} NoVestings(vestings: VestingSlots, position: nat)
    requires forall k :: 0 <= k < |vestings| && vestings[k].Some? ==> vestings[k].value.position != position
    ensures Sum(vestings, VestingWeight(position)) == 0
  {
    if vestings != [] {
      forall k | 0 <= k < |vestings[1..]| && vestings[1..][k].Some?
        ensures vestings[1..][k].value.position != position
      {
        assert vestings[1..][k] == vestings[k + 1];
      }
      NoVestings(vestings[1..], position);
    }
  }

  lemma OpenKeepsVested(positions: Slots, vestings: VestingSlots, q: PositionData, point: U64)
    requires VestedAgrees(positions, vestings) && VestingsOpen(vestings, |positions|, point)
    requires q.vestedLiquidity == 0
    ensures VestedAgrees(positions + [Some(q)], vestings)
  {
    NoVestings(vestings, |positions|);
  }

  // ----- Locking -----

  lemma LockOpens(
      q: PositionData, i: nat, schedule: VestingParameters, point: U64, maxDuration: U64)
    requires Instructions.LockPosition(q, i, schedule, point, maxDuration).Ok?
    ensures var r := Instructions.LockPosition(q, i, schedule, point, maxDuration).value;
            && Lags(r.vesting, point) && 0 < Unreleased(r.vesting) && r.vesting.position == i
            && r.position.vestedLiquidity == q.vestedLiquidity + Unreleased(r.vesting)
            && SameAccounts(q, r.position) && Liquidity(r.position) == Liquidity(q)
            && r.position.permanentLockedLiquidity == q.permanentLockedLiquidity
  {
    hide ValidateParameters, MaxUnlocked;
    InitializeWellFormed(i, schedule, point, maxDuration);
  }

  lemma LockKeepsVested(
      positions: Slots, vestings: VestingSlots, i: nat, q': PositionData, v: VestingData, point: U64)
    requires i < |positions| && positions[i].Some?
    requires VestedAgrees(positions, vestings) && VestingsOpen(vestings, |positions|, point)
    requires Lags(v, point) && 0 < Unreleased(v) && v.position == i
    requires q'.vestedLiquidity == positions[i].value.vestedLiquidity + Unreleased(v)
    ensures VestedAgrees(positions[i := Some(q')], vestings + [Some(v)])
    ensures VestingsOpen(vestings + [Some(v)], |positions|, point)
  {
    hide Unreleased, Lags;
    var after := vestings + [Some(v)];
    forall j | 0 <= j < |positions|
      ensures VestedIn(positions[i := Some(q')][j]) == Sum(after, VestingWeight(j))
    {
      SumAppend(vestings, Some(v), VestingWeight(j));
    }
  }

  // ----- Refreshing -----

  /** One vesting of position `i` refreshed: the position gains what the vesting releases. */
  lemma RefreshOneMoves(q: PositionData, i: nat, v: VestingData, point: U64, now: U64)
    requires Lags(v, point) && 0 < Unreleased(v) && point <= now
    requires RefreshOne(q, i, v, now).Ok?
    ensures v.position == i
    ensures var (q', slot) := RefreshOne(q, i, v, now).value;
            && (slot.Some? ==>
                  Lags(slot.value, now) && 0 < Unreleased(slot.value) && slot.value.position == i)
            && q'.vestedLiquidity == q.vestedLiquidity - Unreleased(v)
                                     + (if slot.Some? then Unreleased(slot.value) else 0)
            && SameAccounts(q, q') && Liquidity(q') == Liquidity(q)
            && q'.permanentLockedLiquidity == q.permanentLockedLiquidity
  {
    hide MaxUnlocked;
    ReleaseExact(v, point, now);
  }

  lemma RefreshOneKeeps(
      positions: Slots, vestings: VestingSlots, i: nat, slot: nat, now: U64)
    requires i < |positions| && positions[i].Some? && slot < |vestings| && vestings[slot].Some?
    requires VestedAgrees(positions, vestings) && VestingsOpen(vestings, |positions|, now)
    requires RefreshOne(positions[i].value, i, vestings[slot].value, now).Ok?
    ensures var (q', v') := RefreshOne(positions[i].value, i, vestings[slot].value, now).value;
            && VestedAgrees(positions[i := Some(q')], vestings[slot := v'])
            && VestingsOpen(vestings[slot := v'], |positions|, now)
            && SameAccounts(positions[i].value, q') && Liquidity(q') == Liquidity(positions[i].value)
            && q'.permanentLockedLiquidity == positions[i].value.permanentLockedLiquidity
  {
    hide Unreleased, Lags, RefreshOne;
    var (q', v') := RefreshOne(positions[i].value, i, vestings[slot].value, now).value;
    RefreshOneMoves(positions[i].value, i, vestings[slot].value, now, now);
    forall j | 0 <= j < |positions|
      ensures VestedIn(positions[i := Some(q')][j]) == Sum(vestings[slot := v'], VestingWeight(j))
    {
      SumReplace(vestings, slot, v', VestingWeight(j));
    }
  }

  /** The whole loop. */
  lemma {:induction false} RefreshKeeps(
      positions: Slots, vestings: VestingSlots, i: nat, slots: seq<nat>, now: U64)
    requires i < |positions| && positions[i].Some?
    requires VestedAgrees(positions, vestings) && VestingsOpen(vestings, |positions|, now)
    requires Instructions.RefreshVesting(positions[i].value, i, vestings, slots, now).Ok?
    ensures var q := positions[i].value;
            var r := Instructions.RefreshVesting(q, i, vestings, slots, now).value;
            && VestedAgrees(positions[i := Some(r.position)], r.vestings)
            && VestingsOpen(r.vestings, |positions|, now)
            && SameAccounts(q, r.position) && Liquidity(r.position) == Liquidity(q)
            && r.position.permanentLockedLiquidity == q.permanentLockedLiquidity
    decreases |slots|
  {
    hide RefreshOne, VestedAgrees, VestingsOpen;
    var q := positions[i].value;
    if slots == [] {
      assert positions[i := Some(q)] == positions;
    } else {
      RefreshOneKeeps(positions, vestings, i, slots[0], now);
      var (q', v') := RefreshOne(q, i, vestings[slots[0]].value, now).value;
      RefreshKeeps(positions[i := Some(q')], vestings[slots[0] := v'], i, slots[1..], now);
      var r := Instructions.RefreshVesting(q, i, vestings, slots, now).value;
      assert positions[i := Some(q')][i := Some(r.position)] == positions[i := Some(r.position)];
    }
  }

  // ----- Refreshing never fails -----

  lemma UnreleasedWeight(vestings: VestingSlots, slot: nat, positions: nat, point: U64)
    requires slot < |vestings| && vestings[slot].Some? && VestingsOpen(vestings, positions, point)
    ensures Unreleased(vestings[slot].value)
            <= Sum(vestings, VestingWeight(vestings[slot].value.position))
  {
    hide Lags, Unreleased;
    var f := VestingWeight(vestings[slot].value.position);
    forall k | 0 <= k < |vestings| ensures 0 <= Weight(vestings[k], f) {
    }
    SumCovers(vestings, f, slot);
  }

  lemma RefreshOneDefined(
      positions: Slots, vestings: VestingSlots, i: nat, slot: nat, now: U64)
    requires i < |positions| && positions[i].Some? && slot < |vestings| && vestings[slot].Some?
    requires vestings[slot].value.position == i && Liquidity(positions[i].value) < TWO_128
    requires VestedAgrees(positions, vestings) && VestingsOpen(vestings, |positions|, now)
    ensures RefreshOne(positions[i].value, i, vestings[slot].value, now).Ok?
  {
    hide MaxUnlocked;
    var v := vestings[slot].value;
    UnreleasedWeight(vestings, slot, |positions|, now);
    assert VestedIn(positions[i]) == Sum(vestings, VestingWeight(i));
    ReleaseExact(v, now, now);
  }

  ghost predicate Distinct(slots: seq<nat>) {
    forall x, y :: 0 <= x < y < |slots| ==> slots[x] != slots[y]
  }

  ghost predicate OpenFor(vestings: VestingSlots, i: nat, slots: seq<nat>) {
    forall x :: 0 <= x < |slots| ==>
      slots[x] < |vestings| && vestings[slots[x]].Some? && vestings[slots[x]].value.position == i
  }

  /** Refreshing any open vestings of a position, each once, never fails. */
  lemma {:induction false} RefreshDefined(
      positions: Slots, vestings: VestingSlots, i: nat, slots: seq<nat>, now: U64)
    requires i < |positions| && positions[i].Some? && Liquidity(positions[i].value) < TWO_128
    requires VestedAgrees(positions, vestings) && VestingsOpen(vestings, |positions|, now)
    requires Distinct(slots) && OpenFor(vestings, i, slots)
    ensures Instructions.RefreshVesting(positions[i].value, i, vestings, slots, now).Ok?
    decreases |slots|
  {
    hide RefreshOne, VestedAgrees, VestingsOpen;
    if slots != [] {
      var q := positions[i].value;
      RefreshOneDefined(positions, vestings, i, slots[0], now);
      RefreshOneKeeps(positions, vestings, i, slots[0], now);
      var (q', v') := RefreshOne(q, i, vestings[slots[0]].value, now).value;
      RefreshDefined(positions[i := Some(q')], vestings[slots[0] := v'], i, slots[1..], now);
    }
  }

  // ----- What a refresh releases -----

  /** An account before and after it was refreshed: it has released what its lock promises by `now`, and
      is closed exactly when that is everything. */
  ghost predicate ReleasedBy(v: VestingData, after: Option<VestingData>, now: U64) {
    TotalLock(v).Ok? &&
    match after
    case None => UnlockedBy(v, now, TotalLock(v).value)
    case Some(v') =>
      && v' == v.(totalReleasedLiquidity := v'.totalReleasedLiquidity)
      && UnlockedBy(v, now, v'.totalReleasedLiquidity)
      && v'.totalReleasedLiquidity != TotalLock(v).value
  }

  /** The position gains as unlocked liquidity exactly what the account releases. */
  lemma RefreshOneReleases(q: PositionData, owner: nat, v: VestingData, clock: U64, now: U64)
    requires Lags(v, clock) && clock <= now && RefreshOne(q, owner, v, now).Ok?
    ensures var (q', after) := RefreshOne(q, owner, v, now).value;
            var total := if after.Some? then after.value.totalReleasedLiquidity else TotalLock(v).value;
            && ReleasedBy(v, after, now) && v.position == owner
            && q'.unlockedLiquidity == q.unlockedLiquidity + (total - v.totalReleasedLiquidity)
            && q'.vestedLiquidity == q.vestedLiquidity - (total - v.totalReleasedLiquidity)
  {
    hide MaxUnlocked, UnlockedBy;
    ReleaseExact(v, clock, now);
    MaxUnlockedByPeriod(v, now);
  }

  lemma ReleasedLater(v: VestingData, v': VestingData, after: Option<VestingData>, now: U64)
    requires v' == v.(totalReleasedLiquidity := v'.totalReleasedLiquidity) && ReleasedBy(v', after, now)
    ensures ReleasedBy(v, after, now)
  {
    hide UnlockedBy;
    SamePromise(v, v', now, TotalLock(v').value);
    if after.Some? {
      SamePromise(v, v', now, after.value.totalReleasedLiquidity);
    }
  }

  lemma SamePromise(v: VestingData, v': VestingData, point: int, unlocked: int)
    requires v' == v.(totalReleasedLiquidity := v'.totalReleasedLiquidity)
    ensures UnlockedBy(v', point, unlocked) == UnlockedBy(v, point, unlocked)
  {
    assert forall k: nat :: AfterPeriods(v', k) == AfterPeriods(v, k);
  }

  /** After a refresh every account that was named has released what its lock promises by then, and every
      other is as it was. */
  lemma {:induction false} RefreshReleases(
      q: PositionData, owner: nat, vestings: VestingSlots, slots: seq<nat>, positions: nat, now: U64)
    requires VestingsOpen(vestings, positions, now)
    requires Instructions.RefreshVesting(q, owner, vestings, slots, now).Ok?
    ensures var after := Instructions.RefreshVesting(q, owner, vestings, slots, now).value.vestings;
            && |after| == |vestings|
            && forall k :: 0 <= k < |vestings| ==>
                 if k in slots then vestings[k].Some? && ReleasedBy(vestings[k].value, after[k], now)
                 else after[k] == vestings[k]
    decreases |slots|
  {
    hide RefreshOne, ReleasedBy, Lags;
    if slots != [] {
      var slot := slots[0];
      var v := vestings[slot].value;
      RefreshOneReleases(q, owner, v, now, now);
      RefreshOneMoves(q, owner, v, now, now);
      var (q1, v1) := RefreshOne(q, owner, v, now).value;
      var vestings1 := vestings[slot := v1];
      assert VestingsOpen(vestings1, positions, now);
      RefreshReleases(q1, owner, vestings1, slots[1..], positions, now);
      var after := Instructions.RefreshVesting(q1, owner, vestings1, slots[1..], now).value.vestings;
      assert Instructions.RefreshVesting(q, owner, vestings, slots, now).value.vestings == after;
      assert slots == [slot] + slots[1..];
      forall k | 0 <= k < |vestings|
        ensures if k in slots then vestings[k].Some? && ReleasedBy(vestings[k].value, after[k], now)
                else after[k] == vestings[k]
      {
        assert k in slots <==> k == slot || k in slots[1..];
        if k == slot && k in slots[1..] {
          ReleasedOnce(v, v1, now);
          ReleasedLater(v, v1.value, after[k], now);
        }
      }
    }
  }

  lemma ReleasedOnce(v: VestingData, after: Option<VestingData>, now: U64)
    requires ReleasedBy(v, after, now) && after.Some?
    ensures after.value == v.(totalReleasedLiquidity := after.value.totalReleasedLiquidity)
  {
  }
}

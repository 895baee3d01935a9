/** Vested liquidity: the unlock schedule and its release accounting. */
module Vestings {
  import opened Checked
  import opened Division

  datatype VestingData = VestingData(
    position: nat,
    cliffPoint: U64,
    periodFrequency: U64,
    cliffUnlockLiquidity: U128,
    liquidityPerPeriod: U128,
    totalReleasedLiquidity: U128,
    numberOfPeriod: U16)

  /** `get_total_lock_amount` */
  function TotalLockAmount(cliffUnlock: U128, perPeriod: U128, numberOfPeriod: U16): Result<U128> {
    var product: U128 :- Fit128(perPeriod * numberOfPeriod);
    Fit128(cliffUnlock + product)
  }

  function TotalLock(v: VestingData): Result<U128> {
    TotalLockAmount(v.cliffUnlockLiquidity, v.liquidityPerPeriod, v.numberOfPeriod)
  }

  /** `get_max_unlocked_liquidity` */
  function MaxUnlocked(v: VestingData, currentPoint: U64): Result<U128> {
    if currentPoint < v.cliffPoint then
      Ok(0)
    else if v.periodFrequency == 0 then
      Ok(v.cliffUnlockLiquidity)
    else
      var period := Min(FloorDiv(currentPoint - v.cliffPoint, v.periodFrequency), v.numberOfPeriod);
      var product: U128 :- Fit128(period * v.liquidityPerPeriod);
      Fit128(v.cliffUnlockLiquidity + product)
  }

  /** `get_new_release_liquidity` */
  function NewRelease(v: VestingData, currentPoint: U64): Result<U128> {
    var unlocked: U128 :- MaxUnlocked(v, currentPoint);
    Fit128(unlocked - v.totalReleasedLiquidity)
  }

  /** `done` */
  function Done(v: VestingData): Result<bool> {
    var total: U128 :- TotalLock(v);
    Ok(v.totalReleasedLiquidity == total)
  }

  datatype VestingParameters = VestingParameters(
    cliffPoint: Option<U64>,
    periodFrequency: U64,
    cliffUnlockLiquidity: U128,
    liquidityPerPeriod: U128,
    numberOfPeriod: U16)

  function CliffPoint(p: VestingParameters, currentPoint: U64): U64 {
    if p.cliffPoint.Some? then p.cliffPoint.value else currentPoint
  }

  function ParametersTotal(p: VestingParameters): Result<U128> {
    TotalLockAmount(p.cliffUnlockLiquidity, p.liquidityPerPeriod, p.numberOfPeriod)
  }

  /** `VestingParameters::validate` */
  function ValidateParameters(p: VestingParameters, currentPoint: U64, maxDuration: U64): Result<Unit> {
    var cliffPoint := CliffPoint(p, currentPoint);
    var _ :- Require(currentPoint <= cliffPoint, InvalidVestingInfo);
    var _ :- Require(cliffPoint == currentPoint ==> p.numberOfPeriod > 0, InvalidVestingInfo);
    var _ :- Require(
      p.numberOfPeriod > 0 ==> p.periodFrequency > 0 && p.liquidityPerPeriod > 0,
      InvalidVestingInfo);
    var periods: U64 :- Fit64(p.periodFrequency * p.numberOfPeriod);
    var duration: U64 :- Fit64(cliffPoint - currentPoint + periods);
    var _ :- Require(duration <= maxDuration, InvalidVestingInfo);
    var total: U128 :- ParametersTotal(p);
    Require(total > 0, InvalidVestingInfo)
  }

  /** `Vesting::initialize` on a fresh account. */
  function Initialize(position: nat, p: VestingParameters, cliffPoint: U64): VestingData {
    VestingData(
      position, cliffPoint, p.periodFrequency, p.cliffUnlockLiquidity, p.liquidityPerPeriod, 0,
      p.numberOfPeriod)
  }

  /** One refresh of one vesting: the amount released and the vesting afterwards. */
  function Release(v: VestingData, currentPoint: U64): Result<(U128, VestingData)> {
    var released: U128 :- NewRelease(v, currentPoint);
    if released > 0 then
      Ok((released, v.(totalReleasedLiquidity := v.totalReleasedLiquidity + released)))
    else
      Ok((0, v))
  }

  // ----- What the schedule guarantees -----

  /** What validation at lock time leaves true of a vesting forever. */
  ghost predicate WellFormed(v: VestingData) {
    && TotalLock(v).Ok? && TotalLock(v).value > 0
    && (v.numberOfPeriod > 0 ==> v.periodFrequency > 0)
  }

  /** The first point at which everything is unlocked. */
  ghost function EndPoint(v: VestingData): int {
    v.cliffPoint + v.periodFrequency * v.numberOfPeriod
  }

  lemma InitializeWellFormed(position: nat, p: VestingParameters, currentPoint: U64, maxDuration: U64)
    requires ValidateParameters(p, currentPoint, maxDuration).Ok?
    ensures ParametersTotal(p).Ok?
    ensures var v := Initialize(position, p, CliffPoint(p, currentPoint));
            && WellFormed(v) && TotalLock(v) == ParametersTotal(p) && v.totalReleasedLiquidity == 0
            && currentPoint <= v.cliffPoint && EndPoint(v) <= currentPoint + maxDuration
            && (v.numberOfPeriod > 0 ==> v.liquidityPerPeriod > 0)
            && (v.numberOfPeriod == 0 ==> currentPoint < v.cliffPoint)
            && v.position == position && v.periodFrequency == p.periodFrequency
            && v.cliffPoint == (match p.cliffPoint case Some(point) => point case None => currentPoint)
            && v.cliffUnlockLiquidity == p.cliffUnlockLiquidity
            && v.liquidityPerPeriod == p.liquidityPerPeriod && v.numberOfPeriod == p.numberOfPeriod
            && MaxUnlocked(v, currentPoint).Ok?
  {
    MaxUnlockedInRange(Initialize(position, p, CliffPoint(p, currentPoint)), currentPoint);
  }

  lemma MaxUnlockedInRange(v: VestingData, point: U64)
    requires WellFormed(v)
    ensures MaxUnlocked(v, point).Ok? && MaxUnlocked(v, point).value <= TotalLock(v).value
  {
    if v.cliffPoint <= point && v.periodFrequency > 0 {
      var period := Min(FloorDiv(point - v.cliffPoint, v.periodFrequency), v.numberOfPeriod);
      MulMono(period, v.numberOfPeriod, v.liquidityPerPeriod);
      MulMono(0, period, v.liquidityPerPeriod);
    }
  }

  lemma MaxUnlockedMonotone(v: VestingData, earlier: U64, later: U64)
    requires WellFormed(v) && earlier <= later
    ensures MaxUnlocked(v, earlier).Ok? && MaxUnlocked(v, later).Ok?
    ensures MaxUnlocked(v, earlier).value <= MaxUnlocked(v, later).value
  {
    MaxUnlockedInRange(v, earlier);
    MaxUnlockedInRange(v, later);
    if v.cliffPoint <= later && v.periodFrequency > 0 {
      var f := v.periodFrequency;
      var q := FloorDiv(later - v.cliffPoint, f);
      MulMono(0, Min(q, v.numberOfPeriod), v.liquidityPerPeriod);
      if v.cliffPoint <= earlier {
        var p := FloorDiv(earlier - v.cliffPoint, f);
        FloorMono(earlier - v.cliffPoint, later - v.cliffPoint, f);
        MulMono(Min(p, v.numberOfPeriod), Min(q, v.numberOfPeriod), v.liquidityPerPeriod);
      }
    }
  }

  /** From the end point on everything is unlocked. */
  lemma UnlockedAtEnd(v: VestingData, point: U64)
    requires WellFormed(v) && EndPoint(v) <= point
    ensures MaxUnlocked(v, point) == TotalLock(v)
  {
    MulMono(0, v.periodFrequency, v.numberOfPeriod);
    if v.periodFrequency > 0 {
      assert v.numberOfPeriod * v.periodFrequency == v.periodFrequency * v.numberOfPeriod;
      FloorAtLeast(point - v.cliffPoint, v.periodFrequency, v.numberOfPeriod);
      assert v.numberOfPeriod * v.liquidityPerPeriod == v.liquidityPerPeriod * v.numberOfPeriod;
    }
  }

  /** `unlocked` is what the lock promises by `point`: nothing before the cliff, and from then on the
      cliff amount and as many periods as have passed, all of them from the end point on. */
  ghost predicate UnlockedBy(v: VestingData, point: int, unlocked: int) {
    && (point < v.cliffPoint ==> unlocked == 0)
    && (forall k: nat {:trigger AfterPeriods(v, k)} ::
          k < v.numberOfPeriod && AfterPeriods(v, k) <= point < AfterPeriods(v, k + 1) ==>
            unlocked == v.cliffUnlockLiquidity + k * v.liquidityPerPeriod)
    && (AfterPeriods(v, v.numberOfPeriod) <= point ==>
          unlocked == v.cliffUnlockLiquidity + v.numberOfPeriod * v.liquidityPerPeriod)
  }

  /** The point at which `k` periods have passed since the cliff. */
  ghost function AfterPeriods(v: VestingData, k: nat): int {
    v.cliffPoint + k * v.periodFrequency
  }

  /** At every point that is one amount and no other. */
  lemma UnlockedByUnique(v: VestingData, point: int, x: int, y: int)
    requires WellFormed(v) && UnlockedBy(v, point, x) && UnlockedBy(v, point, y)
    ensures x == y
  {
    if v.cliffPoint <= point < AfterPeriods(v, v.numberOfPeriod) {
      var k := PeriodOf(point - v.cliffPoint, v.periodFrequency, v.numberOfPeriod);
      assert AfterPeriods(v, k) <= point < AfterPeriods(v, k + 1);
    }
  }

  lemma PeriodOf(elapsed: nat, frequency: nat, periods: nat) returns (k: nat)
    requires elapsed < periods * frequency
    ensures k < periods && k * frequency <= elapsed < (k + 1) * frequency
  {
    if frequency == 0 {
      MulMono(frequency, 0, periods);
    }
    k := FloorDiv(elapsed, frequency);
    CancelLt(k, periods, frequency);
  }

  lemma QuotientIs(a: nat, d: nat, k: nat)
    requires k * d <= a < (k + 1) * d
    ensures d > 0 && FloorDiv(a, d) == k
  {
    if d == 0 {
      MulMono(0, d, k + 1);
    }
    FloorAtLeast(a, d, k);
    FloorBelow(a, d, k + 1);
  }

  lemma UnlockedAfterPeriods(v: VestingData, point: U64, k: nat)
    requires WellFormed(v) && k < v.numberOfPeriod
    requires AfterPeriods(v, k) <= point < AfterPeriods(v, k + 1)
    ensures MaxUnlocked(v, point).Ok?
    ensures MaxUnlocked(v, point).value == v.cliffUnlockLiquidity + k * v.liquidityPerPeriod
  {
    hide FloorDiv;
    MulMono(0, k, v.periodFrequency);
    QuotientIs(point - v.cliffPoint, v.periodFrequency, k);
    MaxUnlockedInRange(v, point);
  }

  lemma UnlockedAfterAll(v: VestingData, point: U64)
    requires WellFormed(v) && AfterPeriods(v, v.numberOfPeriod) <= point
    ensures MaxUnlocked(v, point).Ok?
    ensures MaxUnlocked(v, point).value == v.cliffUnlockLiquidity + v.numberOfPeriod * v.liquidityPerPeriod
  {
    hide MaxUnlocked;
    Commute(v.numberOfPeriod, v.periodFrequency);
    Commute(v.numberOfPeriod, v.liquidityPerPeriod);
    UnlockedAtEnd(v, point);
  }

  lemma Commute(x: int, y: int)
    ensures x * y == y * x
  {
  }

  /** The schedule unlocks what the lock promises, when it promises it. */
  lemma MaxUnlockedByPeriod(v: VestingData, point: U64)
    requires WellFormed(v)
    ensures MaxUnlocked(v, point).Ok? && UnlockedBy(v, point, MaxUnlocked(v, point).value)
  {
    hide AfterPeriods, FloorDiv;
    MaxUnlockedInRange(v, point);
    var unlocked := MaxUnlocked(v, point).value;
    forall k: nat | k < v.numberOfPeriod && AfterPeriods(v, k) <= point < AfterPeriods(v, k + 1)
      ensures unlocked == v.cliffUnlockLiquidity + k * v.liquidityPerPeriod
    {
      UnlockedAfterPeriods(v, point, k);
    }
    if AfterPeriods(v, v.numberOfPeriod) <= point {
      UnlockedAfterAll(v, point);
    }
  }

  /** The release ledger lags the schedule: nothing was ever released early. */
  ghost predicate Lags(v: VestingData, clock: U64) {
    && WellFormed(v)
    && MaxUnlocked(v, clock).Ok?
    && v.totalReleasedLiquidity <= MaxUnlocked(v, clock).value
  }

  /** On a clock that does not run backwards a refresh never fails; it releases exactly what the
      schedule has unlocked and not yet released. */
  lemma ReleaseExact(v: VestingData, clock: U64, now: U64)
    requires Lags(v, clock) && clock <= now
    ensures Release(v, now).Ok?
    ensures var (released, v') := Release(v, now).value;
            && v' == v.(totalReleasedLiquidity := v'.totalReleasedLiquidity)
            && v'.totalReleasedLiquidity == v.totalReleasedLiquidity + released
            && MaxUnlocked(v, now) == MaxUnlocked(v', now) == Ok(v'.totalReleasedLiquidity)
            && WellFormed(v') && Lags(v', now)
            && v'.totalReleasedLiquidity <= TotalLock(v').value
  {
    MaxUnlockedMonotone(v, clock, now);
    MaxUnlockedInRange(v, now);
  }

  ghost predicate AscendingFrom(start: U64, points: seq<U64>)
    decreases |points|
  {
    points == [] || (start <= points[0] && AscendingFrom(points[0], points[1..]))
  }

  /** Refreshing at each of the given points in turn. */
  ghost function RefreshAt(v: VestingData, points: seq<U64>): Result<VestingData>
    decreases |points|
  {
    if points == [] then
      Ok(v)
    else
      var r :- Release(v, points[0]);
      RefreshAt(r.1, points[1..])
  }

  ghost function LastPoint(start: U64, points: seq<U64>): U64
    decreases |points|
  {
    if points == [] then start else LastPoint(points[0], points[1..])
  }

  /** However refreshes are spaced, the total released after them is what the schedule unlocks at
      the last one; from the end point on it is the whole lock. */
  lemma {:induction false} RefreshesAddUp(v: VestingData, start: U64, points: seq<U64>)
    requires Lags(v, start) && AscendingFrom(start, points)
    ensures RefreshAt(v, points).Ok?
    ensures var v' := RefreshAt(v, points).value;
            var last := LastPoint(start, points);
            && v' == v.(totalReleasedLiquidity := v'.totalReleasedLiquidity)
            && Lags(v', last)
            && (points == [] ==> v' == v)
            && (points != [] ==> MaxUnlocked(v, last) == Ok(v'.totalReleasedLiquidity))
    decreases |points|
  {
    if points != [] {
      ReleaseExact(v, start, points[0]);
      var v1 := Release(v, points[0]).value.1;
      RefreshesAddUp(v1, points[0], points[1..]);
      SameSchedule(v, v1, LastPoint(start, points));
    }
  }

  lemma SameSchedule(v: VestingData, v': VestingData, point: U64)
    requires v' == v.(totalReleasedLiquidity := v'.totalReleasedLiquidity)
    ensures MaxUnlocked(v', point) == MaxUnlocked(v, point) && TotalLock(v') == TotalLock(v)
    ensures EndPoint(v') == EndPoint(v)
  {
  }

  /** Once the end point has passed, any spacing of refreshes has released everything. */
  lemma RefreshesComplete(v: VestingData, start: U64, points: seq<U64>)
    requires Lags(v, start) && AscendingFrom(start, points) && points != []
    requires EndPoint(v) <= LastPoint(start, points)
    ensures RefreshAt(v, points).Ok? && Done(RefreshAt(v, points).value) == Ok(true)
  {
    RefreshesAddUp(v, start, points);
    UnlockedAtEnd(v, LastPoint(start, points));
    SameSchedule(v, RefreshAt(v, points).value, start);
  }

  /** After any spacing of refreshes what has been released is what the lock promises by the last. */
  lemma RefreshesByPeriod(v: VestingData, start: U64, points: seq<U64>)
    requires Lags(v, start) && AscendingFrom(start, points) && points != []
    ensures RefreshAt(v, points).Ok?
    ensures UnlockedBy(
              v, LastPoint(start, points), RefreshAt(v, points).value.totalReleasedLiquidity)
  {
    hide UnlockedBy;
    RefreshesAddUp(v, start, points);
    MaxUnlockedByPeriod(v, LastPoint(start, points));
  }

  // ----- The account as the program updates it -----

  class Vesting {
    var isOpen: bool
    var position: nat
    var cliffPoint: U64
    var periodFrequency: U64
    var cliffUnlockLiquidity: U128
    var liquidityPerPeriod: U128
    var totalReleasedLiquidity: U128
    var numberOfPeriod: U16

    function View(): VestingData
      reads this
    {
      VestingData(
        position, cliffPoint, periodFrequency, cliffUnlockLiquidity, liquidityPerPeriod,
        totalReleasedLiquidity, numberOfPeriod)
    }

    /** Nothing is left of a closed account. */
    function Slot(): Option<VestingData>
      reads this
    {
      if isOpen then Some(View()) else None
    }

    /** `initialize` on an account allocated by the instruction. */
    constructor (position: nat, parameters: VestingParameters, cliffPoint: U64)
      ensures Slot() == Some(Initialize(position, parameters, cliffPoint))
    {
      isOpen := true;
      this.position := position;
      this.cliffPoint := cliffPoint;
      periodFrequency := parameters.periodFrequency;
      cliffUnlockLiquidity := parameters.cliffUnlockLiquidity;
      liquidityPerPeriod := parameters.liquidityPerPeriod;
      totalReleasedLiquidity := 0;
      numberOfPeriod := parameters.numberOfPeriod;
    }

    method AccumulateReleasedLiquidity(released: U128) returns (r: Result<Unit>)
      modifies this`totalReleasedLiquidity
      ensures match Fit128(old(totalReleasedLiquidity) + released)
              case Ok(total) => r.Ok? && View() == old(View()).(totalReleasedLiquidity := total)
              case Err(error) => r == Err(error)
    {
      totalReleasedLiquidity :- Fit128(totalReleasedLiquidity + released);
      return Ok(Unit);
    }

    method Close()
      modifies this`isOpen
      ensures Slot() == None && View() == old(View())
    {
      isOpen := false;
    }
  }
}

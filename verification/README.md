# A verified model of the cp-amm pool and the fee router

This project models two programs and proves properties of the models with Dafny.

**The constant product pool** (`programs/cp-amm`). A pool trades two tokens along a curve of Q64.64
square-root prices inside a price range. Positions share the liquidity, earn trading fees through
accumulators per unit of liquidity and rewards through two funded streams, and may lock liquidity for
a schedule or for good. The arithmetic rounds every token amount and every price against the trader.

**The fee router** (`programs/fee_router`). Once a day a permissionless crank claims the fees of one
position, shares them among investors in proportion to what each still has locked, page by page, and
gives the rest to the creator.

## How the model is laid out

*Machine integers.* `Checked` bounds every integer as the program does. An operation that the program
checks yields a `Result`; a failure aborts the transaction. Instructions that move tokens yield an
`Outcome`, whose third case, `Unfunded`, is the token program refusing a transfer that the paying vault
does not cover. Build-time overflow checks are on, so plain operators panic instead of wrapping.

*Arithmetic kernels.* `Division`, `UtilsMath`, `FeeMath`, `FeeMathBounds`, `FeeScheduler`, `RateLimiter`,
`TieredFee`, `RateLimiterProofs`, `Fees`, `Curve`, `DynamicFee`, `TradingFees`.

*Swap quotes.* `SwapQuotes` has the three quotes, `SwapProofs` shows them fair to the pool, `QuoteValues`
says what each comes to, `SwapAdjoint` shows exact-in and exact-out to undo each other, `PartialFills` says
when a partial fill charges more than it was offered, and `Receipts` shows that no sequence of swaps pays
for nothing. Quotes take the fee rate as a pair of functions of the amount, so what is proved for all rates
holds for the scheduler, the rate limiter and the dynamic fee alike.

*Accounts.* `Vestings`, `Rewards`, `Positions`, `Pools` and `Progress` each have an account as a value,
functions that say what an operation yields, lemmas about them, and a class whose methods update the
account in place as the program does. `Handlers` and `CrankHandler` have the instruction handlers
themselves, with their loops and their order of steps, each proved to do what the corresponding
function of `Instructions` or `Crank` says.

*The ledger.* `Ledger` is the state machine: one pool, any number of positions and vestings, two reward
streams, the vaults, nineteen kinds of step including plain transfers to all vaults, and two clocks that do
not run backwards. A pool starts from any of the three instructions that create one. `Invariant` is what
every reachable state satisfies; a state is reachable when it has every property that new pools have and
every step keeps, which `Runs.ReachableByRun` shows to mean that a run ends in it. `Sums` and `Balance`
handle sums over all positions; `BalanceKept`, `SplitKept`, `VestingsKept`, `Solvency` and `ClocksKept` take
the instructions one by one; `Safety` puts them together and `Runs` draws the conclusions over every run.
`Frames`, `Settlements` and `FeeAccrual` say what each step changes and hands over, `Liveness` and `Leaving`
what can be refused, and `LedgerExamples` has two runs that show what the program does not promise.

*The crank.* `RouterMath` and `Crank` have the formulas and one call; `CrankProofs` proves paging,
`CrankBooks` the accounting of a page, `RouterRuns` what holds over every run, `DailyCap` when a day
stays within its cap, and `DayEnd` that an open day can be closed. `RouterExamples` has two runs that show
what the crank does not promise.

## What is proved, in short

- Solvency over every run: each token vault holds the exact, unrounded reserve of the curve, the
  unclaimed protocol and partner fees, and everything owed to positions; reward vaults cover what is
  owed and promised. So no step is ever refused for lack of funds. The key is to read the reserves as
  receipts: the free part of a vault covers moving the price from its end of the range to where it is,
  and receipts chain along a path of prices.
- No free lunch over any sequence of swaps, of any mode, direction and fee, failed ones included.
- The ledgers of liquidity, permanent locks, vested liquidity, fees and rewards agree in every state.
- Exact-in and exact-out are adjoint, fees included, when the rate does not depend on the amount.
- The rate limiter's closed form is the sum of its tiers, and its quadratic inverse is well defined.
- The power ladder is never above the exact power and at most n units of 2^-64 below it; the integer
  square root is exact.
- In every reachable state the fees of a position can be brought up to date, its rewards whenever the
  streams of the pool can, and a claim of fees is refused exactly when the position's lifetime counter of
  claimed fees would leave 64 bits. Liquidity that is unlocked and worth a unit of a token can be removed
  exactly when the streams can be updated. No swap is aborted by the dynamic fee on a clock past the first
  65535 seconds of the epoch.
- Every instruction hands over to the unit what it should: deposits are the least and withdrawals the
  greatest amounts that are exact, a swap is charged the base fee and the fee for volatility up to the cap
  and credits the positions with it up to rounding, a funded reward promises all of the tokens but the
  roundings, and every limit its caller sets is met.
- Vesting releases exactly what the lock promises after each period. The releases are monotone, bounded, and
  independent of how refreshes are spaced.
- The investors' pool follows what is still locked. The crank visits the investors in order, pays nobody
  twice in its main loop, starts days at least 24 hours apart, stays within the day's pool, closes exactly,
  and always keeps the carried dust funded.

## What the code turns out to do

- `DailyCap.CapHoldsIff`: the dust loop does not look at the daily cap. A call leaves the day within its
  cap exactly when it has no dust to hand out, or when what was distributed, the shares that reach the
  minimum payout and the dust shares fit under the cap together. `RouterExamples.CapIsPassed` has a run of
  two pages that pays out 1000 lamports under a cap of zero.
- `RouterRuns.OnlySinglePageDaysStrandDust`: the first page of a day accounts for the fresh claim alone, so
  dust carried into a day is never handed out again when that page is called with fewer investors than a
  page or with a page for all of them. It is the only way dust is lost, and the amount is exact;
  `RouterExamples.DustIsStranded` has a run. The comments in `progress.rs` promise that carried dust is
  always redistributed; the model follows the code.
- `DailyCap.CallDistributes`: a page carries on the dust it did not offer, not the rounding of the shares of
  what it offered, although a comment in `crank_distribution.rs` says that the rounding stays carried. It is
  less than one lamport for each investor of the page (`DailyCap.DustRoundsDown`) and goes to the creator
  when the day closes; `RouterExamples.RoundingIsNotCarried` has a run.
- `RouterRuns.DayClosedEarlyIff`: the final page is meant to come when all investors have been processed,
  but any call that supplies fewer than a page of them closes the day. `RouterExamples.DayIsClosedEarly`
  has a run in which a call with no investors leaves one of two out.
- `PartialFills.PartialWithinOfferIff`: a partial fill computes its fee again for the part it consumes, and
  nothing checks the result against the offer. Under a rate limiter it can exceed it, by at most 6 units for
  every 10^9 offered and 17 more (`PartialExcessSmall`, `ExcessInUnits`); without one it never does.
  `LedgerExamples.PartialFillOvercharges` has an offer of 16 that is charged 18.
- `Liveness.StreamsUpdatableIff`: an accumulator of rewards never shrinks, and once it has no room in 256
  bits the pool can no longer add, remove or split liquidity or pay rewards. It takes almost no liquidity
  over a whole campaign of almost all of 2^64 tokens; `LedgerExamples.StreamsRunOut` has a run.
- `RateLimiterProofs.ValidatedIsSound`: a limiter with all fields zero never passes validation, because the
  cliff fee is compared with a largest fee of zero.

## Assumptions

- The clocks of successive instructions do not run backwards.
- For the accounting of the crank, a call that continues a day supplies at most one page of investors, and
  the locked amounts read in a day, which the program reads afresh on every page, add up to at most the
  total read on its first page (`RouterRuns.Consistent`). For the first page itself nothing is assumed.
- The claim of the fees and the reading of a stream account are inputs of a crank call and may fail.

## Model

| member | source | states |
|---|---|---|
| `UtilsMath.SqrtU256` | programs/cp-amm/src/math/utils_math.rs:78-100 | the bitwise loop returns exactly the floor square root of every 256-bit integer, never fails, and terminates |
| `UtilsMath.HalvingExact` | programs/cp-amm/src/math/utils_math.rs:89-98 | whenever the running result is halved it is even, so `checked_shr(1)`, which refuses to drop a one bit, never returns `None` |
| `UtilsMath.FloorSqrtUnique` | programs/cp-amm/src/math/utils_math.rs:78-100 | only one integer is the floor square root, so the loop and the reference function agree |
| `FeeMath.Pow` | programs/cp-amm/src/math/fee_math.rs:36-197 | the 19 unrolled rungs, the reciprocal for large bases and for negative exponents compute exactly the ladder that specifies them, failing exactly where it fails |
| `FeeMath.LowRungs` | programs/cp-amm/src/math/fee_math.rs:62-116 | the first third of the rungs, in place, equals that part of the ladder |
| `FeeMath.MiddleRungs` | programs/cp-amm/src/math/fee_math.rs:117-160 | the second third of the rungs equals that part of the ladder |
| `FeeMath.Rungs` | programs/cp-amm/src/math/fee_math.rs:36-197 | all rungs together equal the ladder over every exponent below the overflow bound |
| `FeeMathBounds.LadderError` | programs/cp-amm/src/math/fee_math.rs:62-190 | one pass of square-and-multiply loses at most one unit of 2^-64 for each factor it stands for |
| `FeeMathBounds.PowerError` | programs/cp-amm/src/math/fee_math.rs:36-197 | for a base below one and an exponent n a returned power is never above the exact power and at most n units of 2^-64 below it; the power is refused only when the exact one is itself within n units of zero |
| `FeeMathBounds.PowerThroughReciprocals` | programs/cp-amm/src/math/fee_math.rs:36-197 | bases from one on and negative exponents go through a reciprocal, rounded down, of the base, of the result or of both, and what is raised in between is as accurate as for a base below one |
| `FeeMathBounds.FeeInPeriodExact` | programs/cp-amm/src/math/fee_math.rs:13-34 | a returned exponential fee of a period is the exact floor of the decayed cliff fee, or one less; it is refused only when the power is |
| `FeeScheduler.ValidatedScheduleInRange` | programs/cp-amm/src/base_fee/fee_scheduler.rs:45-129 | a validated schedule never fails and at every point in time charges at most the cliff fee and at least the fee of its last period; an exponential one may charge one unit less than that |
| `FeeScheduler.ScheduledFee` | programs/cp-amm/src/base_fee/fee_scheduler.rs:45-84 | at every moment a validated schedule charges the cliff fee less one reduction for every period that has passed, or the cliff fee decayed as often, to the unit or one less; before activation the last period counts |
| `FeeScheduler.ScheduleWithinLimits` | programs/cp-amm/src/base_fee/fee_scheduler.rs:86-109 | a validated schedule stays between the least and the largest fee of the program, the least less one unit in the exponential mode |
| `FeeScheduler.DecayedFeeDecreases` | programs/cp-amm/src/base_fee/fee_scheduler.rs:45-66 | the exact exponential fee never rises from one period to a later one |
| `FeeScheduler.EarlyPeriodsDefined` | programs/cp-amm/src/math/fee_math.rs:13-34 | if the last period of an exponential schedule is defined, so is every earlier one |
| `TieredFee.ClosedFormIsSum` | programs/cp-amm/src/base_fee/fee_rate_limiter.rs:96-146 | the closed form of the rate limiter equals the sum, unit by unit, of the marginal rates of the tiers |
| `TieredFee.SumMonotone` | programs/cp-amm/src/base_fee/fee_rate_limiter.rs:23-33 | before rounding, a larger input never pays a smaller tiered fee |
| `TieredFee.SumSuperadditive` | programs/cp-amm/src/base_fee/fee_rate_limiter.rs:23-33 | before rounding, splitting a swap into two never costs more than the whole: the tiered fee is superadditive |
| `TieredFee.SumBounds` | programs/cp-amm/src/base_fee/fee_rate_limiter.rs:23-33 | the tiered fee lies between the cliff rate and the top rate on the whole input |
| `TieredFee.AverageRises` | programs/cp-amm/src/base_fee/fee_rate_limiter.rs:23-33 | before rounding, the average rate rises with the amount |
| `RateLimiterProofs.ValidatedIsSound` | programs/cp-amm/src/base_fee/fee_rate_limiter.rs:289-351 | what `validate` accepts: a positive increment, a positive reference amount, a cliff between the least and the largest fee, and a top rate of at most 50% |
| `RateLimiterProofs.MaxIndexIsLastTier` | programs/cp-amm/src/base_fee/fee_rate_limiter.rs:86-94 | the largest index is the last tier whose rate does not exceed the top rate |
| `RateLimiterProofs.NumeratorValue` | programs/cp-amm/src/base_fee/fee_rate_limiter.rs:96-149 | above the reference amount the fee numerator is the tiered fee over the input, rounded up; it never fails and is at most 100% |
| `RateLimiterProofs.ChargedFee` | programs/cp-amm/src/base_fee/fee_rate_limiter.rs:96-174 | the fee charged through the quantised numerator lies between the tiered fee and the tiered fee plus ceil((amount - 1) / 10^9) |
| `RateLimiterProofs.QuadraticRoot` | programs/cp-amm/src/base_fee/fee_rate_limiter.rs:196-233 | in the quadratic band the discriminant is not negative and the root lies between the reference amount and the end of the band; the amount it leaves never exceeds the one asked for |
| `RateLimiterProofs.QuadraticBand` | programs/cp-amm/src/base_fee/fee_rate_limiter.rs:177-284 | for every validated limiter and every excluded amount in the quadratic band the inverse finds a total, its subtraction never fails, and what is later charged from the returned numerator is at least that total |
| `RateLimiterProofs.LinearBand` | programs/cp-amm/src/base_fee/fee_rate_limiter.rs:236-284 | the same beyond the last tier, where the rate is constant |
| `RateLimiterProofs.QuadraticFits` | programs/cp-amm/src/base_fee/fee_rate_limiter.rs:196-233 | for a validated limiter and any amount no step of the quadratic formula leaves 256 bits: y and the sum it is taken from stay below 2^96, z below 2^160, y squared and 4xz below 2^192 |
| `RateLimiterProofs.BandEnd` | programs/cp-amm/src/base_fee/fee_rate_limiter.rs:151-167 | the last amount of the band is checked to fit 64 bits before it is used |
| `Fees.MaxFeeNumerator` | programs/cp-amm/src/constants.rs:133-139 | version 0 caps the fee at 50%, version 1 at 99%, and there is no other |
| `Fees.ExcludedFeeIsFloor` | programs/cp-amm/src/state/fee.rs:221-233 | up to 100% taking the fee off always succeeds, loses nothing, and leaves the floor of the other share |
| `Fees.IncludedFeeIsCeil` | programs/cp-amm/src/state/fee.rs:235-247 | the inverse is the ceiling of the grossed-up amount and fails only when that does not fit 64 bits |
| `Fees.FeeAdjoint` | programs/cp-amm/src/state/fee.rs:221-247 | the two directions are adjoint: paying x leaves at least y exactly when x is at least what the inverse asks for y |
| `Fees.SplitConserves` | programs/cp-amm/src/state/fee.rs:249-296 | the four parts of every split add up to the fee; without a referrer or partner their part is zero; percentages never make it fail |
| `Fees.SplitShares` | programs/cp-amm/src/state/fee.rs:249-296 | each part of a split is the floor of its own percentage: the protocol's of the fee, the referrer's of that, the partner's of what is left |
| `Fees.GetFeeMode` | programs/cp-amm/src/state/fee.rs:418-441 | the fee is on the input exactly for token B coming into a pool that collects token B only, otherwise on the output; such a pool never charges token A |
| `TradingFees.VariableFeeIs` | programs/cp-amm/src/state/fee.rs:390-407 | the fee for volatility is the squared accumulator times the control, scaled down and rounded up, and zero without a dynamic fee |
| `TradingFees.TradingFeeIs` | programs/cp-amm/src/state/fee.rs:136-193 | whichever way it is looked up, the rate of a swap is the base fee plus the fee for volatility, up to the cap of the pool version |
| `TradingFees.LimiterFee` | programs/cp-amm/src/base_fee/fee_rate_limiter.rs:60-149 | a limiter charges its tiers on token B coming in, from activation on for its duration, and the cliff fee at any other time and in the other direction |
| `TradingFees.ScheduleFee` | programs/cp-amm/src/base_fee/fee_scheduler.rs:45-84 | a pool with a schedule charges what it promises, whatever the amount and the direction |
| `QuoteValues.FromAmountInExact` | programs/cp-amm/src/state/pool.rs:659-780 | an exact input moves the price exactly as far as it reaches and is given the most the curve releases for that move |
| `QuoteValues.FromAmountOutExact` | programs/cp-amm/src/state/pool.rs:423-522 | an exact output moves the price to the first point that releases it and costs the least that covers the move |
| `QuoteValues.FromPartialExact` | programs/cp-amm/src/state/pool.rs:805-873 | a partial fill goes to the end of the range if the offer covers that, consuming the least that does and leaving the rest |
| `QuoteValues.ExactInputPriced` | programs/cp-amm/src/state/pool.rs:659-779 | an exact-input quote takes the rate for the amount, rounded up, off the input or off what the curve gives |
| `QuoteValues.ExactOutputPriced` | programs/cp-amm/src/state/pool.rs:423-522 | an exact-output quote puts the rate on the output or on the curve's input: the least gross amount that leaves the net one |
| `QuoteValues.PartialInputPriced` | programs/cp-amm/src/state/pool.rs:524-657 | a partial fill charges the rate on the whole offer if it consumes it, and otherwise the rate for the part consumed, put on that part |
| `Curve.WideProduct` | programs/cp-amm/src/curve.rs:50-104 | the 256-bit intermediate products of the curve never overflow |
| `Curve.DeltaARounding` | programs/cp-amm/src/curve.rs:33-67 | rounded up, the token A amount is the least that covers the exact move; rounded down, the greatest the exact move releases |
| `Curve.DeltaBRounding` | programs/cp-amm/src/curve.rs:69-104 | the same for token B |
| `Curve.PriceAfterInputA` | programs/cp-amm/src/curve.rs:175-192 | an input of token A moves the price exactly as far down as that input covers |
| `Curve.PriceAfterOutputA` | programs/cp-amm/src/curve.rs:194-224 | an output of token A moves the price up to the least price at which the curve releases it |
| `Curve.PriceAfterInputB` | programs/cp-amm/src/curve.rs:226-238 | an input of token B moves the price exactly as far up as that input covers |
| `Curve.PriceAfterOutputB` | programs/cp-amm/src/curve.rs:240-251 | an output of token B moves the price down to the greatest price at which the curve releases it |
| `SwapProofs.FromAmountInFair` | programs/cp-amm/src/state/pool.rs:875-920 | both exact-input moves stay in range, are paid at least the exact curve amount and release at most it |
| `SwapProofs.FromAmountOutFair` | programs/cp-amm/src/state/pool.rs:757-803 | both exact-output moves stay in range and charge at least the exact curve amount |
| `SwapProofs.FromPartialFair` | programs/cp-amm/src/state/pool.rs:805-873 | a partial fill consumes at most the offer and never leaves the range, although nothing checks it |
| `SwapProofs.PartialNeedsNoCheck` | programs/cp-amm/src/state/pool.rs:805-873 | below the largest useful input a partial fill is the exact-input move |
| `SwapProofs.ExactInputFair` | programs/cp-amm/src/state/pool.rs:659-755 | an exact-input quote: what is paid is the curve input plus the fees on it, what is received is the curve output less the fees on it |
| `SwapProofs.PartialInputFair` | programs/cp-amm/src/state/pool.rs:524-657 | the same for a partial fill, whose fee is recomputed on the part consumed |
| `SwapProofs.ExactOutputFair` | programs/cp-amm/src/state/pool.rs:423-522 | the same for an exact-output quote |
| `SwapProofs.QuoteFair` | programs/cp-amm/src/state/pool.rs:423-920 | every quote of every mode, direction, fee mode and fee rate is fair to the pool and ends inside the price range |
| `SwapProofs.PartialAgreesWithExact` | programs/cp-amm/src/state/pool.rs:524-657 | when the input after fees is below the largest useful input a partial fill is the exact-input quote |
| `SwapAdjoint.OutputThenInput` | programs/cp-amm/src/state/pool.rs:757-920 | offering the curve at least what an output costs yields at least that output |
| `SwapAdjoint.InputThenOutput` | programs/cp-amm/src/state/pool.rs:757-920 | asking the curve for at most what an input yields always succeeds and costs at most that input |
| `SwapAdjoint.FlatRate` | programs/cp-amm/src/state/fee.rs:155-193 | outside a rate limiter the fee rate is the same in both directions and for every amount |
| `SwapAdjoint.ChargesAdjoint` | programs/cp-amm/src/state/fee.rs:195-247 | with such a rate, charging and grossing up a fee are adjoint, splits included |
| `SwapAdjoint.ExactOutThenIn` | programs/cp-amm/src/state/pool.rs:423-522 | feeding the input of an exact-output quote to exact-input yields at least the requested output whenever that swap stays in range |
| `SwapAdjoint.ExactInThenOut` | programs/cp-amm/src/state/pool.rs:659-755 | exact-output of an exact-input result always succeeds and costs at most the original input |
| `SwapAdjoint.PartialChargesAtMostOffered` | programs/cp-amm/src/state/pool.rs:524-657 | with an amount-independent fee a partial fill never charges more than the offer |
| `PartialFills.InverseStandsFor` | programs/cp-amm/src/base_fee/fee_rate_limiter.rs:177-284 | the inverse of the limiter never overshoots: the numerator it returns stands for a total whose exact tiered fee it exceeds only by the roundings |
| `PartialFills.PartialWithinOfferIff` | programs/cp-amm/src/state/pool.rs:524-657 | whatever the fee rate, a partial fill charges at most the offer if and only if the offer, at the rate for the largest useful input, would still leave that input |
| `PartialFills.PartialExcessSmall` | programs/cp-amm/src/state/pool.rs:524-657 | with any base fee, dynamic fee and cap a partial fill exceeds the offer only under a rate limiter, and only by the roundings of its rate |
| `PartialFills.ExcessInUnits` | programs/cp-amm/src/state/pool.rs:524-657 | under the cap of the pools that are created, that excess is at most 6 units for every 10^9 offered and 17 more |
| `LedgerExamples.PartialFillOvercharges` | programs/cp-amm/src/instructions/swap/swap_partial_fill.rs:8-60 | a reachable pool and a partial fill that offers 16 and is charged 18 |
| `Receipts.SwapCovered` | programs/cp-amm/src/state/pool.rs:922-965 | what the vaults gain in a swap, less the fees they keep, covers the exact move of the curve in both tokens |
| `Receipts.SwapsCovered` | programs/cp-amm/src/state/pool.rs:423-920 | receipts add up over any sequence of swaps at fixed liquidity |
| `Receipts.NoFreeLunch` | programs/cp-amm/src/state/pool.rs:423-920 | after any sequence of swaps of any modes, directions and rates: if the pool did not gain one token it did not lose the other |
| `DynamicFee.DeltaBinIdFits` | programs/cp-amm/src/state/fee.rs:323-339 | between prices of the global range the bin distance never overflows |
| `DynamicFee.PreSwapBounded` | programs/cp-amm/src/state/pool.rs:1147-1154 | updating the references always succeeds and keeps the volatility bounded |
| `DynamicFee.PostSwapBounded` | programs/cp-amm/src/state/pool.rs:1156-1173 | updating the accumulator succeeds exactly when a reference price is set, and keeps it at most its maximum |
| `DynamicFee.SwapUpdatesDefined` | programs/cp-amm/src/state/pool.rs:1147-1173 | the dynamic part of a swap is aborted exactly when no reference price was ever set and the clock is within the filter period of the epoch, so never on a clock past 65535 seconds |
| `DynamicFee.VariableFeeBounded` | programs/cp-amm/src/state/fee.rs:390-407 | the `unwrap` of the square never panics and the variable fee fits 64 bits |
| `DynamicFee.BinDistance` | programs/cp-amm/src/state/fee.rs:323-339 | two prices are two units apart for every whole bin between them, in either order |
| `DynamicFee.PostSwapMeasures` | programs/cp-amm/src/state/fee.rs:341-354 | after a swap the accumulator is the reference and 20000 for every bin between the reference price and the new one, up to its maximum, and the time is recorded exactly if a bin was crossed |
| `DynamicFee.PreSwapDecays` | programs/cp-amm/src/state/fee.rs:356-384 | before a swap the references stay within the filter period, take over the price and the reduced volatility within the decay period, and forget it afterwards |
| `DynamicFee.DynamicFeeStruct.UpdateVolatilityAccumulator` | programs/cp-amm/src/state/fee.rs:341-354 | in place: only the accumulator changes, to the capped sum |
| `DynamicFee.DynamicFeeStruct.UpdateReferences` | programs/cp-amm/src/state/fee.rs:356-384 | in place: only the two references change, by the three time windows |
| `Vestings.InitializeWellFormed` | programs/cp-amm/src/instructions/ix_lock_position.rs:36-68 | validated parameters give a vesting with a positive total that ends within the maximum duration |
| `Vestings.MaxUnlockedInRange` | programs/cp-amm/src/state/vesting.rs:49-69 | the schedule never unlocks more than the locked total |
| `Vestings.MaxUnlockedMonotone` | programs/cp-amm/src/state/vesting.rs:49-69 | the schedule never takes back what it has unlocked |
| `Vestings.UnlockedAtEnd` | programs/cp-amm/src/state/vesting.rs:49-69 | from the end point on everything is unlocked |
| `Vestings.MaxUnlockedByPeriod` | programs/cp-amm/src/state/vesting.rs:49-69 | nothing is unlocked before the cliff, and after k whole periods exactly the cliff amount and k times the amount of a period, until the end |
| `Vestings.UnlockedByUnique` | programs/cp-amm/src/state/vesting.rs:49-69 | at every point that promise names one amount |
| `Vestings.ReleaseExact` | programs/cp-amm/src/state/vesting.rs:71-81 | on a clock that does not run backwards a refresh never fails and releases exactly what was unlocked and not yet released |
| `Vestings.RefreshesAddUp` | programs/cp-amm/src/state/vesting.rs:71-81 | however refreshes are spaced, what they released in all depends only on the last of them |
| `Vestings.RefreshesComplete` | programs/cp-amm/src/state/vesting.rs:83-85 | once the end point has passed any spacing of refreshes has released the whole lock |
| `Vestings.RefreshesByPeriod` | programs/cp-amm/src/instructions/ix_refresh_vesting.rs:51-87 | after any spacing of refreshes what was released in all is what the lock promises by the last of them |
| `Vestings.Vesting.AccumulateReleasedLiquidity` | programs/cp-amm/src/state/vesting.rs:77-81 | in place: only the released total grows |
| `Vestings.Vesting.constructor` | programs/cp-amm/src/state/vesting.rs:23-38 | a new vesting account with nothing released |
| `Rewards.UpdateConserves` | programs/cp-amm/src/state/pool.rs:276-336 | accrual moves to the liquidity what the elapsed seconds were funded with, all of it but less than one unit of the accumulator for each unit of liquidity, and to the empty seconds exactly all of it |
| `Rewards.IneligibleConserves` | programs/cp-amm/src/state/pool.rs:1220-1234 | withdrawing the ineligible reward takes what backed it, all but less than one token |
| `Rewards.RateConserves` | programs/cp-amm/src/state/pool.rs:343-373 | the new rate over the new duration promises the funding and the leftover of the running campaign, no more, and no less but one token and one unit of the rate for every second |
| `Rewards.FundConserves` | programs/cp-amm/src/instructions/ix_fund_reward.rs:72-107 | funding in mid-campaign, with or without carrying ineligible reward forward, promises the tokens that come in and what was promised before: no more, and no less but the roundings |
| `Rewards.RewardInfo.UpdateRewards` | programs/cp-amm/src/state/pool.rs:276-301 | in place: the stream after accrual, or the failure |
| `Rewards.RewardInfo.UpdateRateAfterFunding` | programs/cp-amm/src/state/pool.rs:343-373 | in place: rate, last update and end after funding |
| `Rewards.RewardInfo.ClaimIneligible` | programs/cp-amm/src/state/pool.rs:1220-1234 | in place: pays the ineligible reward and forgets the empty seconds |
| `Positions.CreditConserves` | programs/cp-amm/src/state/position.rs:209-235 | bringing a fee up to date never adds to what is owed and loses less than one token to rounding |
| `Positions.UserRewardConserves` | programs/cp-amm/src/state/position.rs:29-45 | the same for a reward; the checkpoint never runs ahead of the accumulator |
| `Positions.Position.UpdateFeeOf` | programs/cp-amm/src/state/position.rs:209-235 | in place: both fee lanes credited and both checkpoints moved |
| `Positions.Position.UpdatePositionRewards` | programs/cp-amm/src/state/position.rs:270-285 | the loop over the reward streams credits each initialized one and leaves the others |
| `Positions.Position.LockLiquidity` | programs/cp-amm/src/state/position.rs:128-138 | in place: moves unlocked liquidity to vested or refuses |
| `Positions.Position.PermanentLockLiquidity` | programs/cp-amm/src/state/position.rs:140-152 | in place: moves unlocked liquidity to permanently locked or refuses |
| `Positions.Position.ReleaseVestedLiquidity` | programs/cp-amm/src/state/position.rs:237-241 | in place: moves vested liquidity back to unlocked |
| `Positions.Position.AddLiquidity` | programs/cp-amm/src/state/position.rs:243-246 | in place: only unlocked liquidity grows |
| `Positions.Position.RemoveUnlockedLiquidity` | programs/cp-amm/src/state/position.rs:248-251 | in place: only unlocked liquidity shrinks |
| `Positions.Position.RemovePermanentLocked` | programs/cp-amm/src/state/position.rs:154-167 | in place: refuses exactly when more is asked for than is locked |
| `Positions.Position.AddPermanentLocked` | programs/cp-amm/src/state/position.rs:169-177 | in place: only the permanent lock grows |
| `Positions.Position.MoveFeePending` | programs/cp-amm/src/state/position.rs:179-191 | in place: both pending fees move by the amounts, or it fails exactly when one leaves 64 bits |
| `Positions.Position.MoveRewardPending` | programs/cp-amm/src/state/position.rs:193-207 | in place: one pending reward moves, the other stays |
| `Positions.Position.TakePendingFees` | programs/cp-amm/src/state/position.rs:92-100 | in place: pending fees are counted as claimed and reset |
| `Positions.Position.ClaimReward` | programs/cp-amm/src/state/position.rs:297-309 | in place: one pending reward is taken and reset, its lifetime counter wrapping |
| `Positions.Position.CheckEmpty` | programs/cp-amm/src/state/position.rs:318-327 | the loop finds a position empty exactly when nothing is held or owed |
| `Pools.Pool.UpdateAllRewards` | programs/cp-amm/src/state/pool.rs:1211-1218 | the loop accrues every stream, or fails where one fails |
| `Pools.Pool.ApplySwapResult` | programs/cp-amm/src/state/pool.rs:922-965 | in place: price, fee lane of the fee token, metrics and volatility after a swap |
| `Pools.Pool.UpdatePreSwap` | programs/cp-amm/src/state/pool.rs:1147-1154 | in place: the references before a swap |
| `Pools.Pool.UpdatePostSwap` | programs/cp-amm/src/state/pool.rs:1156-1173 | in place: accumulator after a swap, and the time stamp only if a bin was crossed |
| `Pools.Pool.ApplyAddLiquidity` | programs/cp-amm/src/state/pool.rs:993-1007 | in place: fees first, then the position and the pool grow together |
| `Pools.Pool.ApplyRemoveLiquidity` | programs/cp-amm/src/state/pool.rs:1009-1023 | in place: fees first, then the position and the pool shrink together |
| `Pools.Pool.AccrueRewards` | programs/cp-amm/src/state/position.rs:258-268 | in place: the pool accrues before the position |
| `Pools.Pool.AccumulatePermanentLockedLiquidity` | programs/cp-amm/src/state/pool.rs:1175-1184 | in place: only the permanent lock of the pool grows |
| `Pools.Pool.TakeProtocolFees` | programs/cp-amm/src/state/pool.rs:1186-1196 | in place: takes at most what is there; the subtraction never fails |
| `Pools.Pool.TakePartnerFees` | programs/cp-amm/src/state/pool.rs:1198-1209 | the same for the partner |
| `Handlers.HandleAddLiquidity` | programs/cp-amm/src/instructions/ix_add_liquidity.rs:74-176 | the handler, in its order of accrual, amounts, application, slippage and transfers, does what the instruction function says |
| `Handlers.HandleRemoveLiquidity` | programs/cp-amm/src/instructions/ix_remove_liquidity.rs:80-184 | the same for removing |
| `Handlers.HandleSwap` | programs/cp-amm/src/instructions/swap/ix_swap.rs:110-283 | the same for a swap: references, quote, slippage, application, transfers, reserves |
| `Handlers.HandleSwapTransfers` | programs/cp-amm/src/instructions/swap/ix_swap.rs:213-252 | input in, output out, referral fee out of the vault of the fee token |
| `Handlers.HandleClaimPositionFee` | programs/cp-amm/src/instructions/ix_claim_position_fee.rs:73-120 | pays exactly the fees brought up to date and resets them |
| `Handlers.HandleClaimProtocolFee` | programs/cp-amm/src/instructions/admin/ix_claim_protocol_fee.rs:70-108 | pays what was taken of the protocol fees |
| `Handlers.HandleClaimPartnerFee` | programs/cp-amm/src/instructions/partner/ix_claim_partner_fee.rs:56-92 | pays what was taken of the partner fees |
| `Handlers.HandleLockPosition` | programs/cp-amm/src/instructions/ix_lock_position.rs:104-157 | validates, opens a vesting and locks the total |
| `Handlers.HandlePermanentLock` | programs/cp-amm/src/instructions/ix_permanent_lock_position.rs:31-58 | locks in the position and in the pool |
| `Handlers.ReleaseToPosition` | programs/cp-amm/src/instructions/ix_refresh_vesting.rs:62-101 | releases one vesting into the position and closes it once done |
| `Handlers.HandleRefreshVesting` | programs/cp-amm/src/instructions/ix_refresh_vesting.rs:51-87 | the loop over vesting accounts equals refreshing them one after the other |
| `Handlers.ApplySplitPosition` | programs/cp-amm/src/state/pool.rs:1025-1123 | in place: both positions brought up to date, then every share moved |
| `Handlers.HandleSplitPosition` | programs/cp-amm/src/instructions/ix_split_position2.rs:61-158 | the handler: checks, accrual, split and the totals it reports |
| `Handlers.HandleClosePosition` | programs/cp-amm/src/instructions/ix_close_position.rs:54-56 | closes only an empty position |
| `Handlers.SetFundedRate` | programs/cp-amm/src/instructions/ix_fund_reward.rs:72-107 | in place: accrues all streams and sets the rate of the funded one |
| `Handlers.HandleFundReward` | programs/cp-amm/src/instructions/ix_fund_reward.rs:54-132 | the handler, transferring only the new tokens |
| `Handlers.HandleClaimReward` | programs/cp-amm/src/instructions/ix_claim_reward.rs:69-116 | pays the pending reward, or forfeits it if the vault is frozen and the caller skips |
| `Handlers.HandleWithdrawIneligibleReward` | programs/cp-amm/src/instructions/ix_withdraw_ineligible_reward.rs:61-98 | pays the reward of the seconds without liquidity |
| `Settlements.SwapWithinLimits` | programs/cp-amm/src/instructions/swap/swap_exact_out.rs:8-58 | every swap that goes through meets its caller's limit in its mode, on the input asked for or the output asked for |
| `Settlements.SwapMovesTokens` | programs/cp-amm/src/instructions/swap/ix_swap.rs:213-252 | the vaults change by what is paid in, what is given out and the referrer's part |
| `Settlements.SwapPriced` | programs/cp-amm/src/instructions/swap/ix_swap.rs:93-213 | a swap is quoted on the pool with its references brought up to date, at the rate of its version's cap, with the fee on the side the pool collects it, and what was quoted is what is recorded |
| `Settlements.AdditionExact` | programs/cp-amm/src/instructions/ix_add_liquidity.rs:74-176 | adding liquidity takes the least amounts that cover it, within the caller's most, and makes it unlocked liquidity |
| `Settlements.RemovalExact` | programs/cp-amm/src/instructions/ix_remove_liquidity.rs:80-184 | removing liquidity pays the greatest amounts it is worth, at least the caller's least, for what was asked or all that is unlocked |
| `Settlements.CreationExact` | programs/cp-amm/src/instructions/initialize_pool/ix_initialize_customizable_pool.rs:223-352 | a new pool passed its validation and was deposited the least amounts that cover its liquidity, at least one unit each if it is customizable |
| `Settlements.LockExact` | programs/cp-amm/src/instructions/ix_lock_position.rs:104-157 | a lock moves the whole amount of its schedule out of unlocked liquidity |
| `Settlements.PermanentLockExact` | programs/cp-amm/src/instructions/ix_permanent_lock_position.rs:31-58 | a permanent lock moves what was asked for, in the position and in the pool |
| `Settlements.ProtocolClaimExact` | programs/cp-amm/src/state/pool.rs:1186-1196 | the protocol is paid what is unclaimed up to what it asks for, out of vaults and books alike |
| `Settlements.PartnerClaimExact` | programs/cp-amm/src/state/pool.rs:1198-1209 | the same for the partner |
| `Settlements.ClosableIff` | programs/cp-amm/src/instructions/ix_close_position.rs:54-56 | a position can be closed exactly when it holds nothing and nothing is pending |
| `Settlements.IneligibleExact` | programs/cp-amm/src/instructions/ix_withdraw_ineligible_reward.rs:61-98 | ineligible reward is paid to the unit, after the campaign only, and forgotten |
| `Settlements.FundingExact` | programs/cp-amm/src/instructions/ix_fund_reward.rs:54-132 | funding brings in exactly the amount, after both streams have accrued |
| `Settlements.ClaimNeedsStream` | programs/cp-amm/src/instructions/ix_claim_reward.rs:69-116 | a reward is claimed only of an initialized stream, and touches only that one |
| `Settlements.StreamInitializedOnce` | programs/cp-amm/src/instructions/admin/ix_initialize_reward.rs:49-113 | a stream is initialized exactly if it was not and the duration is allowed, and promises nothing yet |
| `Settlements.DurationChangedBetweenCampaigns` | programs/cp-amm/src/instructions/admin/ix_update_reward_duration.rs:24-65 | the duration of a stream changes exactly if it is initialized, its campaign is over, and the new one is allowed and another |
| `BalanceKept.AddedKeeps` | programs/cp-amm/src/instructions/ix_add_liquidity.rs:91-112 | adding liquidity keeps every sum over positions balanced |
| `BalanceKept.RemovedKeeps` | programs/cp-amm/src/instructions/ix_remove_liquidity.rs:97-132 | removing liquidity keeps them balanced |
| `BalanceKept.FeesOfKeeps` | programs/cp-amm/src/instructions/ix_claim_position_fee.rs:77-109 | claiming moves exactly what is paid from owed to claimed |
| `BalanceKept.RewardOfKeeps` | programs/cp-amm/src/instructions/ix_claim_reward.rs:79-105 | claiming a reward takes from the vault at most what was owed |
| `BalanceKept.SwapKeeps` | programs/cp-amm/src/state/pool.rs:922-965 | spreading the LP fee over the liquidity, rounded down, owes positions no more than the fee |
| `FeeAccrual.SwapRecordsFees` | programs/cp-amm/src/state/pool.rs:922-965 | a swap raises the accumulator of its fee token by the greatest amount per unit of liquidity that its trading fee covers, records the other parts exactly, and leaves the other token's lane alone |
| `FeeAccrual.SwapCreditsPositions` | programs/cp-amm/src/state/pool.rs:922-965 | in every reachable state a swap credits the positions together with its trading fee, less than one unit per unit of liquidity short of it, and with nothing in the other token |
| `BalanceKept.RewardFundedKeeps` | programs/cp-amm/src/instructions/ix_fund_reward.rs:72-107 | funding keeps the stream backed by its vault |
| `BalanceKept.IneligibleKeeps` | programs/cp-amm/src/instructions/ix_withdraw_ineligible_reward.rs:69-90 | withdrawing ineligible reward keeps the stream backed |
| `BalanceKept.CloseKeeps` | programs/cp-amm/src/instructions/ix_close_position.rs:54-59 | a closed position was owed nothing |
| `SplitKept.ApplySplitConserves` | programs/cp-amm/src/state/pool.rs:1025-1123 | a split leaves the two positions together with what they held and were owed |
| `Settlements.SplitMovesShares` | programs/cp-amm/src/state/pool.rs:1025-1123 | a split moves of unlocked and permanent liquidity, of both fees and of both rewards the floor of the share its own numerator names |
| `Settlements.SplitAllowed` | programs/cp-amm/src/instructions/ix_split_position2.rs:61-120 | a split is refused for vested liquidity, for a numerator above the denominator, and if nothing is asked for |
| `SplitKept.SplitUnlockedShare` | programs/cp-amm/src/state/position.rs:329-338 | a share of unlocked liquidity is its floor, is always there to move, and the whole empties the first position |
| `SplitKept.SplitKeeps` | programs/cp-amm/src/instructions/ix_split_position2.rs:93-114 | a split keeps every sum over positions balanced |
| `VestingsKept.LockKeepsVested` | programs/cp-amm/src/instructions/ix_lock_position.rs:104-142 | locking grows vested liquidity by what the new vesting has to release |
| `VestingsKept.RefreshKeeps` | programs/cp-amm/src/instructions/ix_refresh_vesting.rs:62-101 | the refresh loop keeps vested liquidity equal to what open vestings have not released |
| `VestingsKept.RefreshReleases` | programs/cp-amm/src/instructions/ix_refresh_vesting.rs:51-87 | after a refresh every vesting named has released what its lock promises by then, and is closed exactly when that is everything; the others are as they were |
| `VestingsKept.RefreshDefined` | programs/cp-amm/src/instructions/ix_refresh_vesting.rs:62-101 | refreshing open vestings of a position, each once, never fails |
| `Solvency.AddCovered` | programs/cp-amm/src/state/pool.rs:967-991 | the deposit covers the exact reserve of the liquidity added |
| `Solvency.RemoveCovered` | programs/cp-amm/src/state/pool.rs:967-991 | the withdrawal is at most the exact reserve of the liquidity removed |
| `Solvency.SwapAppliedKeeps` | programs/cp-amm/src/instructions/swap/ix_swap.rs:170-252 | a swap keeps the reserves covered, the price in range, the dynamic fee bounded, and token A free of fees in a quote-only pool |
| `Solvency.HeldCoversUnclaimed` | programs/cp-amm/src/state/pool.rs:1186-1209 | both vaults hold the unclaimed protocol and partner fees |
| `Frames.TradingSteps` | programs/cp-amm/src/instructions/swap/ix_swap.rs:110-282 | steps on liquidity, swaps and fees leave the pool, one position and the token vaults as the instruction yields them, and everything else alone |
| `Frames.PositionSteps` | programs/cp-amm/src/state/position.rs:287-404 | steps on positions and their locks move no token and touch the accounts they name |
| `Frames.RewardSteps` | programs/cp-amm/src/instructions/ix_claim_reward.rs:69-116 | steps on rewards touch one reward vault at most |
| `Frames.FailureChangesNothing` | programs/cp-amm/src/instructions/swap/ix_swap.rs:110-282 | a step that fails changes nothing but the clocks |
| `Safety.StepSafe` | programs/cp-amm/src/state/pool.rs:922-1234 | every instruction keeps the invariant, and none is refused for lack of funds |
| `Runs.InitialHolds` | programs/cp-amm/src/instructions/initialize_pool/ix_initialize_customizable_pool.rs:223-352 | every pool that one of the three creation instructions makes, customizable, from a static config or from a dynamic one, starts in a state that satisfies the invariant |
| `Runs.RunHolds` | programs/cp-amm/src/state/pool.rs:922-1234 | the invariant holds after any sequence of instructions, successful or not, on clocks that do not run backwards |
| `ClocksKept.StepClocks` | programs/cp-amm/src/state/pool.rs:276-326 | no step leaves a reward stream ahead of the clock, nor its seconds without liquidity longer than the time that has passed |
| `Runs.ReachableByRun` | programs/cp-amm/src/state/pool.rs:377-1234 | the states with every inductive property are exactly the ends of runs from a new pool |
| `Runs.ReachableHolds` | programs/cp-amm/src/state/pool.rs:377-1234 | the invariant holds in every reachable state |
| `Runs.NeverUnfunded` | programs/cp-amm/src/state/pool.rs:922-1023 | no claim, withdrawal, removal or swap ever finds a vault short |
| `Runs.VaultsSolvent` | programs/cp-amm/src/state/pool.rs:922-1023 | each vault holds the exact reserve at the current price and liquidity, the unclaimed protocol and partner fees, and everything owed to positions even if nothing were rounded |
| `Runs.LedgersAgree` | programs/cp-amm/src/state/position.rs:121-177 | pool liquidity and permanent lock are the sums over positions; vested liquidity is what open vestings have not released |
| `Runs.FeesNeverOverpaid` | programs/cp-amm/src/state/pool.rs:939-960 | owed and claimed LP fees never exceed the LP fees recorded |
| `Runs.ClaimsBounded` | programs/cp-amm/src/state/position.rs:209-235 | what positions have claimed never exceeds the LP fees recorded |
| `Runs.RewardsSolvent` | programs/cp-amm/src/state/pool.rs:276-373 | a reward vault covers what is owed plus the rate times the remaining and the empty seconds |
| `Runs.PriceAlwaysInRange` | programs/cp-amm/src/state/pool.rs:757-920 | the price never leaves the range of the pool |
| `Runs.RefreshAlwaysPossible` | programs/cp-amm/src/instructions/ix_refresh_vesting.rs:62-101 | in every reachable state open vestings can be refreshed |
| `Runs.QuoteOnlyForever` | programs/fee_router/src/utils/validation.rs:6-43 | a pool that passed the quote-only check never owes a position token A, so claiming never pays any and the base-fee check of the claim never trips |
| `Runs.VariableFeeAlwaysDefined` | programs/cp-amm/src/state/fee.rs:390-407 | in every reachable state the variable fee is defined |
| `Runs.DynamicPartNeverAborts` | programs/cp-amm/src/state/pool.rs:1147-1173 | in every reachable state, on a clock past 65535 seconds, no swap is aborted by its dynamic part: references, variable fee and accumulator are all defined |
| `Liveness.FeesAlwaysUpdatable` | programs/cp-amm/src/state/position.rs:209-251 | in every reachable state the fees of every open position can be brought up to date, so they never lock it out of adding, removing, splitting or claiming; what becomes claimable is the floor of what is owed and is in the vault |
| `Liveness.ClaimAbortsOnlyOnCounter` | programs/cp-amm/src/instructions/ix_claim_position_fee.rs:73-120 | in every reachable state a claim of fees succeeds, paying exactly the floor of what is owed and counting it, if and only if the lifetime counters of claimed fees stay within 64 bits |
| `Liveness.RewardsAlwaysUpdatable` | programs/cp-amm/src/state/position.rs:258-285 | in every reachable state and at any time the rewards of an open position can be brought up to date if and only if the streams of the pool can |
| `Liveness.RewardClaimExact` | programs/cp-amm/src/instructions/ix_claim_reward.rs:69-116 | in every reachable state in which the streams can be updated a claim of a reward pays the floor of what is owed, or nothing out of a frozen vault, and is refused exactly when that would give up something against the caller's will |
| `Liveness.StreamsUpdatableIff` | programs/cp-amm/src/state/pool.rs:276-341 | in every reachable state, at every later time, the streams of the pool can be updated if and only if each accumulator that has liquidity to pay stays below 2^256; clocks, products and empty seconds never fail |
| `Leaving.RemovalPossibleIff` | programs/cp-amm/src/instructions/ix_remove_liquidity.rs:80-184 | in every reachable state a removal without thresholds succeeds if and only if it asks for some liquidity but no more than is unlocked, that liquidity is worth at least one unit of a token, and the accumulators have room |
| `LedgerExamples.StreamsRunOut` | programs/cp-amm/src/state/pool.rs:330-337 | a reachable pool with liquidity whose streams can never be updated again, because a second campaign leaves an accumulator no room |
| `Liveness.UserRewardDefined` | programs/cp-amm/src/state/position.rs:29-57 | what a reward vault covers can be credited, and what is pending becomes the floor of what is owed |
| `Runs.NoFreeLunchOnLedger` | programs/cp-amm/src/instructions/swap/ix_swap.rs:110-283 | over any run of swaps on a reachable pool, failed ones included: if one vault did not gain the other did not lose |
| `Progress.SetBit` | programs/fee_router/src/state/progress.rs:119-130 | setting the bit of one investor changes no other bit |
| `Progress.DistributionProgress.MarkInvestorPaid` | programs/fee_router/src/state/progress.rs:119-130 | in place: adds exactly that investor to the paid set; beyond the bitmap it fails |
| `Progress.DistributionProgress.IsInvestorPaid` | programs/fee_router/src/state/progress.rs:107-117 | true exactly for the investors in the paid set |
| `Progress.DistributionProgress.ResetBitmap` | programs/fee_router/src/state/progress.rs:133-135 | in place: empties the paid set |
| `Progress.DistributionProgress.BeginDay` | programs/fee_router/src/state/progress.rs:73-91 | in place: a new day with the carried dust added to its claim |
| `Progress.DistributionProgress.FinishDay` | programs/fee_router/src/state/progress.rs:93-105 | in place: closes the day and persists its dust |
| `RouterMath.EligibleShareBps` | programs/fee_router/src/state/policy.rs:60-70 | the investors' share is at most the configured one and at most 100% |
| `RouterMath.EligibleShareIsGreatest` | programs/fee_router/src/state/policy.rs:60-70 | the share is the greatest whole number of basis points within the configured share, 100%, and the part of the allocation that is still locked; zero without an allocation |
| `RouterMath.PoolWithinLockedPart` | programs/fee_router/src/instructions/crank_distribution.rs:330-332 | the investors' pool never exceeds the part of the claim that corresponds to what is still locked |
| `RouterMath.InvestorFeeIsFloor` | programs/fee_router/src/utils/math.rs:30-42 | the pool is the floor of its share of the claim |
| `RouterMath.InvestorFeeBounded` | programs/fee_router/src/utils/math.rs:30-42 | the investors' pool is always defined, at most the claim, and grows with it |
| `RouterMath.IndividualPayoutBounded` | programs/fee_router/src/utils/math.rs:44-61 | a payout for a locked amount within the total is always defined and the floor of its proportion of the pool |
| `RouterMath.DailyCapHolds` | programs/fee_router/src/utils/math.rs:85-104 | the cap never raises a payout nor lets the day pass it |
| `CrankProofs.PageStartsAtCursor` | programs/fee_router/src/instructions/crank_distribution.rs:156-206 | a page that is not a retry starts at the cursor, and is the first of a day exactly between days, 24 hours after the last |
| `CrankProofs.CallPassesIff` | programs/fee_router/src/instructions/crank_distribution.rs:156-202 | a call passes the checks exactly when its size is allowed and it asks, between days, for the first page 24 hours after the last day started, and in an open day for the next page or a retry |
| `CrankProofs.ReadLockedIs` | programs/fee_router/src/instructions/crank_distribution.rs:312-324 | the locked amounts of a page are what its streams read, in order |
| `RouterRuns.TotalLockedIsSum` | programs/fee_router/src/instructions/crank_distribution.rs:219-231 | the total of a day is the sum of all locked amounts, refused exactly when one cannot be read or the sum does not fit |
| `CrankProofs.RetryIsPreviousPage` | programs/fee_router/src/instructions/crank_distribution.rs:170-193 | a call is taken for a retry exactly in an open day when it asks for the page that ends at the cursor, or for the start of the list if the cursor is within the first page |
| `CrankProofs.CallMakesProgress` | programs/fee_router/src/instructions/crank_distribution.rs:156-301 | a successful call changes nothing, or advances the cursor by the page size, or closes the day; the investors left strictly decrease; a day starts at least 24 hours after the last |
| `DayEnd.EmptyPageClosesIff` | programs/fee_router/src/instructions/crank_distribution.rs:156-548 | in every reachable open day a page with no investors at the cursor goes through, and closes the day, if and only if its size is allowed, the cursor it books fits 32 bits, and the lifetime counters and the day's time stamp have room |
| `DayEnd.OpenDayCanBeClosed` | programs/fee_router/src/instructions/crank_distribution.rs:296-548 | so every reachable open day has a consistent call that closes it, unless a lifetime counter or the time stamp is full |
| `CrankProofs.OpenPageTiles` | programs/fee_router/src/instructions/crank_distribution.rs:283-301 | a page that leaves the day open processed exactly the investors between the old and the new cursor |
| `CrankProofs.PaidOnce` | programs/fee_router/src/instructions/crank_distribution.rs:361-440 | the main loop pays only investors whose bit is clear, each at most once, and sets their bits |
| `CrankBooks.PayAllSettles` | programs/fee_router/src/instructions/crank_distribution.rs:361-440 | the main loop pays or sets aside exactly the shares of the page and is never short |
| `CrankBooks.PayDustHandsOut` | programs/fee_router/src/instructions/crank_distribution.rs:446-494 | the dust loop hands out exactly the rounded shares of the dust |
| `CrankBooks.CarriedDustSettles` | programs/fee_router/src/instructions/crank_distribution.rs:446-503 | carried dust is handed out or carried on, never created |
| `CrankBooks.PayPageSettles` | programs/fee_router/src/instructions/crank_distribution.rs:326-508 | a page pays and carries at most what was carried plus its proportion of the pool; every lamport that left the treasury was distributed |
| `RouterRuns.CloseExact` | programs/fee_router/src/instructions/crank_distribution.rs:512-548 | closing gives the creator exactly what was neither distributed nor carried |
| `RouterRuns.CallKeeps` | programs/fee_router/src/instructions/crank_distribution.rs:139-570 | every consistent call keeps the books in order and is never refused for lack of funds |
| `RouterRuns.ReachableBooks` | programs/fee_router/src/instructions/crank_distribution.rs:139-570 | in every reachable state: cursor inside the list, pages tiling from 0, nobody paid twice, spending within the pool, carried dust in the treasury |
| `RouterRuns.NeverShort` | programs/fee_router/src/instructions/crank_distribution.rs:373-548 | no transfer of the crank ever finds the treasury short |
| `RouterRuns.DayWithinPool` | programs/fee_router/src/instructions/crank_distribution.rs:326-501 | within a day, distributed plus carried never exceeds the investors' pool, nor the pool the claim |
| `RouterRuns.DayPoolFollowsLocks` | programs/fee_router/src/state/policy.rs:60-70 | in every reachable open day the pool is the floor of the greatest allowed share of the day's claim, and within the part that corresponds to what is still locked |
| `RouterRuns.ClosingExact` | programs/fee_router/src/utils/math.rs:73-82 | distributed, carried over and paid to the creator add up to what the closing page accounts for; no saturating subtraction bites |
| `RouterRuns.OnlySinglePageDaysStrandDust` | programs/fee_router/src/instructions/crank_distribution.rs:208-301 | what the treasury holds for nobody grows exactly when a first page is called with carried dust and either with fewer investors than a page or with a page for all of them, and by exactly that dust |
| `RouterRuns.DayClosedEarlyIff` | programs/fee_router/src/instructions/crank_distribution.rs:281-301 | a call closes the day with investors left out if and only if it supplies fewer than a page of them and does not reach the last |
| `RouterRuns.DaysStartApart` | programs/fee_router/src/state/progress.rs:63-71 | over every run each day starts at least 24 hours after the one before |
| `DailyCap.MainLoopPaysDue` | programs/fee_router/src/instructions/crank_distribution.rs:361-440 | the main loop takes the day to what was distributed plus every share that reaches the minimum, or to the cap if there is one and it is less |
| `DailyCap.DustForPageIs` | programs/fee_router/src/instructions/crank_distribution.rs:337-356 | a page may hand out the floor of its proportion of the carried dust, and nothing of dust below the minimum |
| `DailyCap.CallDistributes` | programs/fee_router/src/instructions/crank_distribution.rs:361-506 | a whole call takes the day to what is due, up to the cap if there is one, plus the rounded shares of the carried dust, and carries on exactly the unpaid shares and the dust it did not offer |
| `DailyCap.DustRoundsDown` | programs/fee_router/src/instructions/crank_distribution.rs:446-499 | the dust shares of a page round down by less than one lamport for each of its investors |
| `DailyCap.CapHoldsIff` | programs/fee_router/src/instructions/crank_distribution.rs:337-501 | in every reachable state a call that finds the day within its cap leaves it there if and only if it has no dust to hand out or what was distributed, what is due and that dust fit under the cap together |
| `DailyCap.FirstPageWithinCap` | programs/fee_router/src/instructions/crank_distribution.rs:361-440 | the first page of a day never passes the cap |
| `RouterExamples.CapIsPassed` | programs/fee_router/src/instructions/crank_distribution.rs:447-494 | a reachable router and a call on which a cap of zero is passed by 1000 lamports |
| `RouterExamples.RoundingIsNotCarried` | programs/fee_router/src/instructions/crank_distribution.rs:496-499 | a reachable router and a call on which one lamport of rounding is not carried on but goes to the creator |
| `RouterExamples.DayIsClosedEarly` | programs/fee_router/src/instructions/crank_distribution.rs:300-301 | a reachable router whose day a call with no investors closes, one investor of two left out |
| `RouterExamples.DustIsStranded` | programs/fee_router/src/instructions/crank_distribution.rs:276-278 | a reachable router and a call after which 3000 lamports of carried dust are due to nobody |
| `CrankHandler.ReadTotalLocked` | programs/fee_router/src/instructions/crank_distribution.rs:219-234 | the loop over all streams adds their locked amounts, failing where a read or an addition fails |
| `CrankHandler.PayOneInvestor` | programs/fee_router/src/instructions/crank_distribution.rs:368-439 | in place: one round of the main loop |
| `CrankHandler.PayInvestors` | programs/fee_router/src/instructions/crank_distribution.rs:361-440 | in place: the main loop |
| `CrankHandler.PayDustShares` | programs/fee_router/src/instructions/crank_distribution.rs:446-494 | in place: the dust loop |
| `CrankHandler.StartDayIfNeeded` | programs/fee_router/src/instructions/crank_distribution.rs:208-279 | in place: total locked, claim and new day on a first page |
| `CrankHandler.CloseTheDay` | programs/fee_router/src/instructions/crank_distribution.rs:512-548 | in place: remainder to the creator and the day closed |
| `CrankHandler.HandleCrankDistribution` | programs/fee_router/src/instructions/crank_distribution.rs:139-570 | the whole handler does what the crank function says |

## Left out

- Account validation, program-derived addresses, signers, position tokens, events, configuration and badge
  instructions: plumbing without arithmetic. Pool status and activation checks are left out with them.
- Transfer fees of mints: the formulas live in a library outside the repository; mints take no fee here.
- `validate_single_swap_instruction`: it reads the instruction sysvar and the call stack.
- `get_max_amount_in`: nothing in the repository calls it.
- The off-chain quotes in `rust-sdk`: thin wrappers around the quotes modelled here.
- Stream contracts and `available_to_claim`: foreign code with floating point; a locked amount is an input.
- `handle_add_honorary_liquidity` and the other wiring of the honorary position: modelled as a step that
  only adds to the treasury.
- Byte layouts and the 32-byte encoding of accumulators: they are integers here. The bitmap of paid
  investors is modelled as bytes.
- The counter of positions in the pool metrics: it wraps and nothing depends on it.
- The state after a failed instruction: the transaction is rolled back, so the methods say nothing about it.
- Intermediate overflow of the rate limiter's formulas for limiters that validation refuses: the program
  computes them in unchecked 256 bits; for validated limiters nothing overflows.
- `handle_initialize_reward`, `handle_update_reward_duration` and `handle_create_position` as in-place methods:
  they assign one or two fields after checks that `Instructions` has; they are steps of the ledger.
- `calculate_eligible_investor_share_bps` in `utils/math.rs`: the same formula as the policy's method, which
  is the one the crank calls.
- The identity of investor accounts: a page pays whatever accounts it is given, so nothing ties an index to
  an investor beyond the assumption on the locked amounts.

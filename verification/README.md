# A verified model of the shop backend's money, stock, queue, cache and session rules

The backend sells goods in India: it taxes orders with GST, shares coupon discounts over lines, numbers invoices, keeps stock and
refunds consistent with database triggers, runs background jobs under leases, caches responses by version, rotates refresh tokens,
and merges guest carts at login.  This project models that logic in Dafny and proves what it keeps, for all inputs and over all runs.

Amounts are whole paise.  Tax rates are whole thousandths of a percent, coupon percentages whole hundredths of a percent, and every
intermediate `Decimal` is the exact rational.  Code that changes things step by step is a method or a class proved against a
specification function; the properties of that function are lemmas.  Protocols with several actors are state machines whose runs are
arbitrary sequences of atomic steps.

| file | models |
|---|---|
| `Allocation.dfy` | largest-remainder allocation of whole paise |
| `GstCalc.dfy`, `GstCalculate.dfy`, `GstCharges.dfy` | half-up rounding, one slab's tax, grouping by rates, the whole GST calculation, what each line is charged |
| `Discount.dfy`, `TaxEngine.dfy` | coupon discounts, tax readiness, and an order's way from coupon to GST lines |
| `JobQueue.dfy`, `JobRuns.dfy`, `Schedule.dfy` | the job table, what every run of any number of workers keeps, periodic jobs |
| `ResponseCache.dfy`, `CacheFlights.dfy`, `CacheFreshness.dfy` | the versioned cache with interleaved readers, writers, losses and shared loads; single flight; freshness by events |
| `RefundCeiling.dfy`, `OrderGuards.dfy` | refunds under concurrent transactions; order, refund and restock guards |
| `StockLedger.dfy`, `PriceRange.dfy` | the append-only stock ledger; the maintained price range |
| `TokenFamilies.dfy`, `TokenRaces.dfy` | refresh-token rotation, reuse detection, grace replays, logout (section 4.14.2 of RFC 9700); requests that overlap at row-lock granularity |
| `InvoiceNumbers.dfy`, `InvoiceDesk.dfy` | invoice numbers as printed; issuing invoices and credit notes under rollback |
| `Words.dfy`, `Inr.dfy` | amounts in words and in figures, each with a reader that undoes the printing |
| `CartMerge.dfy`, `CartDigest.dfy` | merging a guest's cart at login; the text behind a cart's fingerprint |
| `Options.dfy`, `Arith.dfy`, `Sums.dfy`, `Sets.dfy`, `Digits.dfy`, `Texts.dfy` | shared vocabulary |

## Where the code and what is said of it disagree

The model follows the code.

- `gst_calc.py:11-16` says nothing is lost.  When shipping is taxed with the goods and all goods are worth 0, the shipping charge
  disappears from lines and from untaxed shipping alike (`ShippingConserved` gives the exact condition, `ShippingCanVanish` an order).
- `gst_calc.py:13-14` calls the inclusive round-off "at most a paisa or so": it is at most 1 paisa below a combined rate of 100%, and
  some value is off by 2 exactly at two rates that make up 100% and of which one, in thousandths of a percent, is no multiple of 32
  (`OffByTwoExactly`).
- `schedule.py:63` says a time bucket is never skipped.  With an interval of one second that holds only if a tick takes no time
  (`TickAllowance`).
- `cache.py:57-60` and `cache.py:160-163` say that a clock-based version stays ahead of every earlier one.  Three things can break it:
  the key is lost between SET NX and INCR, the counter is taken past the clock, or a SET NX takes effect with a clock value read before
  the last version became current.  Without any of them versions advance (`PacedRunsAdvance`); each alone can end in a stale
  hit (`LostKeyServesStale`, `FastWritesServeStale`, `LateStartServesStale`), so nothing less than ruling out all three rules out
  stale answers (`ConditionsExactly`).
- `d2f6b9a4c731:109-116` fills every existing product's range with its own price, which is right exactly for products whose active
  variants all sell at it (`BackfillRight`).  A variant moved to another product fires no summary (`d2f6b9a4c731:85-86`): the ranges stay
  right exactly when the old product still sells at both ends of its range and the new product's range covers the variant's price there
  (`MoveExactly`).
- `f9c3b6e1d752:36-40` checks for a succeeded payment when an order becomes paid.  Paid and fulfilled orders keep one exactly until an
  update takes the last one away (`PaidExactly`, `PaidAllAlong`), which nothing forbids (`PaidCanLoseItsPayment`).
- `b4d8e2a6c915:404-407` means to demand a reason for admin stock changes; a missing reason makes the check unknown, and it passes
  (`AdminAccepted`).
- `auth_repository.py:142` says a logout revokes the whole family.  `logout` revokes the presented token only, and reads it without a
  lock.  One request after the other, a logout ends the token's family exactly when no other token of it is unrevoked
  (`LogoutEndsWhen`): with an unrevoked token that holds in every run exactly when no grace replay is ever granted
  (`TokenFamilies.LogoutEndsExactly`), with a token that was rotated before it fails under every setting (`OldTokenLogsNobodyOut`).
  When requests overlap, the family is dead exactly when no token but the one read as unrevoked is unrevoked at the logout's commit and
  no granted replay is on its way (`TokenRaces.LogoutEndsExactly`); a refresh of the same token in between leaves it usable under every
  setting (`RotationOutlivesLogout`).
- `auth_service.py:115-121` revokes the entire family on reuse.  A token that an overlapping rotation or granted replay commits is not
  among the revoked ones: the family is dead exactly when there is none (`ReuseEndsExactly`, `RotationOutlivesReuse`).
- `business_profile.py:18` allows the invoice prefix `CN`, which credit notes use.  The two types then share their numbers: whichever is
  behind in a financial year is refused for good (`CnPrefixStalls`), already the credit note of the year's first invoice
  (`CnCreditNoteRefused`), or all invoices of a year that opens with a credit note (`CnPrefixReached`).
- Adding to a cart is limited to 50 lines; merging carts is not (`MergedSize`).

## Model

| member | source | states |
|---|---|---|
| Allocation.AllocationIsExact | app/modules/tax/gst_calc.py:69-80 | with a positive weight sum the parts add up to exactly the total |
| Allocation.AllocationQuota | app/modules/tax/gst_calc.py:74-79 | each part is the floor or the ceiling of its exact share, and a whole share (a zero weight included) is never bumped |
| Allocation.AllocationWithinWeights | app/modules/tax/gst_calc.py:69-80 | no part exceeds its weight when the total is at most the weight sum, and an equal total returns every weight |
| Allocation.AllocationIsMonotone | app/modules/tax/gst_calc.py:77-79 | a larger weight never gets a smaller part |
| Allocation.FavouredByRank | app/modules/tax/gst_calc.py:76-79 | which entries get one more, without sorting: those with fewer entries ahead of them by (remainder, index) than there are paise left over |
| Allocation.BumpedHaveRemainder | app/modules/tax/gst_calc.py:76-79 | every entry that is bumped had a fractional share |
| Allocation.Allocate | app/modules/tax/gst_calc.py:69-80 | the loop over floors and the sorted order computes the specified allocation, also for a total or weight sum of 0 |
| GstCalc.HalfUp | app/modules/tax/gst_calc.py:25-26 | the result is the nearest whole number, a half rounded away from zero, for either sign |
| GstCalc.NearestUnique | app/modules/tax/gst_calc.py:25-26 | rounding to nearest has one answer only |
| GstCalc.SlabRoundOffGeneral | app/modules/tax/gst_calc.py:89-97 | for any rates, the inclusive round-off of one slab stays within its four rounding errors added up |
| GstCalc.SlabRoundOffBound | app/modules/tax/gst_calc.py:89-97 | for a combined rate up to 100% a slab's round-off is at most 2 paise, and at most 1 below 100% |
| GstCalc.SlabRoundOffTight | app/modules/tax/gst_calc.py:89-97 | the bound of 2 is reached |
| GstCalc.OffByTwoAt | app/modules/tax/gst_calc.py:96-97 | at a combined 100% a value is off by 2 exactly when it is odd and its half, rounded up, ends in a half paisa of tax |
| GstCalc.OffByTwoExactly | app/modules/tax/gst_calc.py:96-97 | the rates of one supply at which some value is off by 2: two of them, together 100%, and 32 does not divide one in thousandths |
| GstCalc.KeysAreDistinct | app/modules/tax/gst_calc.py:124-126 | every rate triple that occurs is a slab, once |
| GstCalc.SlabsPartition | app/modules/tax/gst_calc.py:124-128 | each line belongs to exactly one slab, so slab sums add up to the whole |
| GstCalc.SlabShareExact | app/modules/tax/gst_calc.py:127-132 | scattering a slab's amount back to its lines loses nothing |
| GstCalc.ColumnIsSlabTotal | app/modules/tax/gst_calc.py:123-132 | under invoice rounding a column's total is the sum of what each slab was taxed |
| GstCalculate.LinesAddUp | app/modules/tax/gst_calc.py:133-145 | the lines add up to every invoice total, and all tax is either added or included |
| GstCalculate.ShippingConserved | app/modules/tax/gst_calc.py:106-113 | goods plus shipping equals gross plus untaxed shipping exactly unless taxed shipping meets goods worth 0 |
| GstCalculate.ShippingCanVanish | app/modules/tax/gst_calc.py:72-73 | an order on which the shipping charge disappears |
| GstCalculate.InclusiveBalances | app/modules/tax/gst_calc.py:13-14 | inclusive: gross is taxable plus tax plus round-off, on every line and in total, under both policies |
| GstCalculate.ExclusiveBalances | app/modules/tax/gst_calc.py:12 | exclusive: every line's taxable value is its gross value and nothing is rounded off, also after slab re-allocation |
| GstCalculate.EqualRatesEqualTax | app/modules/tax/gst_calc.py:15 | equal CGST and SGST rates give equal amounts on every line |
| GstCalculate.OneSupplyType | app/modules/tax/gst_calc.py:83-86 | an invoice carries CGST and SGST or IGST, never both |
| GstCalculate.RoundOffByLine | app/modules/tax/gst_calc.py:120-122 | line rounding: the invoice round-off is at most 2 paise (1 below 100%) for each line |
| GstCalculate.InvoiceRoundOff | app/modules/tax/gst_calc.py:123-137 | invoice rounding: the invoice round-off is the sum of the slabs' round-offs |
| GstCalculate.RoundOffBySlab | app/modules/tax/gst_calc.py:123-137 | invoice rounding: the round-off is at most 2 paise (1 below 100%) for each slab, however many lines share it |
| GstCalculate.RoundOffOnLine | app/modules/tax/gst_calc.py:127-137 | invoice rounding: a line is off by at most what its slab is off by plus one paisa for each component charged, so by at most 4 paise (3 below 100%) |
| GstCalculate.PoliciesAgree | app/modules/tax/gst_calc.py:120-132 | exclusive prices: the two policies differ per component by at most half a paisa for each line plus half for each slab |
| GstCharges.LineCharged | app/modules/tax/gst_calc.py:82-98 | line rounding: a taxable line bears its own CGST and SGST rates within a state, its IGST rate between two, each to the nearest paisa on its taxable value, which is its gross value or, inclusive, what the rates leave of it; any other line bears nothing |
| GstCharges.SlabCharged | app/modules/tax/gst_calc.py:123-132 | invoice rounding: the lines taxed at the same rates are charged so as one value, their sum |
| GstCharges.LineShare | app/modules/tax/gst_calc.py:128-132 | invoice rounding: in every column a line gets less than a paisa more or less than its share of the slab by gross value |
| GstCharges.GoodsAndShipping | app/modules/tax/gst_calc.py:107-113 | a line's gross value is its goods and its share, by value, of taxed shipping; untaxed shipping stays apart |
| GstCalculate.GroupBySlab | app/modules/tax/gst_calc.py:124-126 | the dictionary loop maps each rate triple to its line indices in order, keys in order of first appearance |
| GstCalculate.Scatter | app/modules/tax/gst_calc.py:130-132 | spreading one slab's amount fills exactly that slab's lines of one column |
| GstCalculate.FillByLine | app/modules/tax/gst_calc.py:120-122 | the line loop fills the four specified columns |
| GstCalculate.FillBySlab | app/modules/tax/gst_calc.py:123-132 | the loop over slabs fills the four specified columns, whatever lines share a slab |
| GstCalculate.Calculate | app/modules/tax/gst_calc.py:100-146 | an unknown value of any of the three settings is refused, and only such; otherwise the columns filled step by step are the specified ones, which `GstCharges` describes |
| Discount.DiscountWithin | app/modules/coupons/services/discount.py:15-27 | a coupon takes off goods or shipping, never both, and never more than there is of either |
| Discount.PercentageIsNearest | app/modules/coupons/services/discount.py:18-22 | without a limit a percentage up to 100% is rounded to nearest and never cut off at the subtotal |
| Discount.DiscountExactly | app/modules/coupons/services/discount.py:15-30 | a percentage takes off its nearest paise held down to limit and subtotal, a fixed coupon its amount held down to the subtotal, free shipping the shipping, and any other kind is refused |
| Discount.PercentageIsMonotone | app/modules/coupons/services/discount.py:18-22 | a larger percentage never takes off less |
| Discount.SharesReachTheLines | app/modules/coupons/services/discount.py:30-33 | shares add up to the discount, no line is discounted by more than it costs, and what remains adds up to subtotal less discount |
| Discount.SharesFollowTheLines | app/modules/coupons/services/discount.py:33-36 | each line's share is less than a paisa away from its share by value |
| TaxEngine.EvaluateReadiness | app/modules/tax/engine.py:171-193 | the loop reports the blockers in line order, none exactly when every line is ready |
| TaxEngine.ReadyIffUnblocked | app/modules/tax/engine.py:171-193 | no blocker means one approved rule of a known treatment for every line, and conversely |
| TaxEngine.BlockersAreReasons | app/modules/tax/engine.py:171-193 | one blocker for each line that is not ready, at its place among them, with its product and the reason that applies to it |
| TaxEngine.CalculateTax | app/modules/tax/engine.py:251-275 | blocked lines are all reported; otherwise the tax is that of lines at price times quantity less discount |
| TaxEngine.ChargedByRule | app/modules/tax/engine.py:268-275 | each line is charged by the treatment and rates of the one rule of its classification, on price times quantity less discount plus its shipping |
| TaxEngine.CouponToTax | app/modules/tax/engine.py:265-275 | for any coupon and cart, every GST line value is non-negative and the values add up to subtotal minus discount |
| TaxEngine.StoredRulesBoundRoundOff | app/modules/tax/models/tax.py:103-114 | rules the database accepts keep the invoice round-off within 2 paise for each line |
| JobQueue.RetryDelayDoubles | app/core/jobs/worker.py:98-100 | delays start at the base and double, held down to the cap, exactly |
| JobQueue.JobTable.Enqueue | app/core/jobs/queue.py:24-49 | a taken dedupe key adds nothing, a negative limit is refused, otherwise one pending job is added |
| JobQueue.JobTable.ClaimNext | app/core/jobs/worker.py:29-61 | jobs out of attempts are failed first, then the first claimable unlocked row in (run_at, id) order is taken, or there is none |
| JobQueue.JobTable.CompleteJob | app/core/jobs/worker.py:66-73 | exactly when the job is still running that attempt it becomes succeeded, without lease or error; every other row, and otherwise every row, is unchanged |
| JobQueue.JobTable.FailJob | app/core/jobs/worker.py:75-153 | exactly when the job is still running that attempt, the last attempt fails it and any other puts it back to run after the retry delay, with the error cut to 4000 characters |
| JobRuns.StepKeeps | app/core/jobs/worker.py:29-86 | every transaction of any worker keeps the invariant of jobs, claims, leases and results |
| JobRuns.HandedOnce | app/core/jobs/worker.py:43-61 | over any run no (job, attempt) pair is handed out twice and no job starts more often than its limit |
| JobRuns.ReclaimedAfterLease | app/core/jobs/worker.py:39-61 | a job is claimed again without a recorded result only strictly after the earlier claim time plus the lease |
| JobRuns.OneResultPerAttempt | app/core/jobs/worker.py:63-86 | over any run each attempt gets at most one recorded result |
| JobRuns.LateResultsAreIgnored | app/core/jobs/worker.py:63-86 | a report changes the state exactly when its claim is its job's latest and has no result yet |
| JobRuns.FinishedIsFinal | app/core/jobs/worker.py:29-86 | no step changes a finished job |
| JobRuns.FinishedForever | app/core/jobs/worker.py:29-86 | whatever run follows, a finished job stays as it is |
| JobRuns.NoStrandedJob | app/core/jobs/worker.py:29-61 | over any run an unfinished job whose time has passed can be claimed, or failed if out of attempts |
| JobRuns.ClaimableExactly | app/core/jobs/worker.py:29-61 | over any run a pending job is claimable exactly from its run time on, a running one exactly after its lease while it has attempts left |
| JobRuns.EndsExactly | app/core/jobs/worker.py:29-86 | over any run a job has succeeded exactly when its handler returned in the attempt it was running, and has failed exactly when its last attempt failed or outlived its lease |
| JobRuns.StepsProgress | app/core/jobs/worker.py:29-86 | every change of a job uses up part of (attempts left, status rank), so it changes finitely often |
| JobRuns.OneJobPerKey | app/core/jobs/models.py:58-60 | over any run at most one job was ever added for a dedupe key |
| Schedule.BucketKeyInjective | app/core/jobs/schedule.py:47-50 | different job types or buckets never share a dedupe key, whatever characters the type contains |
| Schedule.RegisterSchedule | app/core/jobs/schedule.py:31-33 | registration keeps job types unique and is idempotent |
| Schedule.EnqueueOne | app/core/jobs/schedule.py:43-53 | a schedule's turn adds its job for the bucket exactly when it is lacking |
| Schedule.EnqueueDue | app/core/jobs/schedule.py:40-54 | after a tick every enabled schedule has its job for the bucket of its own moment, no other row is touched, and the reported types are exactly the missing ones in order |
| Schedule.MissingExactly | app/core/jobs/schedule.py:40-54 | the reported types are those of the schedules that lack their job, in schedule order |
| Schedule.NoBucketSkipped | app/core/jobs/schedule.py:57-70 | two ticks never skip a bucket, whatever the phase, exactly when they are at most one interval apart |
| Schedule.TickAllowance | app/core/jobs/schedule.py:63-70 | the pause leaves a tick half the shortest interval, and no time at all when that is one second |
| ResponseCache.StepKeeps | app/core/cache.py:128-236 | every Redis command, load, commit or loss keeps the invariant when versions only advance |
| ResponseCache.RunsKeep | app/core/cache.py:128-236 | the invariant holds after every advancing run |
| ResponseCache.NoStaleAnswer | app/core/cache.py:172-236 | whatever is served, as a hit, shared or loaded, was loaded after every write invalidated before the reader read the version, for the key asked |
| ResponseCache.PacedRunsAdvance | app/core/cache.py:56-60 | versions stay ahead of all earlier ones in every run in which INCR finds its key, never passes the clock, and an effective SET NX carries a clock value read after the last issue |
| ResponseCache.LostKeyServesStale | app/core/cache.py:142-147 | a run that breaks the first condition only, and serves a stale hit |
| ResponseCache.FastWritesServeStale | app/core/cache.py:57-60 | a run that breaks the second condition only, and serves a stale hit |
| ResponseCache.LateStartServesStale | app/core/cache.py:159-165 | a run that breaks the third condition only, and serves a stale hit |
| ResponseCache.ConditionsExactly | app/core/cache.py:56-60 | meeting a set of the three conditions rules out stale answers in every run exactly when it is all three |
| CacheFlights.OneLoadInFlight | app/core/cache.py:207-227 | over any run at most one load is in flight for a process, key and version |
| CacheFlights.MissJoinsOrLeads | app/core/cache.py:210-219 | over any run a miss waits for the load in flight for its process, key and version, and loads itself exactly when there is none |
| CacheFlights.FollowerGetsTheLoad | app/core/cache.py:212-227 | over any run a follower gets what its leader loaded, or loads for itself after that load failed |
| CacheFlights.NobodyWaitsInVain | app/core/cache.py:221-227 | over any run a waiting reader's load is under way, or its result can be taken |
| CacheFlights.HitExactly | app/core/cache.py:151-170 | a read is answered from the cache exactly when the key's entry carries the current version, and with that entry |
| CacheFlights.MissingVersionStarted | app/core/cache.py:155-165 | without a version a reader starts one from the clock, keeps one started by then, and goes by the one it finds |
| CacheFlights.LoadedIsAnswered | app/core/cache.py:229-236 | a leader answers with what it loaded, whether or not the entry could be stored |
| CacheFlights.StoredIsHit | app/core/cache.py:229-236 | what a reader stores is what the next one that asks is served while the version stays |
| CacheFreshness.EverythingIsLoaded | app/core/cache.py:172-236 | over any run every payload in an answer or in the cache was loaded by an event of the run |
| CacheFreshness.CommitThenIncrement | app/core/cache.py:124-149 | over any run a write is invalidated once its process runs INCR after the commit |
| CacheFreshness.LaterReadersAreFresh | app/core/cache.py:4-21 | a reader that asks after a process has committed a write and run INCR is served the answer to its question, loaded after the commit, in every run whose versions advance |
| RefundCeiling.RefundsWithinPayment | alembic/versions/a2e4c8b6d193_webhook_events_disputes_refund_limits.py:23-41 | however transactions interleave, the active refunds of a payment never add up to more than its amount |
| RefundCeiling.RunCumulativeGuard | alembic/versions/a2e4c8b6d193_webhook_events_disputes_refund_limits.py:23-41 | the trigger's loop lets a refund through exactly when it has failed, or what is refunded without it plus its amount is at most the payment |
| RefundCeiling.InsertExactly | alembic/versions/a2e4c8b6d193_webhook_events_disputes_refund_limits.py:23-41 | a new refund with an amount and a payment is written exactly when it has failed or fits beside what its transaction sees refunded |
| RefundCeiling.FullRefundAccepted | alembic/versions/a2e4c8b6d193_webhook_events_disputes_refund_limits.py:35 | while nothing is refunded, a refund of the whole payment is accepted |
| RefundCeiling.UpdateExactly | alembic/versions/f9c3b6e1d752_add_order_payment_lifecycle.py:55-71 | an update is written exactly when only the status differs and does not leave an end; the limit never refuses one |
| RefundCeiling.EndsExactly | alembic/versions/a2e4c8b6d193_webhook_events_disputes_refund_limits.py:23-41 | a commit makes the transaction's rows the committed ones, an abort forgets them, and either gives back its locks only |
| RefundCeiling.LockedExactly | alembic/versions/a2e4c8b6d193_webhook_events_disputes_refund_limits.py:31 | over any run a payment is locked by exactly the transaction that has written an active refund of it and not ended since |
| RefundCeiling.InsertWaitsExactly | alembic/versions/a2e4c8b6d193_webhook_events_disputes_refund_limits.py:31 | over any run an active insert waits exactly while another transaction has written an active refund of its payment |
| RefundCeiling.StepKeeps | alembic/versions/a2e4c8b6d193_webhook_events_disputes_refund_limits.py:23-41 | every statement, commit and abort keeps the committed sums and every lock holder's view within the payments |
| RefundCeiling.OutsidersOnlyLower | alembic/versions/a2e4c8b6d193_webhook_events_disputes_refund_limits.py:28-31 | a transaction without the payment's lock can only have lowered that payment's refunds |
| RefundCeiling.AmountIsFixed | alembic/versions/e5b7d2a9c418_add_store_currency_and_order_currency.py:48-56 | no step changes the amount of a payment that exists |
| RefundCeiling.CommittedRefundsAreFixed | alembic/versions/f9c3b6e1d752_add_order_payment_lifecycle.py:55-71 | through any commit a refund keeps what it is for, and a succeeded or failed one its status |
| OrderGuards.FactsHold | alembic/versions/f9c3b6e1d752_add_order_payment_lifecycle.py:23-53 | over any run a refunded order has a succeeded refund, a cancelled one has released its stock, and restocked quantities are the sums of distinct events within the quantity |
| OrderGuards.OrdersMoveOnward | alembic/versions/f9c3b6e1d752_add_order_payment_lifecycle.py:25-35 | an order only moves forward: one that has left pending, paid and fulfilled never returns, and its release time and coupon are fixed |
| OrderGuards.UsesOnlyFall | app/modules/coupons/services/coupon_service.py:35-56 | among any existing orders those that use a coupon only become fewer, so a use is given back at most once |
| OrderGuards.PaidExactly | alembic/versions/f9c3b6e1d752_add_order_payment_lifecycle.py:36-40 | a statement leaves every paid or fulfilled order a succeeded payment exactly when it does not take the last one to another status or order |
| OrderGuards.PaidAllAlong | alembic/versions/f9c3b6e1d752_add_order_payment_lifecycle.py:36-40 | over a run paid and fulfilled orders have a succeeded payment all along exactly when no statement does that |
| OrderGuards.PaidCanLoseItsPayment | alembic/versions/f9c3b6e1d752_add_order_payment_lifecycle.py:36-40 | a run after which a paid order has no succeeded payment |
| OrderGuards.OrderTables.ChangeOrder | alembic/versions/f9c3b6e1d752_add_order_payment_lifecycle.py:23-53 | the guards in the order they raise accept exactly the five steps with what each needs, or no step, under the frozen fields; nothing else changes |
| OrderGuards.InsertsExactly | alembic/versions/f9c3b6e1d752_add_order_payment_lifecycle.py:78-104 | orders start pending with nothing released, items with nothing restocked, and payments and refunds need their order and an amount |
| OrderGuards.UpdatesExactly | alembic/versions/f9c3b6e1d752_add_order_payment_lifecycle.py:55-71 | a payment keeps amount and currency, a refund everything but a status that is not at an end |
| OrderGuards.OrderTables.AddRestock | alembic/versions/b4d8e2a6c915_product_variants_schema.py:190-195 | exactly a new event with a quantity that fits is stored and added to its item |
| StockLedger.RunKeeps | alembic/versions/b4d8e2a6c915_product_variants_schema.py:53-98 | every statement keeps stock, checks and ledger in agreement |
| StockLedger.LedgerAgrees | alembic/versions/b4d8e2a6c915_product_variants_schema.py:223-232 | after any run each stock is non-negative and the sum of its ledger deltas, and every row starts at that balance |
| StockLedger.LedgerGrows | alembic/versions/b4d8e2a6c915_product_variants_schema.py:86-98 | earlier ledger rows stay as they are |
| StockLedger.RowsMeet | alembic/versions/b4d8e2a6c915_product_variants_schema.py:402-403 | consecutive rows of one unit meet: after equals the next before |
| StockLedger.AdminRowsAreSigned | alembic/versions/b4d8e2a6c915_product_variants_schema.py:404-407 | over any run an admin row names its actor, and a reason it gives has at least three characters |
| StockLedger.AdminAccepted | alembic/versions/b4d8e2a6c915_product_variants_schema.py:404-407 | an admin change of a product's or variant's stock, by insert or update, that passes every other check is accepted exactly when it names its actor and gives no reason or a long enough one |
| StockLedger.TrimExactly | alembic/versions/b4d8e2a6c915_product_variants_schema.py:405 | trimming takes off the blanks at both ends and nothing else |
| StockLedger.OpeningLedger | alembic/versions/b4d8e2a6c915_product_variants_schema.py:454-461 | the back-fill opens exactly the existing products with stock, and its rows balance |
| StockLedger.StockTables.constructor | alembic/versions/b4d8e2a6c915_product_variants_schema.py:454-461 | after the migration stock and ledger agree |
| StockLedger.StockTables.NewProduct | alembic/versions/b4d8e2a6c915_product_variants_schema.py:223-224 | an inserted product is accepted exactly under the checks, its stock recorded from 0 under the announced kind or as initial |
| StockLedger.StockTables.NewVariant | alembic/versions/b4d8e2a6c915_product_variants_schema.py:227-228 | an inserted variant is accepted exactly under the checks, its stock recorded from 0 with its product |
| StockLedger.StockTables.SetProduct | alembic/versions/b4d8e2a6c915_product_variants_schema.py:225-226 | a product change is accepted exactly under the checks, a changed stock recorded from its old value |
| StockLedger.StockTables.SetVariantStock | alembic/versions/b4d8e2a6c915_product_variants_schema.py:229-230 | a variant's stock change is accepted exactly under the checks and recorded from its old value with its product |
| PriceRange.RangeUnique | alembic/versions/d2f6b9a4c731_product_price_range.py:31-46 | a product has one range, and from is at most to |
| PriceRange.RangeOfPrices | alembic/versions/d2f6b9a4c731_product_price_range.py:31-46 | the ends of the range are prices an active variant sells at, its own or else the product's, and all of them lie within |
| PriceRange.ProductPriceRange | alembic/versions/d2f6b9a4c731_product_price_range.py:31-46 | the aggregate is the lowest and highest effective price over active variants, the base price without options or active variants |
| PriceRange.PriceTables.InsertProduct | alembic/versions/d2f6b9a4c731_product_price_range.py:48-54 | inserting a product keeps every product's range current |
| PriceRange.PriceTables.UpdateProduct | alembic/versions/d2f6b9a4c731_product_price_range.py:48-54 | changing price or option count keeps every range current, and the option count is fixed while there are variants |
| PriceRange.PriceTables.InsertVariant | alembic/versions/d2f6b9a4c731_product_price_range.py:56-78 | inserting a variant keeps every range current and other products as they are |
| PriceRange.PriceTables.UpdateVariant | alembic/versions/d2f6b9a4c731_product_price_range.py:56-78 | changing a variant's price or status keeps every range current and other products as they are |
| PriceRange.PriceTables.DeleteVariant | alembic/versions/d2f6b9a4c731_product_price_range.py:56-78 | deleting a variant keeps every range current and other products as they are |
| PriceRange.BackfillRight | alembic/versions/d2f6b9a4c731_product_price_range.py:109-116 | the back-fill is right exactly for products without options or whose active variants all sell at the product's price |
| PriceRange.BackfillCanBeWrong | alembic/versions/d2f6b9a4c731_product_price_range.py:109-116 | a product the back-fill leaves with a wrong range |
| PriceRange.MoveExactly | alembic/versions/d2f6b9a4c731_product_price_range.py:82-87 | a variant moved without a summary leaves all ranges right exactly when its old product sells at both ends without it and its new product's range covers its price |
| PriceRange.MovedVariantLeavesStaleRange | alembic/versions/d2f6b9a4c731_product_price_range.py:82-87 | a move that leaves a range its old product no longer sells at |
| TokenFamilies.StepKeeps | app/modules/auth/services/auth_service.py:61-180 | login, refresh, logout and revocation keep the invariant of families, successors and reuse |
| TokenFamilies.FamilyBound | app/modules/auth/services/auth_service.py:77-162 | over any run a family has at most one unrevoked token plus one for each accepted grace replay |
| TokenFamilies.NoGraceNoReplays | app/modules/auth/services/auth_service.py:81-88 | with a window of 0, or no replays allowed, none is accepted and a family never has two unrevoked tokens |
| TokenFamilies.SuccessorBound | app/modules/auth/repositories/auth_repository.py:131-139 | over any run a token has at most one successor plus the allowed replays, all in its own family and for its own user |
| TokenFamilies.OnlyLiveTokensAreExchanged | app/modules/auth/services/auth_service.py:127-132 | over any run a token that has expired, or whose user is not active, gains no successor |
| TokenFamilies.RevokedAllExactly | app/modules/auth/repositories/auth_repository.py:115-117 | revoking all tokens of a user revokes those and changes nothing else |
| TokenFamilies.DeadIsRefused | app/modules/auth/services/auth_service.py:110-125 | any token of a family in which reuse was detected is refused as reuse |
| TokenFamilies.ReuseKillsForever | app/modules/auth/services/auth_service.py:110-125 | once reuse is detected, no later request adds a token to the family or leaves one unrevoked |
| TokenFamilies.LogoutLeaves | app/modules/auth/services/auth_service.py:167-180 | after logout with an unrevoked token at most one unrevoked token is left for each accepted replay |
| TokenFamilies.LogoutEndsWhen | app/modules/auth/services/auth_service.py:167-180 | a logout that nothing overlaps, with a token of any state, ends its family exactly when no other token of it is unrevoked |
| TokenFamilies.LogoutEndsExactly | app/modules/auth/services/auth_service.py:167-180 | requests one after the other: logout with an unrevoked token ends its family in every run exactly when the grace window or the number of replays is 0 |
| TokenFamilies.OldTokenLogsNobodyOut | app/modules/auth/services/auth_service.py:178-180 | for every setting, a run after which logout with a rotated token leaves the family usable |
| TokenFamilies.LogoutCanLeaveTheFamily | app/modules/auth/services/auth_service.py:167-180 | for every setting that grants replays, a run after which logout leaves a usable token in the family |
| TokenFamilies.TokenTable.IssueTokens | app/modules/auth/services/auth_service.py:61-75 | a login's new family has exactly the new token, unrevoked, and every other family keeps the unrevoked tokens it had |
| TokenFamilies.TokenTable.IsBenignReplay | app/modules/auth/services/auth_service.py:77-89 | the early returns decide exactly the benign replays |
| TokenFamilies.TokenTable.RefreshPair | app/modules/auth/services/auth_service.py:91-162 | a pair is issued exactly for a stored, unexpired refresh token of an active user that is unrevoked or benignly replayed; the family is revoked exactly on reuse; every field of every row is stated |
| TokenFamilies.TokenTable.LogoutToken | app/modules/auth/services/auth_service.py:167-180 | logout revokes the presented token and nothing else |
| TokenRaces.PerformKeeps | app/modules/auth/repositories/auth_repository.py:65-77 | every statement and commit of overlapping requests keeps the families' invariant, and a decision stays good while its row is locked |
| TokenRaces.UndisturbedRefresh | app/modules/auth/services/auth_service.py:91-162 | a refresh in its separate steps that nothing overlaps comes to the refresh in one piece |
| TokenRaces.UndisturbedRevocations | app/modules/auth/services/auth_service.py:167-180 | so do a logout and the revocation of a user's tokens |
| TokenRaces.OverlappingFamilyBound | app/modules/auth/services/auth_service.py:91-162 | even when requests overlap a family has at most one unrevoked token plus one for each accepted replay |
| TokenRaces.OverlappingSuccessorBound | app/modules/auth/repositories/auth_repository.py:65-77 | even when requests overlap a token has at most one successor plus the allowed replays |
| TokenRaces.DeadExactly | app/modules/auth/repositories/auth_repository.py:141-146 | no continuation ever brings a family an unrevoked token exactly when it has none and no granted replay is on its way |
| TokenRaces.ReuseEndsExactly | app/modules/auth/repositories/auth_repository.py:148-155 | a revocation's commit leaves a family dead exactly when every token unrevoked then was unrevoked when it started and no granted replay is on its way |
| TokenRaces.AloneReuseEnds | app/modules/auth/services/auth_service.py:110-125 | without overlapping requests reuse detection always ends its family |
| TokenRaces.RotationOutlivesReuse | app/modules/auth/services/auth_service.py:121-124 | for every setting, an overlapping rotation whose new token survives the revocation |
| TokenRaces.LogoutEndsExactly | app/modules/auth/services/auth_service.py:178-180 | whatever others do between a logout's unlocked read and its commit, the family is dead exactly when no token but the one read as unrevoked is unrevoked then and no granted replay is on its way |
| TokenRaces.LogoutAtOnce | app/modules/auth/services/auth_service.py:178-180 | a logout that nothing comes between, beside any open requests: the family is dead exactly when no other token is unrevoked and no granted replay is on its way |
| TokenRaces.AloneLogoutEnds | app/modules/auth/services/auth_service.py:167-180 | after any overlapping past, with no request open, logout with an unrevoked token ends a family that was granted no replay |
| TokenRaces.RotationOutlivesLogout | app/modules/auth/services/auth_service.py:178-180 | for every setting, a refresh that commits between a logout's read and its update, so that the family stays usable |
| InvoiceNumbers.FiscalYearOfDay | app/modules/invoices/services/invoice_service.py:36-39 | a day lies from April of its start year to the next March, and two days share a year exactly when they share that period |
| InvoiceNumbers.FiscalYearText | app/modules/invoices/services/invoice_service.py:36-43 | the slices of a financial year's text are the last two digits of its two years |
| InvoiceNumbers.NumberText | app/modules/invoices/services/invoice_service.py:42-43 | a number reads prefix, last two digits of both years, a slash, and the sequence number with at least six digits |
| InvoiceNumbers.NumbersEqual | app/modules/invoices/services/invoice_service.py:42-43 | two numbers are equal exactly when prefix, year within the century and sequence number are |
| InvoiceNumbers.NumberLength | app/modules/invoices/services/invoice_service.py:42-43 | a number has at most 16 characters exactly while its sequence number has the width the prefix leaves, always up to 999999 |
| InvoiceDesk.TransactionKeeps | app/modules/invoices/services/invoice_service.py:135-183 | every transaction keeps the desk sound, however stale its reading and however it ends |
| InvoiceDesk.NumbersAreConsecutive | app/modules/invoices/services/invoice_service.py:59-67 | over any run the committed numbers of a series are exactly 1 to its last value, one document each, and an order has at most one document of each kind |
| InvoiceDesk.RunsKeep | app/modules/invoices/services/invoice_service.py:175-183 | over any run every credit note stands against an earlier invoice of its order and no number exceeds 16 characters |
| InvoiceDesk.OneDocument | app/modules/invoices/services/invoice_service.py:135-150 | a transaction commits nothing, or one document and one step of its own counter |
| InvoiceDesk.DocumentsStay | app/modules/invoices/models/guard.py:7-13 | issued documents never change and counters never go back |
| InvoiceDesk.AskedAgain | app/modules/invoices/services/invoice_service.py:159-161 | a document asked for again, at any later time, is the one already issued |
| InvoiceDesk.InvoiceAnswered | app/modules/invoices/services/invoice_service.py:153-172 | a request for an invoice is answered by the one in sight, by none or an explanation for demo and non-GST orders, by a refusal for unpaid ones, and else by an attempt |
| InvoiceDesk.CreditNoteAnswered | app/modules/invoices/services/invoice_service.py:175-183 | a request for a credit note is answered by none without an invoice, by the one in sight, and else by an attempt against that invoice |
| InvoiceDesk.AttemptExactly | app/modules/invoices/services/invoice_service.py:135-150 | which obstacle refuses an attempt, and the whole row and counter when there is none |
| InvoiceDesk.IssuedExactly | app/modules/invoices/services/invoice_service.py:135-150 | exactly when a document is issued: profile, document, width and the order's first of its kind decide, never the number |
| InvoiceDesk.NumbersNeverClash | app/modules/invoices/models/invoice.py:38 | in a run within a century whose prefix is never CN no transaction finds its number taken |
| InvoiceDesk.SeriesDetermines | app/modules/invoices/services/invoice_service.py:142 | a series name stands for one document type in one financial year |
| InvoiceDesk.TakenExactly | app/modules/invoices/models/invoice.py:38 | within a century a next number is taken exactly when a document of the other type prints it, same prefix, year and sequence number |
| InvoiceDesk.CnPrefixRefused | app/modules/invoices/services/invoice_service.py:141-143 | with the prefix CN the type of document that is behind in its year is refused, because its number is taken unless something else goes wrong first |
| InvoiceDesk.CnPrefixStalls | app/modules/invoices/models/business_profile.py:18 | from such a state no run with the prefix CN issues another document of that type and year |
| InvoiceDesk.CnPrefixReached | app/modules/invoices/models/business_profile.py:18 | two transactions reach such a state for invoices: the next one finds its number taken |
| InvoiceDesk.CnCreditNoteRefused | app/modules/invoices/models/business_profile.py:18 | one transaction reaches it for credit notes: that of the year's first invoice finds its number taken |
| InvoiceDesk.InvoiceTables.NextSequence | app/modules/invoices/services/invoice_service.py:59-67 | the upsert returns the number after the last one and moves that series only |
| InvoiceDesk.InvoiceTables.IssueDocument | app/modules/invoices/services/invoice_service.py:135-150 | the steps up to the insert issue or refuse as specified |
| InvoiceDesk.InvoiceTables.IssueInvoice | app/modules/invoices/services/invoice_service.py:153-172 | existing, demo, non-GST and unpaid orders are answered as specified, explicitly asked for or not |
| InvoiceDesk.InvoiceTables.IssueCreditNote | app/modules/invoices/services/invoice_service.py:175-183 | no invoice means no credit note, an existing one is returned |
| InvoiceDesk.InvoiceTables.Transact | app/modules/invoices/services/invoice_service.py:59-61 | a refusal or rollback leaves both tables, counters included, as they were |
| Words.WordsCanBeRead | app/modules/invoices/services/words.py:22-34 | a reader of Crore, Lakh, Thousand and Hundred recovers every number below 100 crore, and from there on there are no words but an index error |
| Words.WordsAreInjective | app/modules/invoices/services/words.py:22-34 | different numbers have different words |
| Words.AmountCanBeRead | app/modules/invoices/services/words.py:37-44 | the words of a rupee amount give back its paise |
| Words.BelowTwenty | app/modules/invoices/services/words.py:3-4 | the words from Zero to Nineteen |
| Words.WholeTens | app/modules/invoices/services/words.py:5 | the words from Twenty to Ninety |
| Words.TensThenOnes | app/modules/invoices/services/words.py:8-9 | between them the tens come first, then the ones |
| Words.LargestSizeFirst | app/modules/invoices/services/words.py:12-34 | a number is spelled as the count of its largest size, the size, and the words of the rest if there is one |
| Words.SpellBelowThousand | app/modules/invoices/services/words.py:12-19 | the appended parts joined are the specified words |
| Words.SpellNumber | app/modules/invoices/services/words.py:22-34 | the loop over the sizes builds the specified words or fails with them |
| Words.SpellAmount | app/modules/invoices/services/words.py:37-44 | the extended text is the specified one, empty for another currency |
| Inr.FiguresCanBeRead | app/modules/invoices/services/render.py:10-26 | for every integer, erasing sign, commas and dot leaves the digits of the amount, which read back to it |
| Inr.CommaPlaces | app/modules/invoices/services/render.py:17-25 | counted from the right, commas stand at the third place and every third after it: groups of three, then of two digits |
| Inr.MarkPlaces | app/modules/invoices/services/render.py:10-26 | a sign in front exactly of negative amounts, the point before the last two digits, commas as in the rupees, and digits everywhere else |
| Inr.FirstDigitFirst | app/modules/invoices/services/render.py:17-25 | grouping never puts a comma in front |
| Inr.FiguresAreInjective | app/modules/invoices/services/render.py:10-26 | different amounts print differently, and none like a missing one |
| Inr.PrintFigures | app/modules/invoices/services/render.py:10-26 | the loop that cuts pairs off the head builds the specified text |
| CartMerge.MergeConserves | app/modules/cart/repositories/cart_repository.py:129-154 | merged lines have unique keys and, for every product and variant, exactly the quantities of both sides together |
| CartMerge.MergeKeepsPrices | app/modules/cart/repositories/cart_repository.py:141-153 | lines already in the cart keep place and price, new lines carry the price of the first line that brought them |
| CartMerge.MergedSize | app/modules/cart/repositories/cart_repository.py:139-153 | a merge adds one line for each key the cart lacked, without an upper limit |
| CartMerge.MergeIntoEmpty | app/modules/cart/services/cart_service.py:178-183 | merging into an empty cart gives the guest's lines as they are |
| CartMerge.HandoverIsMerge | app/modules/cart/repositories/cart_repository.py:81-91 | handing the guest cart over gives what merging it into an empty cart would |
| CartMerge.LoginConserves | app/modules/cart/services/cart_service.py:160-190 | after a login the user has the quantities of both carts, the guest cart is gone, and nobody else's cart has changed |
| CartMerge.MergeItems | app/modules/cart/repositories/cart_repository.py:129-154 | changing rows in place through the dictionary gives the merged lines, creates only fresh rows and leaves the incoming ones untouched |
| CartMerge.CartTables.ReassignToUser | app/modules/cart/repositories/cart_repository.py:81-91 | the guest's rows become the user's cart unchanged |
| CartMerge.CartTables.DeleteCart | app/modules/cart/repositories/cart_repository.py:176-178 | deleting a cart removes it and leaves every other cart's lines |
| CartMerge.CartTables.MergeGuestCartIntoUser | app/modules/cart/services/cart_service.py:160-190 | with no guest cart nothing changes; otherwise everyone's carts are as specified |
| CartDigest.DigestIsCanonical | app/modules/cart/services/cart_digest.py:8-11 | two carts have the same text to hash exactly when they hold the same multiset of product, variant or 0, and quantity |
| CartDigest.SortSorts | app/modules/cart/services/cart_digest.py:10 | the sorted parts are in order and are the same parts |
| CartDigest.KeyTextDetermines | app/modules/cart/services/cart_digest.py:10 | one line's text determines product, variant and quantity |

## Left out

- Decimal precision: the 28-digit context of `Decimal` and integer overflow of totals; amounts are exact.
- Allocation.Allocate: negative totals or weights, which the source rules out in a comment (`gst_calc.py:75`).
- GstCalculate.Calculate: negative line values and shipping; `CouponToTax` shows that orders from coupons have none.
- GstCalculate.RoundOffByLine: rates whose sum exceeds 100%, which stored rules exclude; `SlabRoundOffGeneral` covers them.
- TaxEngine.CalculateTax: a line discount above the line's value, which `share_discount` never gives and the order tables refuse (`order_item.py:47`); choosing the configuration and registration, delivery country and state, the snapshot's text; they enter as parameters or not at all.
- The flat interim and the unconfigured tax engine: one percentage, and a refusal.
- JobRuns.ReclaimedAfterLease: speaks of claim times by each transaction's clock reading, not of when a handler really starts or stops.
- JobRuns.NoStrandedJob: says a step is possible, not that a worker takes it.
- Schedule.NoBucketSkipped: clocks that jump and ticks that fail; times are whole units.
- ResponseCache.ConditionsExactly: is about sets of conditions over all runs; a run that breaks a condition need not go wrong, as no later read may meet the old entry.
- ResponseCache.NoStaleAnswer: covers writes whose INCR ran; a write whose INCR never reached Redis promises nothing. Two entry keys never collide in their hash, entry and version reads are one MGET, the processes share one clock that never steps back, and Redis never returns to an older version value (a restored snapshot is no step).
- The cache's failure cooldown, bypass and replay of several namespaces: availability, not freshness. The cache and the concurrent refunds are state machines on values, not objects.
- RefundCeiling.RefundsWithinPayment: deletes, the one-in-flight index, and the uniqueness of idempotency keys are not modelled; the last two only refuse more.
- OrderGuards.FactsHold: statements are serial, the cumulative refund limit only refuses more of them, deletes and direct writes to `restocked_quantity` are no statements, and orders start pending.
- StockLedger.LedgerAgrees: deletes, truncation, and writes with the guard switched off other than the opening back-fill; reference checks of actor and order.
- PriceRange.PriceTables.UpdateVariant: the variant's product stays the same; moving it is shown to leave a stale range. Direct writes to the summary columns are not modelled.
- TokenFamilies.FamilyBound: each request is one atomic transaction; `TokenRaces` lets requests overlap and states what is left of the bounds and of reuse detection.
- TokenFamilies.ReuseKillsForever: requests are atomic here; `TokenRaces.ReuseEndsExactly` says what overlapping requests leave alive.
- TokenFamilies.LogoutEndsExactly: requests are atomic here and the token is unrevoked; `LogoutEndsWhen` covers other tokens and `TokenRaces.LogoutEndsExactly` overlapping requests.
- TokenRaces.PerformKeeps: a revocation or logout takes the rows it waits for all at once when it commits; deadlocks only end a transaction.
- JWT, password hashing and the access token: a presented token is its type and jti, or cannot be decoded; audit records are not modelled.
- InvoiceDesk.TransactionKeeps: one document for each transaction; the document's contents are a step that succeeds or fails.
- InvoiceDesk.NumbersNeverClash: financial years from 1000 to 9998, and prefixes of at most five characters as the profile's check demands.
- Words.AmountCanBeRead: negative amounts, which no document has.
- CartMerge.LoginConserves: one request at a time. The rows are not locked and a quantity is written as read plus added, so an addition or a second login with the same guest cart that overlaps can lose or double quantities.
- CartMerge.MergeItems: row ids, and rows whose quantity the database would refuse; the dictionary's rows are those the caller loaded.
- CartMerge.CartTables.ReassignToUser: a cart is its rows under its owner's name, so that the cart row itself stays the same one is not stated.
- CartDigest.DigestIsCanonical: stops at the text; SHA-256 is assumed to tell texts apart.
- Stock and availability checks of `add_item`, addresses, permissions, pagination, GraphQL, e-mail, images, payment adapters and HTTP routing: finite tables or plumbing.

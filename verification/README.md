# Verified model of the booking marketplace's backend

The backend lets customers book sports facilities: it turns opening hours into priced slots,
commits bookings under concurrency, takes payments through providers that deliver events at
least once, keeps a double-entry ledger for its partners, and runs loyalty points, disputes,
reports and search ranking beside that. This project models those parts in Dafny and proves what
they promise, and where they do not keep a promise it proves exactly when they do.

`dafny verify dfyconfig.toml` checks the whole project.

## What is modelled

- **Slots, prices and bookings.** `Intervals` is the interval algebra, `Pricing` the fifteen-minute
  price loop, `Availability` the day's slots, `Bookings` the booking service as transactions over
  tables, with the rows that calls have read kept in sessions and possibly stale, and `Bookable`
  the link between what is offered and what can be booked.
- **The ledger.** `Ledger` holds the tables and transactions of the finance, payout and settlement
  services, `Finance` the services themselves as a class, `Postings` what each transaction moves
  between accounts, `Accounting`, `Settlements` and `Refunds` the laws of all runs, `Reconciliation`
  the report and what a healthy one means. `Sums` adds up rows.
- **Events.** `PaymentFlow` cuts every payment call at each separate write; `Payments` and
  `Webhooks` are the services run without interruption on a shared database, and `Outcomes` what each
  call leaves behind, field by field; `Delivery` interleaves
  calls, losing them between any two writes, and shows that every such run is a run of the ledger;
  `Confirmation`, `Processing`, `Statuses` and `CaptureNotices` hold what survives repetition, and
  exactly when the rest fails; `LostEvents` runs the failures. `Loyalty` and `Disputes` are the
  keyed point ledger and the resolutions that may be reopened.
- **Two smaller parts.** `Csv` prints and reads back reports; `Ranking` is the diversity filter.

Conventions: time is an integer number of milliseconds in a zone of fixed offset, intervals are
half-open, money is integer paise and percentages are basis points. The price of a span is in paise
times milliseconds per hour, not rounded. A transaction body is one atomic step, and an exception
leaves the tables as they were. Unique columns are keys. Methods of classes are single calls; their
contracts equate the new state with the specification's, about which the lemmas speak.

## Where code and expectation differ

- A booking accepted on a stale read becomes active again, since `accept` writes without looking at
  the status once more. `NeverReactivatedIff` says exactly when a booking is revived,
  `NoDoubleBookingIff` exactly when a run double-books, and `StaleAcceptDoubleBooks` is such a run;
  the exclusion constraint of the database (modelled by the switch `guarded`) forbids the overlap but
  is wider than the service's own check: its comment speaks of pending and confirmed rows, its
  condition of all rows that are not cancelled (`BookableUnderConstraintIff`).
- Cancels, reschedules and check-ins judge by the row they read before their transaction too, so that
  a booking cancelled meanwhile can still be checked in (`StaleCalls`).
- A rule that begins or ends inside a fifteen-minute step is priced as if it did so at the next step
  (`OffGridDiffers`); `ExactIffRateStable` says exactly when prices are exact. A rule is still valid at
  its last instant `effectiveTo`, so it is the instant after it that has to be on the grid. A comment
  in the price loop speaks of thirty minutes, the code uses fifteen.
- Refunds may exceed a payment by one paisa, so a full refund of a single paisa can be repeated
  (`FullRefundReplay`, `OnePaisaRefundedTwice`, `PaisaRefundedTwice`).
- The fixed fee of a commission is never reversed by refunds; drift is bounded around it.
- A payout that is both completed and failed, or resolved on a stale status, is counted twice on
  PAYOUT_PENDING (`PendingTruthfulIff`, `ResolvedTwice`).
- A partial refund makes an unfiltered reconciliation unhealthy (`HealthyReachableIff`,
  `PartialRefundIsUnhealthy`, `PartlyRefunded`).
- PROCESSED does not imply recorded (`ProcessedMeansRecordedIff`): not when a worker is lost between
  capture and ledger (`CrashLosesTheRecord`), nor when the ledger refuses to reverse a payment that
  was captured without being recorded and the refund event is retried (`RetryLosesTheRefund`).
- The older callback announces captures that its transaction refused, and the listener records them
  (`RecordedMeansChargedIff`, `UnchargedNoticeOrigin`), so that payments are recorded that were
  cancelled or refunded and never captured (`CancelledIsRecorded`, `RefundedIsRecorded`).
- Worker, checkout and provider reconciliation can capture a payment that failed, was cancelled or
  was refunded (`CaptureFollowsTableIff`, `CancelledIsCaptured`), and worker and callback refund
  payments that were never captured. `StatusesFollowTableIff` says exactly which runs keep to the table.
- A booking can be charged twice, once by each of two providers, since an open order with another
  provider does not count as paid (`ChargedOnceIff`, `PayBothProviders`).
- Recurring blocks that run past midnight do not block the next day, and bookings after midnight do
  not block hours that run past it (`OnlyYesterdaysBlockMeetsFree`, `BookedMidnightIsFree`).
- A partial refund decided in a dispute refunds the whole payment (`RefundIsRequestedIff`,
  `PartRefundsAll`), and a reopened dispute can record goodwill that was not credited
  (`WrittenGoodwillTruthfulIff`, `DecidedTwice`).

## Model

| member | source | states |
|---|---|---|
| `Intervals.OverlapsIffShareInstant` | backend/src/common/utils/time-interval.util.ts:13-15 | two intervals overlap if and only if they share an instant |
| `Intervals.ContainsIffSubset` | backend/src/common/utils/time-interval.util.ts:17-19 | one interval contains another if and only if every instant of the other is its own |
| `Intervals.Subtract` | backend/src/common/utils/time-interval.util.ts:25-43 | the pieces left cover exactly the difference, are proper intervals, and are in order |
| `Intervals.Merge` | backend/src/common/utils/time-interval.util.ts:65-87 | sort and sweep ends in the reference union, which absorbs the intervals one at a time in any order |
| `Intervals.UnionCanonical` | backend/src/common/utils/time-interval.util.ts:62-87 | that union covers exactly the instants of its inputs and is sorted with a strict gap between neighbours |
| `Intervals.CanonicalUnique` | backend/src/common/utils/time-interval.util.ts:62-87 | two lists in that form that cover the same instants are the same list |
| `Intervals.MergeDeterminedByCover` | backend/src/common/utils/time-interval.util.ts:62-87 | inputs with the same union are merged to the identical list, and merging again changes nothing |
| `Intervals.SubtractMany` | backend/src/common/utils/time-interval.util.ts:48-60 | each interval to subtract is applied to every surviving piece in turn |
| `Intervals.CarveAllExact` | backend/src/common/utils/time-interval.util.ts:45-60 | on a canonical source the result is exact set difference and stays canonical |
| `Intervals.CarveAllOrderIndependent` | backend/src/common/utils/time-interval.util.ts:45-60 | two subtract lists with the same union leave the identical list: order and duplicates do not matter |
| `Pricing.FirstMatchIsHighest` | backend/src/availability/pricing.service.ts:49-49 | the first match in priority order is an active matching rule of highest priority, and none is found only when none matches |
| `Pricing.PrefilterKeepsBest` | backend/src/availability/pricing.service.ts:32-50 | the effective-date condition of the query never changes which rule is found inside the span |
| `Pricing.InForceIff` | backend/src/availability/pricing.service.ts:112-139 | read off the local calendar, a rule is in force on its weekdays, from the minute its window opens to the one it closes counted around the clock, from its first instant through its last |
| `Pricing.WindowsPartition` | backend/src/availability/pricing.service.ts:121-130 | two rules on every day whose windows take turns: exactly one is found at every instant, whichever window runs overnight |
| `Pricing.OffDaysIgnored` | backend/src/availability/pricing.service.ts:116-119 | a span wholly on other weekdays is quoted as if the rule were not in the table |
| `Pricing.FetchedIff` | backend/src/availability/pricing.service.ts:32-50 | a rule is fetched exactly if it is active and valid at some instant of the span, and the order of the table is kept |
| `Pricing.QuoteFailsIff` | backend/src/availability/pricing.service.ts:80-83 | pricing fails if and only if some step of the span has no matching rule |
| `Pricing.QuoteAdditive` | backend/src/availability/pricing.service.ts:68-108 | splitting at any multiple of fifteen minutes gives parts that add up, and the whole is priced exactly when both parts are |
| `Pricing.QuoteRefinesInstantPrice` | backend/src/availability/pricing.service.ts:68-140 | when the active rules begin and cease to match on the grid from the start only, pricing succeeds exactly where every instant has a rule, and the stepwise price is the sum over all instants of the rate in force |
| `Pricing.AlignedChangesOnGrid` | backend/src/availability/pricing.service.ts:112-139 | a rule changes on the grid only when both ends of its window, its dates and, if its days end at midnight, midnights are whole steps away from the start, overnight windows and steps across midnight included |
| `Pricing.QuarterHoursAlign` | backend/src/availability/pricing.service.ts:71-75 | windows on quarter hours are aligned with every start on a local quarter hour |
| `Pricing.ExactIffRateStable` | backend/src/availability/pricing.service.ts:75-85 | the stepwise price equals the instant-by-instant one on all prefixes, failures included, if and only if up to the first instant without a rule no rate changes inside a step |
| `Pricing.OffGridDiffers` | backend/src/availability/pricing.service.ts:73-85 | a span whose price differs from the instant-by-instant price because a rule begins inside a step |
| `Pricing.CalculatePrice` | backend/src/availability/pricing.service.ts:52-108 | the loop returns the quote, a breakdown that is exact for it and sums to the total, the currency of the first rule, or the exact error |
| `Pricing.BreakdownTiles` | backend/src/availability/pricing.service.ts:88-99 | breakdown entries tile the span without gap or overlap, and no two neighbours share a rule name |
| `Pricing.BreakdownHonest` | backend/src/availability/pricing.service.ts:88-99 | every entry is a run of steps that carry its rule name, priced at what those steps cost |
| `Pricing.BreakdownTotal` | backend/src/availability/pricing.service.ts:86-91 | the entries add up to the price of the span |
| `Availability.GridIsPacking` | backend/src/availability/availability.service.ts:144-173 | slots are disjoint, in order, of the exact duration and inside the free time |
| `Availability.FreeIff` | backend/src/availability/availability.service.ts:56-141 | an instant is free if and only if an open row of that weekday holds it, no fixed block or booking that meets the day does, and no recurring block of that weekday does |
| `Availability.ShutDayIsEmpty` | backend/src/availability/availability.service.ts:56-79 | there is something to offer from if and only if the weekday has a row that is not closed |
| `Availability.ProperIff` | backend/src/availability/availability.service.ts:83-139 | the subtraction is refused if and only if a fixed block or booking that meets the day does not begin before it ends |
| `Availability.GridOptimal` | backend/src/availability/availability.service.ts:144-173 | no set of disjoint spans of the duration inside the free time is larger than the slot grid |
| `Availability.CollectHours` | backend/src/availability/availability.service.ts:56-75 | base intervals are the day's opening periods that are not closed, the next day's closing time for overnight ones |
| `Availability.CollectRemoved` | backend/src/availability/availability.service.ts:109-139 | what is subtracted is recurring blocks of the day, then fixed blocks and active bookings that meet the calendar day |
| `Availability.SlotsOf` | backend/src/availability/availability.service.ts:146-173 | the loop over one interval offers exactly its grid starts that can be priced, each with its quote |
| `Availability.GetAvailability` | backend/src/availability/availability.service.ts:55-182 | the answer is exactly the priced grid of the free time; it is empty on a weekday without an open row, and an error exactly when the venue is open and a block or booking that meets the day is degenerate |
| `Bookable.FreeAvoidsEverything` | backend/src/availability/availability.service.ts:83-141 | free time meets no booking, no fixed block and none of the day's own recurring blocks, whatever the date window of the queries left out; with hours past midnight, none that begins before it |
| `Bookable.OnlyYesterdaysBlockMeetsFree` | backend/src/availability/availability.service.ts:111-123 | an occurrence of a recurring block on any day meets the free time of same-day hours only if it is yesterday's and runs past midnight |
| `Bookable.YesterdaysBlockIsFree` | backend/src/availability/availability.service.ts:111-123 | such an occurrence that does: yesterday's block from 22:00 to 02:00 leaves midnight free |
| `Bookable.BookedMidnightIsFree` | backend/src/availability/availability.service.ts:99-106 | opening hours from 22:00 to 02:00 leave a booked midnight free |
| `Bookable.SlotIsFree` | backend/src/availability/availability.service.ts:143-174 | an offered slot lies in the free time, has the exact duration, and carries its exact quote |
| `Bookable.AnswersIff` | backend/src/bookings/bookings.service.ts:127-135 | the availability call inside a booking answers unless the venue is open that weekday and a block or booking that meets the day is degenerate |
| `Bookable.OfferedSlotIsBookable` | backend/src/bookings/bookings.service.ts:87-172 | an offered future slot passes the overlap check and the availability call of create in that state and is stored PENDING at the quoted price |
| `Bookable.BookableUnderConstraintIff` | backend/prisma/migrations/20260817120000_harden_booking_concurrency/migration.sql:8-11 | under the exclusion constraint it is stored if and only if no rejected, checked-in, no-show or completed row overlaps it |
| `Bookable.SlotOnItsDay` | backend/src/bookings/bookings.service.ts:127-135 | an offered slot starts on the day it is offered for, and the availability call inside a booking of it answers |
| `Bookable.AvailableIffOffered` | backend/src/bookings/bookings.service.ts:391-400 | the verdict of a reschedule holds if and only if an offered slot of the new duration starts at the new start; covering slots add nothing |
| `Bookable.RescheduledIffOffered` | backend/src/bookings/bookings.service.ts:363-415 | an active booking is moved to a future span at an allowed price if and only if an offered slot starts there, and only its span and price change |
| `Bookable.BookedSlotNotOffered` | backend/src/availability/availability.service.ts:99-106 | while a booking is active no slot that overlaps it is offered, for any day, duration and blocks, with same-day hours; with hours past midnight, if it begins before that midnight |
| `Bookable.OfferIsOptimal` | backend/src/availability/availability.service.ts:143-174 | when every slot prices, the offered slots are a largest packing of the free time |
| `Bookings.NoDoubleBookingIff` | backend/src/bookings/bookings.service.ts:97-175 | in any interleaving of stale reads and commits active bookings of a facility stay pairwise disjoint throughout if and only if every accept that takes effect lands on an active row or on one whose span no other active booking holds |
| `Bookings.NoDoubleBooking` | backend/src/bookings/bookings.service.ts:431-439 | in particular there is no double booking when every accept lands on a row that is still active |
| `Bookings.DisjointIffHeldOnce` | backend/src/bookings/bookings.service.ts:108-125 | active bookings are disjoint if and only if no instant of a facility is held by two pending or confirmed bookings |
| `Bookings.CreatedIff` | backend/src/bookings/bookings.service.ts:53-175 | a booking is made exactly for a priced span that is not in the past, and then either the key is the requester's own and nothing changes, or nobody holds the facility at any instant of it |
| `Bookings.CancelledIff` | backend/src/bookings/bookings.service.ts:264-299 | a cancel that takes effect cancels the booking and exactly its payments that were neither captured nor refunded |
| `Bookings.MovedIff` | backend/src/bookings/bookings.service.ts:321-418 | a booking is moved exactly if it is pending or confirmed, the new span is priced, not in the past, no dearer once paid, offered, and held by nobody else |
| `Bookings.StatusSetIff` | backend/src/bookings/bookings.service.ts:431-561 | accept, reject, no-show and complete: the statuses in which each finds the booking and the one in which it leaves it |
| `Bookings.CheckedInIff` | backend/src/bookings/bookings.service.ts:475-515 | a check-in needs a booking seen confirmed and never checked in, and writes status and check-in together |
| `Bookings.CapturedIff` | backend/src/payments/payments.service.ts:175-207 | a capture marks the payment, confirms its booking if that is pending, and changes nothing else |
| `Bookings.PaymentOpenedIff` | backend/src/payments/payments.service.ts:72-134 | a payment is opened as INITIATED for a booking that exists, under a new id |
| `Bookings.ReadSees` | backend/src/bookings/bookings.service.ts:327-356 | a call keeps the row as it was read, and whether any captured payment had paid it |
| `Bookings.PaidPriceNeverRises` | backend/src/bookings/bookings.service.ts:350-358 | reading and then rescheduling a booking with a captured payment never raises its price |
| `Bookings.StaleCalls` | backend/src/bookings/bookings.service.ts:485-515 | a call judges by the row it saw: a stale check-in checks in even a booking cancelled meanwhile |
| `Bookings.LifeStep` | backend/src/bookings/bookings.service.ts:27-43 | calls that see the row as it is move a booking along seven changes of status only |
| `Bookings.EndedStays` | backend/src/bookings/bookings.service.ts:27-43 | over such runs a booking that is cancelled, rejected, completed or a no-show stays so |
| `Bookings.KeyBooksOnce` | backend/src/bookings/bookings.service.ts:60-85 | however often a request is repeated, its idempotency key makes one booking |
| `Bookings.NeverReactivatedIff` | backend/src/bookings/bookings.service.ts:431-449 | no booking ever becomes active again if and only if every accept that takes effect lands on a row that is still active |
| `Bookings.AtomicAcceptsAreFresh` | backend/src/bookings/bookings.service.ts:431-439 | when every accept is one atomic call no booking is revived and no run double-books, without any further condition |
| `Bookings.CancelCaptureCommute` | backend/src/bookings/bookings.service.ts:273-299 | a cancel and a capture of one of its payments end in the same tables in either order: booking cancelled, that payment captured, each other payment that was neither captured nor refunded cancelled, the rest as they were |
| `Bookings.StaleAcceptDoubleBooks` | backend/src/bookings/bookings.service.ts:431-439 | without the constraint an accept on a stale read double-books: a concrete run |
| `Bookings.ConstraintForbidsOverlap` | backend/prisma/migrations/20260817120000_harden_booking_concurrency/migration.sql:4-11 | with the exclusion constraint every run is free of overlaps, stale accepts included |
| `Bookings.RunWellFormed` | backend/src/bookings/bookings.service.ts:53-55 | in every run all bookings start before they end and what a call has read agrees on the facility |
| `Bookings.BookingsService.Create` | backend/src/bookings/bookings.service.ts:53-175 | one create call ends in the tables of its transaction or reports its fault and changes nothing |
| `Bookings.BookingsService.Cancel` | backend/src/bookings/bookings.service.ts:264-299 | one cancel call, with the status re-check and the voiding of payments that were not captured |
| `Bookings.BookingsService.Reschedule` | backend/src/bookings/bookings.service.ts:321-418 | one reschedule call, with the paid-price rule, the overlap and availability checks and the status re-check |
| `Bookings.BookingsService.SetStatus` | backend/src/bookings/bookings.service.ts:431-561 | accept, reject, no-show and complete: a check on the row read earlier, then a blind write |
| `Bookings.BookingsService.CheckIn` | backend/src/bookings/bookings.service.ts:485-515 | a check-in writes status and check-in row together, and a repeated one changes nothing |
| `Bookings.BookingsService.Capture` | backend/src/payments/payments.service.ts:175-210 | a capture confirms the booking if and only if it is still pending |
| `Ledger.RunSound` | backend/src/finance/finance.service.ts:66-263 | in every run keys are unique, rows have their shape, entries are the postings of their transactions and sum to zero per transaction |
| `Ledger.PaymentTxUnique` | backend/src/finance/finance.service.ts:74-81 | a payment has at most one PAYMENT transaction |
| `Accounting.EveryTransactionBalances` | backend/src/finance/finance.service.ts:111-143 | every transaction of every run balances, payout completions and failures included, and a PAYMENT has exactly its three entries |
| `Accounting.BalanceIsNetOfTransactions` | backend/src/finance/finance.service.ts:349-370 | the available balance is the net effect of all transactions plus what failed payouts gave back |
| `Accounting.SettlementsAndPayoutsAgree` | backend/src/finance/settlement.service.ts:21-78 | settlements hold exactly the net of settled transactions, and payout rows what payout transactions drew |
| `Accounting.BalanceConserved` | backend/src/finance/settlement.service.ts:35-75 | available balance = settlement nets + unsettled net + adjustments - payouts initiated + payouts restored, in every run |
| `Accounting.SettlementHoldsItsTransactions` | backend/src/finance/settlement.service.ts:38-75 | the net of a settlement is the net of the transactions linked to it, ever after |
| `Accounting.SettledOnceForAll` | backend/src/finance/settlement.service.ts:22-29 | a settled transaction stays in its settlement and a settlement never changes, whatever the date ranges |
| `Settlements.SettledIff` | backend/src/finance/settlement.service.ts:12-75 | a settlement of a proper range is made exactly when an unlinked transaction of the organisation lies in it; it links those and no others |
| `Settlements.NothingLeft` | backend/src/finance/settlement.service.ts:22-75 | right after a settlement no unlinked transaction of the organisation is left in its range, and the same call is refused |
| `Settlements.RunLinksFit` | backend/src/finance/settlement.service.ts:22-75 | in every run a transaction is linked only to a settlement of its organisation whose range holds it, or is the payout of that settlement |
| `Settlements.SettlementSumsItsLinks` | backend/src/finance/settlement.service.ts:35-75 | in every run gross, commission and net of a settlement are those of the payments and refunds linked to it |
| `Settlements.PaidOutIff` | backend/src/finance/payout.service.ts:25-119 | a payout goes through exactly if it is of a rupee or more, approved, within the balance read, and the only one of its settlement and stamp |
| `Settlements.PayoutDrawsBalance` | backend/src/finance/payout.service.ts:40-50 | an accepted payout draws its amount from the balance and never overdraws one read up to date |
| `Settlements.SettlementPaidOutOnce` | backend/src/finance/payout.service.ts:57-80 | in every run a settlement is paid out at most once |
| `Postings.PaymentPosts` | backend/src/finance/finance.service.ts:74-143 | a payment recorded for the first time: its row, its commission to half a paisa, and what it moves on every account of every organisation |
| `Postings.PaymentRepeats` | backend/src/finance/finance.service.ts:74-81 | a payment that is recorded already is recorded no second time |
| `Postings.RefundPosts` | backend/src/finance/finance.service.ts:165-259 | a refund goes through exactly within the cap and under a new key; its row, the commission given back, and what it moves on every account |
| `Postings.NothingToRefund` | backend/src/finance/finance.service.ts:165-180 | a refund of a payment that was never recorded is refused |
| `Postings.AdjustmentPosts` | backend/src/finance/finance.service.ts:268-344 | an adjustment under a new stamp: its row and what it moves on every account |
| `Postings.PayoutPosts` | backend/src/finance/payout.service.ts:57-119 | a payout moves its amount from what is owed to what is pending |
| `Postings.ResolutionPosts` | backend/src/finance/payout.service.ts:121-232 | a payout completed leaves with the provider, one failed is owed again; the status alone changes in its row |
| `Accounting.PendingIsOutstanding` | backend/src/finance/payout.service.ts:121-232 | net credit on PAYOUT_PENDING is the sum of amount times one minus the number of times resolved, stale calls included |
| `Accounting.PendingEqualsProcessingIff` | backend/src/finance/payout.service.ts:125-125 | it equals the payouts still PROCESSING if and only if no payout of the organisation was resolved twice |
| `Accounting.PendingTruthfulIff` | backend/src/finance/payout.service.ts:121-232 | with a guard a caller can check: equal if and only if every call that resolved a payout found it PROCESSING |
| `Accounting.PendingEqualsProcessing` | backend/src/finance/payout.service.ts:125-182 | equal in every run whose calls see the current status and in which no payout is both completed and failed |
| `Accounting.ResolvedTwice` | backend/src/finance/payout.service.ts:182-219 | a run that completes a payout and then fails it: nothing is processing and PAYOUT_PENDING is below zero |
| `Accounting.RepeatsAddNothing` | backend/src/finance/payout.service.ts:182-182 | when calls see the current status and a payout is only ever completed, or only ever failed, it is resolved at most once |
| `Refunds.RefundsCapped` | backend/src/finance/finance.service.ts:182-193 | over every run the refunds of a payment never exceed its amount by more than a paisa |
| `Refunds.RefundKeysDistinct` | backend/src/finance/finance.service.ts:201-201 | a further positive refund is never refused as a duplicate key, even in runs with refunds of nothing |
| `Refunds.FullRefundReplay` | backend/src/finance/finance.service.ts:189-193 | after a full refund another full-refund notification is refused if and only if the payment is of at least two paise |
| `Refunds.RefundedInFullTwice` | backend/src/finance/finance.service.ts:189-193 | a recorded payment of one paisa can be refunded in full twice |
| `Refunds.OnePaisaRefundedTwice` | backend/src/finance/finance.service.ts:189-193 | a run, on any terms, in which twice what was paid is refunded |
| `Refunds.ReplaysChangeNothing` | backend/src/finance/listeners/finance-events.listener.ts:28-43 | any number of repeated full-refund notifications then leaves all tables unchanged |
| `Refunds.RunAccountsAgree` | backend/src/finance/finance.service.ts:227-259 | the ledger nets of a payment on the three accounts are its gross and commission sums over its transactions |
| `Refunds.DriftBounded` | backend/src/finance/finance.service.ts:195-199 | when k refunds add up to the payment, clearing is exactly zero and revenue is within (k+1)/2 paise of the fixed fee, payable its exact opposite |
| `Refunds.SingleFullRefundIsExact` | backend/src/finance/finance.service.ts:196-199 | one full refund leaves exactly the fixed fee on revenue, so zero everywhere if and only if there was none, whatever the configuration says later |
| `Finance.FinanceService.RecordPayment` | backend/src/finance/finance.service.ts:66-147 | one call ends in the books with the transaction and its three entries, or unchanged under a known key |
| `Finance.FinanceService.RecordRefund` | backend/src/finance/finance.service.ts:153-263 | one call sums earlier refunds, enforces the cap, and reverses commission at the recorded percentage |
| `Finance.FinanceService.RecordAdjustment` | backend/src/finance/finance.service.ts:268-344 | one call moves the amount between PARTNER_PAYABLE and the expense or income account |
| `Finance.FinanceService.GetPartnerFinancialSummary` | backend/src/finance/finance.service.ts:349-391 | the summary's available balance is the conserved one, its gross less commission less balance is what was ever debited, and its counts are those of the organisation |
| `Finance.SummaryGrows` | backend/src/finance/finance.service.ts:349-391 | what one more row adds to each figure of the summary, by organisation, status and account |
| `Finance.FinanceService.InitiatePayout` | backend/src/finance/payout.service.ts:25-119 | one call checks the balance it read, creates the payout and moves the amount to PAYOUT_PENDING |
| `Finance.FinanceService.CompletePayout` | backend/src/finance/payout.service.ts:121-176 | one call completes whatever was not seen as completed and clears PAYOUT_PENDING |
| `Finance.FinanceService.FailPayout` | backend/src/finance/payout.service.ts:178-232 | one call fails whatever was not seen as failed and gives the amount back |
| `Finance.FinanceService.CreateSettlement` | backend/src/finance/settlement.service.ts:10-79 | the accumulation loop yields gross, commission and net of the eligible transactions, which are linked |
| `Reconciliation.ToleranceIsEquality` | backend/src/finance/reconciliation.service.ts:83-84 | the 0.009 tolerance is exact equality in paise |
| `Reconciliation.CheckCaptures` | backend/src/finance/reconciliation.service.ts:60-76 | check 1 reports exactly the captured payments without a PAYMENT, their number and their total |
| `Reconciliation.CheckTransactions` | backend/src/finance/reconciliation.service.ts:78-108 | checks 2 and 3 report exactly the unbalanced and the mismatched transactions, in order, and how many were looked at |
| `Reconciliation.CheckRefunds` | backend/src/finance/reconciliation.service.ts:110-135 | check 4 reports exactly the refunded payments without a refund, their number and their total |
| `Reconciliation.ReportedIff` | backend/src/finance/reconciliation.service.ts:60-135 | a report lists exactly the captured payments asked for without PAYMENT, the refunded ones without REFUND, and the transactions asked for that do not balance or carry another amount than their payment |
| `Reconciliation.TotalsGrow` | backend/src/finance/reconciliation.service.ts:137-160 | what one more payment, entry or payout adds to the totals: dates and providers matter to payments only |
| `Reconciliation.RunReconciliation` | backend/src/finance/reconciliation.service.ts:22-186 | the report lists exactly the discrepancies asked for, counts the rows asked for, and totals amounts, commission, balance and payouts |
| `Reconciliation.HealthyIff` | backend/src/finance/reconciliation.service.ts:165-167 | a report is HEALTHY if and only if no selected payment, transaction or refund fails its check |
| `Reconciliation.HealthyMeansBooksAgree` | backend/src/finance/reconciliation.service.ts:60-135 | an unfiltered HEALTHY report of a reachable ledger: each captured payment has exactly one PAYMENT of its amount, gross is what those debited to clearing, each refunded payment has a full REFUND |
| `Reconciliation.HealthyReachableIff` | backend/src/finance/reconciliation.service.ts:96-107 | its exact scope: the balance check never fires on a reachable ledger, and a partial refund makes the report unhealthy |
| `Reconciliation.PartialRefundIsUnhealthy` | backend/src/finance/reconciliation.service.ts:96-107 | any refund of a part of a payment leaves an unfiltered report unhealthy |
| `Reconciliation.PartlyRefunded` | backend/src/finance/reconciliation.service.ts:96-107 | a run with sound books and an unhealthy report |
| `Payments.TerminalIsFinal` | backend/src/payments/payments.service.ts:32-52 | along allowed changes a terminal payment status is final, except CAPTURED to REFUNDED |
| `Payments.CaptureFollowsTableIff` | backend/src/payments/payments.service.ts:175-207 | a capture follows the status table if and only if it consults it or the payment was not failed, cancelled or refunded; the provider's reconciliation never consults it |
| `Statuses.StatusesFollowTableIff` | backend/src/payments/payments.service.ts:32-52 | over a whole run the statuses of a payment move along the table if and only if no step captures it after it failed, was cancelled or was refunded, refunds it before it was captured, or cancels it after it failed |
| `Statuses.StepFollowsTableIff` | backend/src/webhooks/webhooks.service.ts:336-352 | the same for one step: worker and callback write REFUNDED from any status |
| `Statuses.ChargedOnceIff` | backend/src/payments/payments.service.ts:90-104 | at every moment of a run each booking has at most one captured payment if and only if no step captures a payment whose booking has another captured one |
| `Payments.PayBothProviders` | backend/src/payments/payments.service.ts:90-133 | orders opened with two providers, one call after the other, are both paid: the booking is charged twice |
| `Payments.PayThenOrder` | backend/src/payments/payments.service.ts:99-104 | once a payment of a booking is captured, a further order under a fresh key is a conflict unless another payment with that provider is open |
| `Payments.CapturesAgree` | backend/src/payments/payments.service.ts:175-207 | the capture that the booking tables see is the capture of the payment flows |
| `Payments.Database.Capture` | backend/src/webhooks/webhooks.service.ts:233-262 | the capture transaction, and whether this very call confirmed the booking |
| `Payments.Database.AnnounceCapture` | backend/src/webhooks/webhooks.service.ts:284-301 | PAYMENT_CAPTURED is emitted, and BOOKING_CONFIRMED only by the call that confirmed |
| `Payments.PaymentsService.CreateOrder` | backend/src/payments/payments.service.ts:61-133 | a known idempotency key gives back its payment or a conflict, an INITIATED or PENDING payment of booking and provider is reused, a booking with a CAPTURED or AUTHORIZED payment refused, and only otherwise a payment created |
| `Payments.PaymentsService.VerifyPayment` | backend/src/payments/payments.service.ts:136-233 | a checkout without interruption ends where its phases end, or reports its fault and changes nothing |
| `Payments.PaymentsService.HandleWebhook` | backend/src/payments/payments.service.ts:235-380 | the older callback, with its log of every outcome and its notice even when the transaction did nothing |
| `Payments.PaymentsService.CallbackOnPayment` | backend/src/payments/payments.service.ts:268-376 | the same for an event that names a payment |
| `Payments.PaymentsService.ReconcilePayment` | backend/src/payments/payments.service.ts:395-424 | a capture without status table and without notices |
| `Payments.PaymentsService.InitiateRefund` | backend/src/payments/payments.service.ts:426-483 | a captured payment that the provider refunds becomes REFUNDED and is announced |
| `Webhooks.WebhooksService.ReceiveWebhook` | backend/src/webhooks/webhooks.service.ts:39-120 | a signed event is stored once and queued, a duplicate is acknowledged and ignored |
| `Webhooks.WebhooksService.ProcessWebhookEvent` | backend/src/webhooks/webhooks.service.ts:126-194 | a worker without interruption ends where its phases end; a processed event is skipped |
| `Webhooks.WebhooksService.ProcessPaymentCaptured` | backend/src/webhooks/webhooks.service.ts:196-310 | capture, ledger, mark, announce, in this order |
| `Webhooks.WebhooksService.ProcessRefund` | backend/src/webhooks/webhooks.service.ts:312-381 | refund status, ledger reversal, mark, announce; a refused reversal marks the event failed |
| `Webhooks.WebhooksService.RetryWebhookEvent` | backend/src/webhooks/webhooks.service.ts:420-447 | an admin retry puts the event back to QUEUED |
| `Delivery.RunRefinesLedger` | backend/src/webhooks/webhooks.service.ts:264-271 | the books of every run of deliveries, crashes and listeners are those of a run of the ledger |
| `Delivery.RunHonest` | backend/src/finance/listeners/finance-events.listener.ts:12-43 | every recorded row and every notice carries the organisation and amount of its payment |
| `Delivery.RecordedOnce` | backend/src/finance/finance.service.ts:74-143 | over every run each payment gets at most one PAYMENT transaction, with exactly the three entries of its own organisation and amount |
| `Delivery.RefundedOnce` | backend/src/webhooks/webhooks.service.ts:355-363 | over every run a payment of any amount but one paisa gets at most one REFUND transaction, of the full amount |
| `LostEvents.PaisaRefundedTwice` | backend/src/finance/finance.service.ts:193-201 | a run that pays a single paisa once and refunds it twice |
| `Delivery.RefundNeverDuplicate` | backend/src/finance/finance.service.ts:201-201 | after any run a refund of a positive amount is never refused as a duplicate key |
| `Delivery.HealthyAfterRunIff` | backend/src/finance/reconciliation.service.ts:60-131 | after any run an unfiltered report is HEALTHY if and only if every captured payment has its PAYMENT and every refunded one its REFUND |
| `Confirmation.ConfirmedOnce` | backend/src/webhooks/webhooks.service.ts:249-301 | over every run BOOKING_CONFIRMED is emitted at most once per booking, and never for one that is still pending |
| `Confirmation.RunOnce` | backend/src/payments/payments.service.ts:196-229 | at any moment at most one call is about to announce a booking, and only if nobody has |
| `Confirmation.NeverPendingAgain` | backend/src/bookings/bookings.service.ts:30-38 | over the runs of the booking service a booking that left PENDING never returns to it |
| `Outcomes.CanTransitionIff` | backend/src/payments/payments.service.ts:32-52 | the table of payment statuses, change by change |
| `Outcomes.CheckoutOutcome` | backend/src/payments/payments.service.ts:136-233 | a checkout takes and announces the money of the customer's own payable payment, does nothing for a captured one, and otherwise says why not |
| `Outcomes.CallbackOutcome` | backend/src/payments/payments.service.ts:235-380 | the older callback from beginning to end: payments, bookings, log and notices for every kind of event |
| `Outcomes.RefundOutcome` | backend/src/payments/payments.service.ts:426-483 | the refund desk refunds and announces exactly a captured payment that the provider refunds |
| `Outcomes.ReconcileOutcome` | backend/src/payments/payments.service.ts:395-424 | the provider's reconciliation captures whatever is paid, in silence |
| `Outcomes.ReceiveOutcome` | backend/src/webhooks/webhooks.service.ts:39-120 | a signed event is stored once as QUEUED |
| `Outcomes.RetryOutcome` | backend/src/webhooks/webhooks.service.ts:420-436 | a retry puts a stored event back to QUEUED and changes nothing else |
| `Outcomes.JobShortOutcome` | backend/src/webhooks/webhooks.service.ts:126-231 | the worker on events it need not work on: left alone, IGNORED, FAILED or PROCESSED at once |
| `Outcomes.JobCaptureOutcome` | backend/src/webhooks/webhooks.service.ts:196-310 | a capture event takes the money, records it, is PROCESSED and announced, and changes nothing else |
| `Outcomes.JobRefundOutcome` | backend/src/webhooks/webhooks.service.ts:312-382 | a refund event marks and reverses its payment and is PROCESSED and announced, or FAILED when the ledger refuses |
| `Outcomes.LateCalls` | backend/src/payments/payments.service.ts:175-207 | a checkout, desk or callback that comes too late does nothing more |
| `Outcomes.LateJob` | backend/src/webhooks/webhooks.service.ts:233-301 | a worker that finds its payment captured meanwhile still records and announces it |
| `Outcomes.LateLog` | backend/src/payments/payments.service.ts:382-393 | a callback never overwrites what another has logged under its event |
| `Outcomes.ThrownOutcome` | backend/src/webhooks/webhooks.service.ts:176-194 | a worker that throws leaves its event FAILED, to be claimed again |
| `Processing.RedeliveryIgnored` | backend/src/webhooks/webhooks.service.ts:70-102 | a stored event is stored for good, and its redelivery to either endpoint at any later point changes nothing |
| `Processing.FinishIsRun` | backend/src/webhooks/webhooks.service.ts:126-194 | a call without interruption is one of the runs |
| `Processing.CaptureJobFinishes` | backend/src/webhooks/webhooks.service.ts:233-301 | run to its end on an uncaptured payment, a worker leaves it captured, recorded and announced, and the event PROCESSED |
| `Processing.RetryIsIdempotent` | backend/src/webhooks/webhooks.service.ts:420-436 | retrying a finished capture event and processing it again ends in the very same state |
| `Processing.ProcessedMeansRecordedIff` | backend/src/webhooks/webhooks.service.ts:220-347 | for capture and refund events alike: throughout a run PROCESSED means recorded if and only if no worker leaves by the already-captured or already-refunded branch while the ledger has no row |
| `LostEvents.CrashLosesTheRecord` | backend/src/webhooks/webhooks.service.ts:262-271 | a worker lost between the capture and the ledger: the retried event ends PROCESSED, nothing recorded, nothing announced |
| `LostEvents.RetryLosesTheRefund` | backend/src/webhooks/webhooks.service.ts:336-363 | a refund refused by the ledger: its event is retried and ends PROCESSED with nothing recorded |
| `CaptureNotices.RecordedMeansChargedIff` | backend/src/payments/payments.service.ts:285-318 | at every moment of a run all recorded payments were captured at some moment up to then if and only if no listener is given a PAYMENT_CAPTURED notice of a payment that was never captured before |
| `CaptureNotices.TakenIff` | backend/src/payments/payments.service.ts:285-300 | the payments counted as captured are exactly those that some prefix of the run has in CAPTURED |
| `CaptureNotices.UnchargedNoticeOrigin` | backend/src/payments/payments.service.ts:287-318 | every notice of the capture of a payment that was never captured was emitted by a callback whose transaction refused |
| `LostEvents.RefusedIsRecorded` | backend/src/payments/payments.service.ts:287-318 | every run that leaves a payment uncaptured in a status that may not become CAPTURED continues by five steps to one that records it, still never captured |
| `LostEvents.CancelledIsRecorded` | backend/src/payments/payments.service.ts:287-318 | a run that records a payment that was cancelled and never captured |
| `LostEvents.RefundedIsRecorded` | backend/src/payments/payments.service.ts:347-361 | a run that records a payment that was refunded and never captured |
| `LostEvents.CancelledIsCaptured` | backend/src/payments/payments.service.ts:395-421 | a run in which the provider's reconciliation captures a cancelled payment |
| `Loyalty.RunExplained` | backend/src/loyalty/loyalty.service.ts:259-305 | in every reachable state each balance is the sum of its rows, lifetime the sum of awards, and balanceAfter the prefix sum |
| `Loyalty.NeverOverdrawn` | backend/src/loyalty/loyalty.service.ts:216-257 | no balance, present or past, is negative in runs whose awards are not negative |
| `Loyalty.EarnOverdrawsIff` | backend/src/loyalty/loyalty.service.ts:282-283 | an award overdraws an account if and only if its key is new and it takes more than the balance |
| `Loyalty.KeyUsedOnce` | backend/src/loyalty/loyalty.service.ts:219-233 | a used key changes no points at any later time; a redemption under it is accepted if and only if the balance would still cover it |
| `Loyalty.QualifyTwice` | backend/src/loyalty/loyalty.service.ts:139-189 | two calls that both read the referral as pending reward it once |
| `Loyalty.AwardIs` | backend/src/loyalty/loyalty.service.ts:259-305 | an award under a new key adds to balance and lifetime of its user, with one row, and to nobody else |
| `Loyalty.RedeemedIff` | backend/src/loyalty/loyalty.service.ts:209-257 | a redemption goes through exactly if the balance covers it, and takes from the balance alone |
| `Loyalty.ReferredIff` | backend/src/loyalty/loyalty.service.ts:96-137 | nobody refers himself and nobody is referred twice |
| `Loyalty.QualifiedIs` | backend/src/loyalty/loyalty.service.ts:139-189 | a booking of the minimum gives referrer and referee the campaign's rewards, or 100 and 50 points, under their own kinds and keys, and nobody else anything |
| `Loyalty.UnreferredIs` | backend/src/loyalty/loyalty.service.ts:139-145 | without a referral there is nothing to reward |
| `Loyalty.LoyaltyService.AddPointsInternal` | backend/src/loyalty/loyalty.service.ts:259-305 | one award opens the account if need be and writes balance, lifetime and row together |
| `Loyalty.LoyaltyService.EarnPoints` | backend/src/loyalty/loyalty.service.ts:194-204 | an award under the given key, or one made of the reference or the time |
| `Loyalty.LoyaltyService.RedeemPoints` | backend/src/loyalty/loyalty.service.ts:209-257 | a redemption within the balance, under a new key |
| `Loyalty.LoyaltyService.QualifyReferral` | backend/src/loyalty/loyalty.service.ts:139-189 | a referral read as pending is qualified and both rewards issued |
| `Disputes.RunRefinesLoyalty` | backend/src/support/disputes.service.ts:195-204 | the points of every run of responses and resolutions are those of a loyalty run |
| `Disputes.GoodwillOnce` | backend/src/support/disputes.service.ts:159-217 | any sequence of responses and resolutions, interleaved or cut short, credits goodwill at most once per dispute, to its customer, and does so if and only if some resolution reached that write |
| `Disputes.DecidedIsLeftIff` | backend/src/support/disputes.service.ts:132-146 | a step takes a dispute out of DECIDED if and only if it is a response of its own partner |
| `Disputes.WrittenGoodwillTruthfulIff` | backend/src/support/disputes.service.ts:195-217 | throughout a run all goodwill written on decisions is the goodwill credited if and only if no case writes points that the goodwill row of its dispute does not carry |
| `Disputes.DecisionTruthfulIff` | backend/src/support/disputes.service.ts:195-217 | the goodwill written on one decision is the goodwill credited if and only if the one row carries the ordered points |
| `Disputes.CasesMoveAlone` | backend/src/support/disputes.service.ts:159-240 | a resolution in progress moves by its own steps only, and one that is lost writes nothing more |
| `Disputes.DecidedTwice` | backend/src/support/disputes.service.ts:132-217 | a run that credits 100 points, reopens the dispute and then records 200 |
| `Disputes.RefundIsRequestedIff` | backend/src/support/disputes.service.ts:174-193 | the refund issued is the refund requested if and only if the whole payment was requested |
| `Disputes.StartedIff` | backend/src/support/disputes.service.ts:159-172 | which disputes a resolution begins on, and whether it refunds, credits or decides first |
| `Disputes.RefundOrderedIff` | backend/src/support/disputes.service.ts:173-193 | when the refund of a resolution is refused, and that it refunds the payment otherwise |
| `Disputes.ResolvedIs` | backend/src/support/disputes.service.ts:159-240 | a resolution refunds, or gives goodwill, or neither, as decided; then it writes the decision and closes the ticket; a refused refund leaves everything as it was |
| `Disputes.RespondedIff` | backend/src/support/disputes.service.ts:132-154 | a response to its own dispute puts it under review and its ticket in progress, and changes nothing else |
| `Disputes.PartRefundsAll` | backend/src/support/disputes.service.ts:180-192 | an order for part of a payment that refunds all of it |
| `Disputes.DisputesService.ExecuteRefund` | backend/src/support/disputes.service.ts:173-193 | the refund of a resolution, or the fault that ends it |
| `Disputes.DisputesService.PartnerResponse` | backend/src/support/disputes.service.ts:132-154 | a response puts the dispute under review again, whatever its status |
| `Disputes.DisputesService.ResolveDispute` | backend/src/support/disputes.service.ts:159-240 | a resolution without interruption: refund or goodwill, then decision, then ticket |
| `Csv.ReadTable` | backend/src/analytics/reports.service.ts:191-195 | a reader following section 2 of RFC 4180 gets the printed table back |
| `Csv.RoundTripIff` | backend/src/analytics/reports.service.ts:67-67 | the table is read back exactly if and only if no cell written as it is holds a comma, a quote or a line feed |
| `Csv.ExportBookings` | backend/src/analytics/reports.service.ts:50-67 | the bookings report reads back as header and bookings, whatever customers, venues and facilities are called, if and only if the unescaped columns are clean |
| `Csv.BookingColumns` | backend/src/analytics/reports.service.ts:50-67 | the eight columns of a booking and what stands for a missing text |
| `Csv.PayoutColumns` | backend/src/analytics/reports.service.ts:84-93 | the seven columns of a payout and what stands for a missing text |
| `Csv.ExportPayouts` | backend/src/analytics/reports.service.ts:80-96 | the payouts report reads back exactly if and only if all its columns are clean |
| `Ranking.SortIsStable` | backend/src/search-intelligence/ranking-scoring.service.ts:207-208 | the sort is descending, loses nothing and keeps the order of equal scores |
| `Ranking.StableSortUnique` | backend/src/search-intelligence/ranking-scoring.service.ts:207-208 | no other list is descending and stable |
| `Ranking.ApplyDiversityFilter` | backend/src/search-intelligence/ranking-scoring.service.ts:214-237 | the two passes yield the filter of the specification; three candidates or fewer are returned as they are |
| `Ranking.NothingLostIff` | backend/src/search-intelligence/ranking-scoring.service.ts:229-234 | more than three candidates come out as a permutation if and only if no candidate behind the first of its business shares its id with one kept before it |
| `Ranking.FrontIff` | backend/src/search-intelligence/ranking-scoring.service.ts:219-226 | a candidate goes to the front in the first pass exactly if none before it has its business, or its id when it has none |
| `Ranking.DiversityPromise` | backend/src/search-intelligence/ranking-scoring.service.ts:207-237 | with distinct ids: a permutation headed by the overall top; up to three in score order; of more, the best of every business once each in score order, then all others in score order |
| `Ranking.RankCandidates` | backend/src/search-intelligence/ranking-scoring.service.ts:207-211 | for candidates with distinct ids nothing is lost, the head is the overall top, and of more than three the best of every business comes first |

## Left out

- GetAvailability: asks for a positive duration; the source does not check it and would loop forever on a negative one.
- SlotsOf: asks for a positive duration for the same reason.
- GridIsPacking: is stated for the grid of starts; slots that cannot be priced are left out afterwards by `KeepPriced`.
- NoDoubleBooking: is the one-way case of fresh accepts; `NoDoubleBookingIff` is the exact condition.
- OfferedSlotIsBookable: needs same-day opening hours, as the venue service enforces them (past midnight a booked slot may be offered, `BookedMidnightIsFree`), and speaks of the service code; `BookableUnderConstraintIff` adds the database constraint.
- RefundedOnce: is false for a payment of one paisa, because of the loose cap (`PaisaRefundedTwice`).
- RefundKeysDistinct: speaks of a further positive refund; a refund of nothing repeats the key of the one before it, and negative refunds, which no caller asks for, are left out (`RefundNeverDuplicate` has no such condition).
- FullRefundReplay: leaves out negative refunds likewise.
- HealthyMeansBooksAgree: speaks of unfiltered reports; a filter by dates or organisation may leave out a payment's transaction or its payment.
- NeverOverdrawn: needs awards that are not negative; the exact effect of a negative one is `EarnOverdrawsIff`.
- CreateOrder: does not model the provider's order, and is one call without interruption; the runs of `Delivery` open payments at will.
- FinishIsRun: speaks of calls that no other call interrupts; interrupted calls are the other runs of `Delivery`.
- ResolveDispute: calls the payments and loyalty services without interruption; in `Disputes` the payment tables may change arbitrarily in between.
- QualifyReferral: the status read before the transaction is a parameter, and rewards are whole points.
- SetStatus: reads and writes are separate steps of a run, and the read may be as old as one likes.
- Facility, venue and ownership checks, KYC and bank details are folded into boolean parameters or left to the caller.
- The availability result inside `create` is computed and never used to reject; only that it may throw is kept. In `Bookings` both it and the verdict of `reschedule` are boolean parameters; `Bookable` computes them.
- BookableUnderConstraintIff: needs same-day hours likewise.
- RescheduledIffOffered: needs same-day hours likewise.
- SlotOnItsDay: needs same-day hours, since a slot after midnight starts on the next day.
- Daylight-saving changes, date parsing and formatting, and floating point: integers and a fixed offset stand in.
- Selection of the commission rule: its percentage and fee are parameters of each recording.
- Loyalty transactions run at the database's default isolation; they are taken as atomic steps.
- Creation of disputes, with its check for an active one, is taken as the appearance of a dispute.
- Queue internals: a job may be executed any number of times at any time. An event stored but never queued, because its receiver was lost, is not distinguished.
- Signatures, provider answers, clocks and generated ids are parameters. Audit, metrics, logging and notifications are not modelled.
- The scores of ranked candidates: only their order matters to the filter.
- The limit of a thousand rows per report, PDF jobs and their statuses.
- Controllers, sessions, chat, coupons, memberships, media and the plain record keeping services would add only easy members.

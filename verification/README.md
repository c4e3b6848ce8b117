# Billing simulator: a verified model

The simulator bills customers for subscriptions in the way Stripe does. This project models
its core as classes, specification functions and state machines, and proves what its
operations keep over all inputs and all runs. `dafny verify dfyconfig.toml` checks everything.

## How it is laid out

| part | files |
|---|---|
| calendar, prices, periods | `Calendar`, `CalendarNumbers`, `Price`, `Periods` |
| aggregates and their events | `DomainEvents`, `Invoice`, `Subscription`, `PaymentIntent`, `OutboxEvent` |
| services as transactions over tables | `Transactions` (specification), `Services` (the methods) |
| the workers of billing | `BillingWorkers` |
| runs of service calls | `BillingRuns`, `Outcomes`, `Ownership`, `Ledger`, `Standing`, `EventLog`, `EventTruth`, `Recollection` |
| retry loops | `Backoff`, `TransactionManager`, `KafkaProcessor`, `KafkaPartition`, `Dlq` |
| outbox and webhook workers | `Polling`, `OutboxTable`, `OutboxProtocol`, `OutboxPolling`, `OutboxDelay`, `OutboxAttempts`, `OutboxWorker`, `Webhook`, `WebhookProtocol`, `WebhookDelay` |
| small distributed protocols | `Lease`, `RenewalPool`, `VirtualClock`, `ClockSync` |

An aggregate is a class whose methods change its fields as the source's do. Each method is
proved against a function on rows (its values), and the service methods against functions on
the tables. The theorems are about those functions: `Apply` and `Run` execute any sequence of
service calls, and rows handled by the worker of overdue invoices, with the payment outcomes
and the clock readings as free choices. The concurrent parts are state machines whose steps
interleave freely. A step that is not possible in a state changes nothing there, so a theorem
about every sequence of steps is one about every interleaving.

An instant is a number of nanoseconds since the zero time of Go, in UTC and on the proleptic
Gregorian calendar. `AddDate` is modelled as Go documents it: fields are added, the time of
day is kept, and an overflowing day runs on into the next month. `CalendarNumbers` checks the
calendar against the Gregorian rule written out in numbers.

## What the proofs found

Where the code and its evident intent differ, the model follows the code.

- `AggregateRoot.Raise` (internal/entity/aggregate.go:7-9) calls itself. The model has the
  append of internal/entity/domain_event.go:18-20 in its place.
- `Renew` moves the period before the invoice reads it, so a renewal invoice bills the period
  after the one just entered (internal/entity/subscription.go:170-175,
  internal/entity/invoice.go:107). These periods still never overlap
  (`BillingRuns.RunsNeverOverlap`).
- One renewal does not always catch up: after a long month the next period can already be
  over. Two always do (`BillingRuns.CaughtUpInTwo`), and one does exactly when the period it
  arrives at is longer than what the division leaves over (`Periods.OneRenewalCatchesUpIff`). For
  months the division can leave the calendar: it agrees with stepping exactly when it lands on
  one of the price's billing dates (`Periods.DivisionAgreesIff`).
- Batches list active and trialing subscriptions only. One whose payment is declined becomes past
  due and is never listed again (`BillingWorkers.PastDueIsNeverRenewed`), so two batches at one
  instant catch up exactly when the first payment goes through or one renewal is enough
  (`BillingWorkers.TwoBatchesCatchUpIff`).
- `MarkPaymentFailed` has no guard, so a declined confirmation can reopen an invoice that is paid,
  and its money can be taken twice (`Ledger.UnguardedCapturesTwice`). An invoice that cannot be
  paid is safe from being collected again exactly when two payments or more of it have been
  declined, one more decline then closing it for good, or when it is over nothing and has no
  intent (`Recollection.NeverCollectedAgainIff`). A call keeps the books if and only if it does not
  decline an invoice that cannot be paid (`Ledger.BalancedIffGuarded`). `ApplyGuarded` turns such a
  decline into an error that is rolled back; the theorems named as guarded are about it. That paid
  and remaining make up the amount, and that three failed attempts make an invoice uncollectible,
  needs no guard (`Ledger.MoneyOverRuns`), nor does it that a past due subscription had a renewal
  declined (`Standing.PastDueWasDeclined`).
- The final-attempt branch of `RenewSubscription` (internal/service/billing.go:231-234) is
  never taken, its invoice being new, and `CancelAtPeriodEnd` is never acted on: only an
  immediate cancellation cancels (`BillingRuns.CanceledIffAsked`). A past due subscription whose
  invoice is collected later stays past due until it is renewed (`Standing.PastDueUntilRenewed`).
- The worker of overdue invoices marks an active subscription past due outside any transaction
  and drops the event this raises (internal/worker/invoice_due.go:129-131). It does so whichever
  renewal the open invoice is of, even one before a renewal that was paid. The lookup it calls with the subscription's identifier, `GetByInvoiceID`, is implemented nowhere in
  the repository; the model looks the subscription up by that identifier.
- The outbox worker's query holds no lock after it returns, so two workers can handle the
  same row (`OutboxProtocol.TwoWorkersHandleTwice`). An event whose row is processed or removed is
  never handled with success again exactly when no worker holds an unhandled copy
  (`OutboxProtocol.DoneForGoodIff`). With one worker a success is repeated exactly when an update
  recording one was lost (`OutboxProtocol.RepeatsIffMarkLost`). `GetUnprocessed` does not use its
  `olderThan` argument. The worker calls `MarkFailed` without the attempt number the repository wants; the model
  passes the event's attempt plus one, as internal/entity/outbox_event.go:44-50 does. With several workers a failure recorded by an
  overtaken copy sets the attempts of a row back (`OutboxAttempts.AttemptFallsIff`), though never
  past six (`OutboxAttempts.AttemptsBounded`).
- A webhook at its last attempt stays due until it is delivered
  (`WebhookProtocol.ExhaustedUntilDelivered`), and nothing bounds how often it is sent
  (`WebhookProtocol.LastSendsUnbounded`). With several workers a delivered entry becomes failed
  again exactly when a stale copy of it is refused and that goes on record
  (`WebhookProtocol.UndeliveredIff`); it is delivered for good exactly when nobody holds such a
  copy (`WebhookProtocol.DeliveredForGoodIff`). Entries stay within the attempt limit exactly when
  no refusal of a copy that the last attempt has overtaken goes on record
  (`WebhookProtocol.WithinLimitIff`).
- The retry loops can panic in the jitter draw. They never do exactly when every delay before the
  last attempt is positive with a double that fits in 64 bits, or so far below zero that its
  double wraps round to a positive number; `Backoff.AllDrawableIff` gives this in closed form for
  every base and cap that validation lets through, and every attempt limit.
- The backoff rule doubles below half the cap, rounded down. For an odd cap it can therefore
  reach the cap one unit early (`Backoff.BackoffClosedForm`).
- Several Kafka workers on one reader can lose a message: one commits a later offset while another
  abandons an earlier message at shutdown (`KafkaPartition.TwoWorkersSkip`). A commit is safe
  exactly when nothing earlier is still open (`KafkaPartition.CommitSafeIff`).
- A dead letter worker that stops in a pause leaves its channel as it is, and messages enqueued
  after it stopped are never sent (`Dlq.NothingLeftBehindIff`).
- A clock loads the stored offset when it is made and subscribes to changes in a later call,
  `StartSync`, which nothing in the repository makes. An instance that does subscribe comes to agree
  exactly when some change is sent after that, or the stored offset is still the one it loaded
  (`ClockSync.JoinConvergesIff`). A change made alone keeps the instances together exactly when it
  changes nothing, or is saved and sent to all the others, every one of them subscribed
  (`ClockSync.LoneChangeIff`): without subscriptions, two instances part at the first change. A send
  that fails is not even reported by `Advance`. Changes that overlap keep the instances together
  exactly when the offset sent last is the one saved last (`ClockSync.OverlapConvergesIff`).
- A lock request whose answer gets lost, or a release that never arrives, leaves a key that nobody
  holds until it expires (`Lease.OrphansIff`).

## Model

| member | source | states |
|---|---|---|
| Calendar.DateOf | internal/entity/price.go:74-88 | every instant, before or after year 1, has a valid calendar date that gives the instant back |
| Calendar.InstantRoundTrip | internal/entity/price.go:74-88 | every valid date is the date of its instant, so the calendar is a bijection |
| Calendar.AddMonthsLength | internal/entity/price.go:80-84 | adding months moves an instant by the summed lengths of the months passed, whatever its day: 28 to 31 days each |
| Calendar.OverflowingDay | internal/entity/price.go:80-84 | a day past the end of its month becomes the excess day of the next month |
| Calendar.EndOfJanuary | internal/entity/price.go:80-81 | 31 January plus one month is 3 March, or 2 March in a leap year, in every year |
| CalendarNumbers.CivilInstant | internal/entity/price.go:74-88 | every civil date of every year in nanoseconds, by the days before each month and the rule of fourths, hundredths and four-hundredths written out |
| CalendarNumbers.MonthOffset | internal/entity/price.go:80-84 | every month of every year begins its literal number of days into it, one more from March on in a leap year |
| CalendarNumbers.CivilLandmarks | internal/entity/price.go:74-88 | four hundred years are 146097 days from any year, and 1 January 1970 is day 719162 |
| CalendarNumbers.NextBillingInNumbers | internal/entity/price.go:74-88 | days and weeks add their nanoseconds; months and any other text add to the month, years twelve at a time, to the date kept with its time of day |
| CalendarNumbers.FirstToFirst | internal/entity/price.go:80-81 | from the first of any month but December, a monthly period has the literal length of that month |
| Pricing.NewPrice | internal/entity/price.go:35-72 | every price is active and bills at least one interval at a time, the count asked for if that is positive |
| Pricing.PeriodLength | internal/entity/price.go:74-88 | the exact length of a billing period for each interval, positive, and within bounds that do not depend on its start |
| Pricing.AnchorKept | internal/entity/price.go:74-88 | from the 28th or earlier, k periods in a row are one calendar addition of all their months, and the day stays |
| Pricing.AddMonthsKeepsDayOrOverflows | internal/entity/price.go:80-84 | from any day, adding months keeps the day or lands on the 1st, 2nd or 3rd |
| Pricing.AnchorChangesAtMostOnce | internal/entity/price.go:74-88 | over an unbounded run of periods the day of the month changes at most once, and then is 1, 2 or 3 for good |
| Periods.CatchUpAdvances | internal/entity/subscription.go:155-171 | a renewal keeps end equal to the billing date after start, never moves back, and starts within one old length of now |
| Periods.DivisionRefinesLoop | internal/entity/subscription.go:157-171 | for day and week prices the one division gives exactly the period that stepping one period at a time reaches, for any arrears |
| Periods.CatchUpLeavesLess | internal/entity/subscription.go:155-171 | what one renewal leaves over is less than the spread between longest and shortest period |
| Periods.TwoRenewalsCatchUp | internal/entity/subscription.go:155-171 | two renewals at one instant end past it for every price and arrears; one does for days and weeks |
| Periods.BilledPeriodsDisjoint | internal/entity/invoice.go:107-124 | periods billed by two renewals in a row never overlap, and touch exactly when none was missed |
| Periods.UnmissedRun | internal/entity/subscription.go:166-171 | renewals that miss nothing walk the billing dates one by one |
| Periods.UnmissedRunKeepsAnchor | internal/entity/subscription.go:166-171 | up to the 28th, they amount to one calendar addition of all their months, so the billing day does not drift |
| Periods.OneRenewalCatchesUpIff | internal/entity/subscription.go:157-171 | for every price and arrears, one renewal catches up if and only if the period it arrives at is longer than the remainder of the division |
| Periods.OneRenewalCanFallShort | internal/entity/subscription.go:157-171 | an instance: a monthly period of January renewed on 1 March is still in the past, so the bound of two is met |
| Periods.DivisionAgreesIff | internal/entity/subscription.go:157-171 | for every price and arrears, division and stepping agree if and only if the divided start is one of the billing dates and its period is not over |
| Periods.DivisionDriftsForMonths | internal/entity/subscription.go:157-171 | an instance: renewed on 15 March, a January period moves on to 4 March by division and to 1 March by stepping |
| DomainEvents.EventBuffer.Raise | internal/entity/domain_event.go:18-20 | the event goes behind those already raised |
| DomainEvents.EventBuffer.ClearAndReturn | internal/entity/domain_event.go:22-26 | hands over all events in order and leaves none |
| Invoices.Invoice.New | internal/entity/invoice.go:46-92 | a new invoice is open, owes its whole amount, and announces itself once |
| Invoices.Invoice.MarkPaid | internal/entity/invoice.go:147-177 | pays in full exactly when the invoice can be paid; otherwise the right error, and nothing changes |
| Invoices.Invoice.MarkPaymentFailed | internal/entity/invoice.go:179-204 | counts the attempt and sets open or uncollectible, whatever the invoice was before |
| Subscriptions.Subscription.New | internal/entity/subscription.go:52-90 | active, with billing due when the first period ends, and one created event |
| Subscriptions.Subscription.Cancel | internal/entity/subscription.go:92-126 | the whole new state and event of both modes; a canceled subscription refuses and stays as it is |
| Subscriptions.Subscription.MarkUpdated | internal/entity/subscription.go:128-142 | the update time, and an event with the current status |
| Subscriptions.Subscription.Renew | internal/entity/subscription.go:145-195 | moves to the caught-up period, issues the invoice of the period after it and raises one event; refused when canceled or unpaid, with nothing changed |
| Subscriptions.Subscription.NewRenewalInvoice | internal/entity/invoice.go:94-145 | the invoice starts where the subscription's period, already moved, ends |
| Subscriptions.Subscription.MarkPaid | internal/entity/subscription.go:226-233 | becomes active with one event, or nothing if it is |
| Subscriptions.Subscription.MarkPastDue | internal/entity/subscription.go:235-242 | becomes past due with one event, or nothing if it is |
| Subscriptions.Subscription.MarkCanceled | internal/entity/subscription.go:244-264 | becomes canceled with one event, or nothing if it is |
| PaymentIntents.PaymentIntent.New | internal/entity/payment_intent.go:43-64 | a new intent asks for a payment method, has captured nothing and raises nothing |
| PaymentIntents.PaymentIntent.MarkSucceeded | internal/entity/payment_intent.go:66-82 | all of the amount is captured, with one event |
| PaymentIntents.PaymentIntent.MarkFailed | internal/entity/payment_intent.go:84-107 | back to asking for a payment method, what was captured untouched, with one event |
| PaymentIntents.PaymentIntent.Capture | internal/entity/payment_intent.go:114-142 | a request is refused with the right error and no change, or captured; success and its event come exactly with the last part |
| PaymentIntents.CapturesConserve | internal/entity/payment_intent.go:114-148 | for any sequence of requests at any times the captured amount grows by the accepted ones, never passes the amount, and one event is raised exactly when they become equal |
| PaymentIntents.AllRefusedOnceSucceeded | internal/entity/payment_intent.go:114-148 | after success every request is refused and nothing is raised |
| Outcomes.CaptureRefusedIff | internal/entity/payment_intent.go:115-122 | refused for its status unless it requires capture or is processing, for its amount unless that is positive and within what is left, and in no other way |
| OutboxEvents.Dispatch | internal/service/event_dispatcher.go:33-68 | appends one fresh unprocessed row for each event, in order, and leaves the rows before them |
| OutboxEvents.Dispatched | internal/entity/outbox_event.go:24-36 | the events of the rows are the events before followed by the dispatched ones |
| Services.BillingService.CreateSubscription | internal/service/billing.go:75-156 | commits exactly the specified tables, or reports the error and leaves them |
| Services.BillingService.CancelSubscription | internal/service/billing.go:158-198 | the same for a cancellation in either mode |
| Services.BillingService.Settle | internal/service/billing.go:223-240 | how a payment's outcome changes invoice and subscription together, final attempt included |
| Services.BillingService.RenewSubscription | internal/service/billing.go:200-261 | commits exactly the specified renewal, does nothing before the billing date, or fails without effect |
| Services.PaymentService.CreatePaymentIntent | internal/service/payment.go:51-75 | one fresh intent over the invoice's amount, refused by the table when that is not positive |
| Services.PaymentService.ConfirmPayment | internal/service/payment.go:77-137 | intent and invoice change together, or neither does |
| Outcomes.CreateFailsIff | internal/service/billing.go:86-94 | a creation fails exactly for an unknown customer, or else an unknown price |
| Outcomes.CancelFailsIff | internal/service/billing.go:165-177 | a cancellation fails exactly for a subscription that is unknown or canceled |
| Outcomes.RenewFailsIff | internal/service/billing.go:206-221 | a renewal fails exactly for a subscription that is unknown, or due and canceled or unpaid; before the billing date it succeeds and changes nothing |
| Outcomes.CreateIntentFailsIff | internal/service/payment.go:56-67 | a new intent fails exactly for an invoice that is unknown or over nothing |
| Outcomes.ConfirmFailsIff | internal/service/payment.go:83-118 | a confirmation fails exactly for an unknown intent or invoice, or when it is paid on an invoice neither open nor a draft; a decline of a known invoice never fails |
| Outcomes.ForcedCancellation | internal/entity/subscription.go:244-264 | a forced cancellation is dated and announced once, with the flag as it was; a canceled subscription stays in silence |
| Ownership.BilledToOwner | internal/entity/invoice.go:110-117 | after any run of the code as written: a subscription is a known customer's, an invoice is for its subscription's customer and over its price's amount, an intent for its invoice's customer and amount |
| Ownership.OwnersStay | internal/service/billing.go:75-261 | over every run no row changes whose it is, what it is over, or when it was made |
| Ownership.CallAddsAsAsked | internal/service/billing.go:100-126 | what a call adds is for the customer, price, subscription or invoice it was asked for, at its time, and only what that call is to add |
| Ownership.FlaggedIff | internal/entity/subscription.go:99-126 | a subscription is flagged to end with its period exactly by a cancellation in that mode, and until an immediate one |
| Ownership.DeclinedIff | internal/entity/payment_intent.go:84-107 | an intent is marked as declined exactly if a confirmation of it was |
| Ownership.RunsKeepCancellationsDated | internal/entity/subscription.go:100-103 | over all runs exactly the canceled subscriptions have a time of cancellation |
| BillingRuns.Run | internal/entity/subscription.go:170-171 | after any run of service calls, every period ends on its price's billing date and billing is due at that end |
| BillingRuns.OnlyRenewalMovesBilling | internal/entity/subscription.go:145-175 | a due renewal moves the billing date strictly on; no other call changes period, billing date or price |
| BillingRuns.CanceledOnlyImmediately | internal/service/billing.go:170-177 | a subscription is canceled after a call if and only if it was before or the call cancels it at once |
| BillingRuns.CanceledIffAsked | internal/service/billing.go:158-247 | over any run, a subscription is canceled in the end if and only if it was before or some call cancels it at once: declines and cancellations at period end never do |
| BillingRuns.CaughtUpInTwo | internal/service/billing.go:214-218 | at most two calls for a subscription that can be renewed bring its billing date past any instant, whatever the payments do; one for days and weeks |
| BillingWorkers.InvoiceDueWorker.ProcessOverdueInvoice | internal/worker/invoice_due.go:111-150 | an active subscription becomes past due in the table alone, any other stays as it is, and no event is written |
| BillingWorkers.InvoiceDueWorker.ProcessOverdueInvoices | internal/worker/invoice_due.go:92-109 | the longest overdue open invoices, none left out but for the limit, each handled once: a run of the corresponding calls |
| Outcomes.OverdueIff | internal/worker/invoice_due.go:118-142 | a subscription is marked past due exactly if it is active and the invoice is its own, open, and bills a period that began before the worker's time |
| BillingWorkers.SubscriptionRenewalWorker.ProcessRenewals | internal/worker/subscription_renewal.go:97-110 | a batch is the run of its renewals, and an error with one does not stop the others |
| BillingWorkers.BatchRenewsIff | internal/repository/subscription.go:94-98 | a batch moves a subscription's billing date exactly if it is active or on trial and due; any other stays as it is |
| BillingWorkers.TwoBatchesCatchUpIff | internal/repository/subscription.go:85-98 | two batches at one instant bring a listed subscription past it if and only if its first payment goes through or one renewal is enough |
| BillingWorkers.PastDueIsNeverRenewed | internal/repository/subscription.go:94-98 | however many batches follow, a past due subscription stays exactly as it is |
| BillingRuns.RunsNeverOverlap | internal/entity/invoice.go:107-124 | over all runs, renewal invoices of one subscription follow each other without overlap |
| BillingRuns.SuccessiveRenewals | internal/entity/invoice.go:107-124 | with any other calls between two renewals, their invoices are contiguous if and only if no period was missed |
| BillingRuns.LastBilledStays | internal/entity/subscription.go:145-175 | until the next renewal, the last invoice and the period stay as they are |
| Ledger.BalancedIffGuarded | internal/entity/invoice.go:179-189 | the code as written keeps the books balanced if and only if the call is not a decline on an invoice that cannot be paid |
| Ledger.MoneyOverRuns | internal/entity/invoice.go:147-204 | over all runs of the code as written, paid and remaining make up the amount, and an invoice is uncollectible if and only if three attempts or more have failed |
| Ledger.RunsStayBalanced | internal/service/payment.go:51-132 | over all guarded runs there is, besides, no attempt after the third, nothing is paid on an open invoice, and a succeeded intent has captured a paid one |
| Ledger.CapturedAtMostOnce | internal/service/payment.go:77-121 | what the intents of an invoice captured, summed, is its amount if one has succeeded and nothing otherwise |
| Ledger.NoDoubleCapture | internal/service/payment.go:51-132 | after any guarded run at most one intent of an invoice has succeeded, captured is at most paid, which is at most the amount, and there are at most three attempts |
| Ledger.OnceUnpaidCapturedInFull | internal/entity/invoice.go:147-163 | an invoice ever stored unpaid has captured exactly what it counts as paid |
| Ledger.UnguardedCapturesTwice | internal/service/payment.go:102-118 | an instance: a run of the code as written that takes an invoice's amount twice, by two intents |
| Ledger.GuardedRunIsRun | internal/service/payment.go:51-132 | every guarded run is a run of the code as written, of the calls the guard lets through |
| Recollection.NeverCollectedAgainIff | internal/service/payment.go:102-118 | after any run of the code as written and over every continuation, an invoice that cannot be paid gets no further paid row if and only if two or more payments of it were declined, or it is over nothing and has no intent |
| Recollection.PaidIsClosedIff | internal/entity/invoice.go:179-189 | for a paid invoice and balanced books, that is: a positive amount can be collected again if and only if fewer than two payments were declined |
| Recollection.CollectedOnce | internal/service/payment.go:88-130 | after any guarded run a paid invoice has been collected once |
| Standing.PastDueWasDeclined | internal/worker/invoice_due.go:118-142 | after any run of the code as written, overdue invoices included, a subscription is active, past due or canceled, and past due only if some renewal of it was declined |
| Standing.ActivePaidIff | internal/service/billing.go:223-247 | a call of the code as written leaves every active subscription with its last renewal paid at once if and only if it declines none of those renewals' invoices |
| Standing.ActiveWasPaid | internal/service/billing.go:225-229 | after any guarded run, the last renewal of an active subscription was paid at once and is paid |
| Standing.PastDueUntilRenewed | internal/service/payment.go:88-118 | no confirmation or other call lifts past due; only a renewal or a cancellation ends it |
| EventLog.OutboxTellsStory | internal/service/billing.go:139-145 | over all runs the outbox only grows, by the events of the committed calls, in order, and nothing of a failed one |
| EventLog.NarrativeMatchesChange | internal/service/billing.go:242-254 | the events of a call are, type by type and identifier by identifier, what it changes in the tables; for paid and succeeded rows if the call is guarded |
| EventLog.LogAgrees | internal/service/event_dispatcher.go:33-62 | after any run of the code as written: one created row for each subscription and invoice, one canceled row iff canceled, a payment_failed row for each counted attempt |
| EventLog.LogAgreesOnMoney | internal/service/payment.go:122-130 | after any guarded run, besides: one paid row iff the invoice is paid, one succeeded row iff the intent has succeeded |
| EventLog.CanceledForGood | internal/entity/subscription.go:92-113 | over all runs, canceled is absorbing, with exactly one canceled row from then on |
| EventTruth.CallTellsTruth | internal/service/billing.go:139-145 | every event of a call carries its time, and says of the rows what they are as the call leaves them: amounts, periods, status, flag, links |
| EventTruth.LogIsTruthful | internal/service/event_dispatcher.go:39-54 | after any run of the code as written, every row of the log is true of the tables in amount, links, price, period and times |
| EventTruth.LogIsInOrder | internal/service/event_dispatcher.go:38-54 | after any run, a row about an invoice paid or declined, or a subscription renewed, updated or canceled, comes after that of its creation |
| EventTruth.CallAnnounces | internal/entity/subscription.go:128-142 | one renewed row for each renewal, one updated row for each change of status or flag by a service, one failed row for each decline, and no other |
| Backoff.BackoffClosedForm | pkg/storage/postgres/transaction/manager.go:89-93 | the delay after k waits, exactly, for every base and cap |
| Backoff.CappedDoubling | pkg/kafka/processor.go:155-159 | the delay is the capped power of two for an even cap, and at most one unit more for an odd one |
| Backoff.BackoffBounded | pkg/storage/postgres/transaction/manager.go:78-93 | the delay stays between base and cap and never shrinks; a wait never passes the cap |
| Backoff.ReachesCap | pkg/kafka/processor.go:155-159 | the cap is reached from every base |
| Backoff.AllDrawableIff | pkg/storage/postgres/transaction/manager.go:78-93 | the closed form of when a given number of draws never panics, for every 64-bit base and cap, base not above cap |
| Backoff.DrawsSafeIff | pkg/kafka/processor.go:142-159 | from a positive base, draws without end never panic if and only if twice the cap fits in 64 bits |
| Backoff.SixtyFourBits | pkg/storage/postgres/transaction/options.go:14-18 | the range of the delays is that of signed 64-bit integers |
| TransactionManager.CommitsIff | pkg/storage/postgres/transaction/manager.go:53-105 | a call commits if and only if an attempt within the limit does and all before it were worth retrying |
| TransactionManager.StopsAtFirstUnretried | pkg/storage/postgres/transaction/manager.go:63-76 | it ends within the limit at the first attempt not retried, at once for an error that is not retryable, and reports that error, or the sentinel that stands for it |
| TransactionManager.FollowedIff | pkg/storage/postgres/transaction/manager.go:137-152 | a failed attempt that may be followed by another is, if and only if its database code is one of the nine, or the transaction was closed and neither deadline nor cancellation is the reason |
| TransactionManager.SerializationFailureRetried | pkg/storage/postgres/transaction/manager.go:63-98 | an instance: code 40001 at the first attempt, and the second commits |
| TransactionManager.SeenByCaller | pkg/storage/postgres/transaction/errors.go:18-50 | a caller sees a deadline as a timeout, code 23505 as a conflict and 23503 as invalid data unless the context was canceled, and any other last error as it is |
| TransactionManager.NeverPanicsIff | pkg/storage/postgres/transaction/options.go:48-53 | for every configuration that passes validation: no failure pattern panics if and only if the closed form holds for one draw fewer than the attempts |
| TransactionManager.Manager.NewManager | pkg/storage/postgres/transaction/options.go:48-53 | there is a manager for every configuration but those with the base delay above the cap |
| TransactionManager.Manager.DoTransaction | pkg/storage/postgres/transaction/manager.go:107-127 | one attempt applies the whole body or, whichever step fails, nothing |
| TransactionManager.Manager.ExecuteInTransaction | pkg/storage/postgres/transaction/manager.go:53-105 | all or nothing under retries: the effect of the last attempt's body, and of no other, exactly once on success; the store unchanged on anything else |
| KafkaProcessor.ProcessWithRetry | pkg/kafka/processor.go:106-175 | the exact trace of handler runs, waits, dead letter publish and commit for every pattern of results |
| KafkaProcessor.CommittedOnceAtTheEnd | pkg/kafka/processor.go:113-121 | the trace of a message handled or handed on has one commit, at its end, and any other none; it has one dead letter publish, right before the commit, exactly if the message is handed on |
| KafkaProcessor.AttemptsInOrder | pkg/kafka/processor.go:111-160 | the trace begins with the handler's runs in order, one wait between each and the next, its draw cut off at the cap |
| KafkaProcessor.StopsAtFirstUnretried | pkg/kafka/processor.go:111-160 | at most the allowed handler runs, an unretryable error ends them, and only an interrupted wait abandons a message |
| KafkaProcessor.CommitIsSafe | pkg/kafka/processor.go:112-122 | every commit in a trace comes right after a successful handler run or a tried dead letter publish |
| KafkaProcessor.NeverPanicsIff | pkg/kafka/options_processor.go:31-36 | for every configuration that passes validation: no message makes a worker panic if and only if the closed form holds for one draw fewer than the attempts |
| KafkaProcessor.CommittedPrefix | pkg/kafka/processor.go:147-174 | one worker's traces hold commits of exactly the messages before the first that is neither handled nor handed on |
| KafkaPartition.CommitSafeIff | pkg/kafka/processor.go:58-64 | with any number of workers, a commit keeps the committed offset covering settled messages only, if and only if nothing earlier is being worked on or was abandoned |
| KafkaPartition.CommittedRisesIff | pkg/kafka/consumer.go:69-74 | the committed offset never falls, and rises exactly when a message past it is settled and committed |
| KafkaPartition.OneWorkerIsSafe | pkg/kafka/processor.go:74-104 | with one worker that stops at what it abandons, the committed offset covers settled messages only, over every run |
| KafkaPartition.TwoWorkersSkip | pkg/kafka/processor.go:147-153 | two workers can commit past a message that is abandoned: the run that does it |
| Dlq.Conservation | pkg/kafka/dlq/dlq.go:58-120 | in every interleaving queued is sent, buffered, in hand and lost; lost counts the give-ups; the buffer is bounded; the delay is the capped power of the pauses since the last success in the run |
| Dlq.LossOnlyWhereGivenUp | pkg/kafka/dlq/dlq.go:85-113 | a step loses the message in hand at three places and nothing anywhere else |
| Dlq.StepConserves | pkg/kafka/dlq/dlq.go:58-120 | no step makes up or forgets a message |
| Dlq.LossesAreGiveUps | pkg/kafka/dlq/dlq.go:101-114 | over a run as many messages are lost as steps gave one up |
| Dlq.NothingLeftBehindIff | pkg/kafka/dlq/dlq.go:81-114 | over all runs, the channel of a stopped worker is empty if and only if it stopped after draining, or in a pause with nothing waiting, and nothing was enqueued since |
| Dlq.DeadLetterQueue.PublishError | pkg/kafka/dlq/dlq.go:58-72 | enqueued when there is room, else sent directly or refused, as one step of the protocol |
| Dlq.DeadLetterQueue.ReceiveNext | pkg/kafka/dlq/dlq.go:94 | takes the oldest message into the worker's hand, as one step of the protocol |
| Dlq.DeadLetterQueue.AfterSend | pkg/kafka/dlq/dlq.go:94-117 | success resets the delay, failure keeps the message for a pause |
| Dlq.DeadLetterQueue.AfterPause | pkg/kafka/dlq/dlq.go:101-111 | doubles the delay and puts the message back behind the others, or loses it when there is no room |
| Dlq.DeadLetterQueue.Drain | pkg/kafka/dlq/dlq.go:81-93 | shutdown empties the channel, every message sent or lost once, and is a run of the protocol |
| Dlq.DeadLetterQueue.StopInPause | pkg/kafka/dlq/dlq.go:112-113 | shutdown in a pause loses the message in hand and leaves the channel |
| OutboxTable.OutboxRepository.SaveBatch | internal/repository/outbox.go:84-124 | all rows are inserted, or none when an identifier is taken |
| OutboxTable.OutboxRepository.GetUnprocessed | internal/repository/outbox.go:126-174 | only due unlocked rows, none twice, in order, and nothing due left out but later rows beyond the limit |
| OutboxTable.OutboxRepository.MarkProcessed | internal/repository/outbox.go:176-198 | sets the one row processed, or reports that there is none |
| OutboxTable.OutboxRepository.MarkFailed | internal/repository/outbox.go:200-227 | puts the one row off by two to the attempt seconds, or reports that there is none |
| OutboxTable.OutboxRepository.DeleteOldProcessed | internal/repository/outbox.go:229-249 | removes exactly the expired processed rows and counts them |
| OutboxPolling.FetchableAfterFailureIff | internal/repository/outbox.go:138-145 | after a recorded failure a row can be fetched if and only if it is unprocessed, this is at most its fifth, and 2^k seconds are over |
| OutboxPolling.FailureDefersIff | internal/repository/outbox.go:200-218 | the same for a worker's step, by the attempts of the copy it holds |
| OutboxPolling.BatchOrder | internal/repository/outbox.go:146 | a batch begins with rows never attempted, oldest first, and goes on by the time they are due |
| OutboxPolling.RemovedIff | internal/repository/outbox.go:232-238 | cleanup removes a row if and only if it is processed and was so long enough ago |
| OutboxPolling.SixRunsHappen | internal/repository/outbox.go:138-145 | the bound of six handler runs is met by a one-worker run without lost updates |
| OutboxProtocol.StepKeepsSafe | internal/worker/outbox_worker.go:141-256 | with any number of workers a step marks processed only what was handled, never unmarks, and removes processed rows only |
| OutboxProtocol.AtLeastOnce | internal/worker/outbox_worker.go:141-256 | in every interleaving each event ever saved is still in the table or was handled successfully |
| OutboxProtocol.StepKeepsInOrder | internal/worker/outbox_worker.go:160-204 | one worker, whatever the clock does, keeps its copies equal to the rows, and attempts and successes accounting for handler runs |
| OutboxProtocol.BoundedAttempts | internal/repository/outbox.go:126-227 | with one worker, whatever the clock does, at most six handler runs for an event and one more for each lost update of its row |
| OutboxDelay.FailuresDelay | internal/repository/outbox.go:200-227 | with one worker and a clock that never goes back, k failures put the next attempt 2^(k+1) - 2 seconds past saving |
| OutboxAttempts.AttemptsBounded | internal/repository/outbox.go:126-227 | with any number of workers a row never counts more than six attempts |
| OutboxAttempts.AttemptFallsIff | internal/worker/outbox_worker.go:226-233 | with any number of workers, a step sets a row's attempts back if and only if it records a failure by a copy more than one attempt behind |
| OutboxAttempts.OneWorkersAttemptsRise | internal/worker/outbox_worker.go:160-204 | with one worker no step does |
| OutboxProtocol.SuccessesExactly | internal/worker/outbox_worker.go:183-203 | with one worker, whatever the clock does, an event's successes are exactly the one on record or about to be, and one for each lost update that was to record one: without lost updates at most one |
| OutboxProtocol.RepeatsIffMarkLost | internal/worker/outbox_worker.go:198-203 | the event the one worker is about to handle has succeeded before if and only if an update recording a success of it was lost, whatever the clock does |
| OutboxProtocol.SucceedsAgainIff | internal/worker/outbox_worker.go:160-204 | with any number of workers, a step makes an event succeed again if and only if a worker that holds an unhandled copy of its row handles it with success |
| OutboxProtocol.DoneForGoodIff | internal/worker/outbox_worker.go:160-204 | an event whose row is processed or removed is never handled with success again, over every run of any number of workers, if and only if none of them holds an unhandled copy |
| OutboxProtocol.TwoWorkersHandleTwice | internal/worker/outbox_worker.go:141-168 | two workers can hold and handle one row: the run that does it |
| OutboxWorker.OutboxProcessor.ProcessEvent | internal/worker/outbox_worker.go:170-204 | handling and marking one event is two steps of the protocol |
| OutboxWorker.OutboxProcessor.ProcessBatch | internal/worker/outbox_worker.go:141-168 | a poll, stopped anywhere, is a run of the protocol on a fair batch |
| Webhook.WebhookLog.MarkDelivered | internal/entity/webhook_log.go:65-73 | the whole delivered state |
| Webhook.WebhookLog.MarkFailed | internal/entity/webhook_log.go:75-87 | counts the attempt; failed at the limit, pending below it |
| Webhook.WebhookLogRepository.GetPendingForRetry | internal/repository/webhook_log.go:75-110 | the longest due undelivered entries, none left out but for the limit, whatever their attempts |
| Webhook.WebhookLogRepository.Update | internal/repository/webhook_log.go:145-171 | overwrites the entry with the copy, or reports that there is none |
| Webhook.WebhookLogRepository.MarkFailed | internal/repository/webhook_log.go:197-220 | counts the attempt on the stored entry and puts it off, or reports that there is none |
| Webhook.WebhookRetryWorker.RetryWebhook | internal/worker/webhook_retry.go:115-180 | the table after one delivery, for every lookup, response and update outcome |
| Webhook.WebhookRetryWorker.ProcessBatch | internal/worker/webhook_retry.go:96-113 | a batch of the longest due entries, each delivered once, in order |
| Webhook.DeliveredIff | internal/worker/webhook_retry.go:115-146 | a delivery counts exactly if the endpoint was found, the answer was a status from 200 to 299 and the row was written; it holds that answer and the time |
| Webhook.RefusalRecorded | internal/repository/webhook_log.go:197-206 | a recorded refusal leaves the entry failed, with an error, at the next attempt, and its answer as it was |
| Webhook.NewLogAllowsFive | internal/entity/webhook_log.go:39-87 | a new entry is due at once, and failed from its fourth failure on, pending before |
| WebhookProtocol.StepKeepsInOrder | internal/worker/webhook_retry.go:96-173 | one worker, whatever the clock does, keeps attempts equal to recorded failures plus one, accounts for every send, and never touches a delivered entry |
| WebhookProtocol.PollIsRun | internal/worker/webhook_retry.go:96-113 | a poll, which leaves the table as the batch method promises, is a run of the protocol |
| WebhookProtocol.RetryBounds | internal/worker/webhook_retry.go:148-168 | over all one-worker runs, whatever the clock does, the attempt is the recorded failures plus one and within the limit, and delivered is absorbing |
| WebhookDelay.FailuresDelay | internal/worker/webhook_retry.go:157-168 | with a clock that never goes back, k failures put the next attempt 2^k - 1 seconds past creation |
| WebhookProtocol.WithinLimitIff | internal/repository/webhook_log.go:197-206 | with any number of workers, a run keeps every entry within the limit all along if and only if no step records the refusal of a copy that was overtaken by the last attempt |
| WebhookProtocol.SendsBounded | internal/worker/webhook_retry.go:130-173 | over one-worker runs, whatever the clock does, the sends before the last attempt are at most the limit less one, and one more for each lost update |
| WebhookProtocol.LastSendsUnbounded | internal/worker/webhook_retry.go:149-155 | for every limit and every number there is a one-worker run with that many sends at the last attempt |
| WebhookProtocol.ExhaustedUntilDelivered | internal/repository/webhook_log.go:80-84 | over one-worker runs an entry at its last attempt stays exactly as it is, unless it is delivered |
| WebhookProtocol.UndeliveredIff | internal/repository/webhook_log.go:197-206 | with any number of workers, a step takes a delivered entry back if and only if a worker's next copy is of it and its refusal goes on record |
| WebhookProtocol.DeliveredForGoodIff | internal/worker/webhook_retry.go:110-173 | a delivered entry stays delivered over every run of any number of workers if and only if none of them holds a copy of it from before its last attempt |
| WebhookProtocol.TwoWorkersUndeliver | internal/repository/webhook_log.go:197-206 | an instance with two workers, from the start |
| WebhookProtocol.RefusedStillDueIff | internal/worker/webhook_retry.go:148-173 | a refused entry is due at a later poll if and only if its attempts are used up, the endpoint was not found, the update was lost, or its delay is over |
| Lease.LockManager.Lock | internal/repository/cache.go:111-122 | granted exactly when the store answers and no unexpired entry has the key, under a token never used before; a lost answer leaves the key set; in every case a step of the protocol |
| Lease.LockManager.Unlock | internal/repository/cache.go:124-134 | removes the entry only if it is still under this token, and a release that does not arrive is ignored; a step of the protocol |
| Lease.MutualExclusion | internal/repository/cache.go:111-135 | in every interleaving, whatever messages get lost, a key has at most one lease in force, is granted exactly when it has none and no orphaned entry, and a stale release removes nobody else's lease |
| Lease.OrphansIff | internal/repository/cache.go:116-134 | a step leaves a taken key that nobody holds if and only if the lock of a free key goes unanswered or the release of a lease gets lost |
| Lease.GrantedIffFree | internal/repository/cache.go:111-135 | over all runs in which every message gets through, a lock is granted exactly when the key has no lease in force |
| RenewalPool.LockLastsAMinute | internal/service/time.go:122 | the lock of a renewal keeps every other out for exactly a minute unless it is released |
| RenewalPool.EachTakenOnceAndAllDone | internal/service/time.go:102-118 | in every interleaving each subscription is taken once, in order; the pool ends after two steps for each, and is stuck nowhere else |
| RenewalPool.TimeService.ProcessSingleSubscription | internal/service/time.go:121-134 | one renewal transaction under the lock, nothing without it, and other locks untouched |
| VirtualClock.Clock.NewVirtualClock | internal/clock/clock.go:29-45 | a clock starts at the stored offset, or at none without a store; if the offset cannot be loaded there is no clock |
| VirtualClock.Clock.Advance | internal/clock/clock.go:96-121 | the offset moves by the duration, is saved and sent, and listeners hear of the jump unless the save fails |
| VirtualClock.Clock.SetTime | internal/clock/clock.go:123-152 | the clock reads the time asked for; failing to save or send is an error that listeners do not hear of |
| VirtualClock.Clock.Reset | internal/clock/clock.go:160-182 | the offset is none, it is sent even when the save fails, and listeners always hear of it |
| VirtualClock.Clock.StartSync | internal/clock/clock.go:47-57 | the instance is sent what is published from then on, and nothing from before |
| VirtualClock.Clock.SyncNext | internal/clock/clock.go:57-79 | the next offset received, and only that, replaces the local one |
| ClockSync.StepConvergesIff | internal/clock/clock.go:47-182 | of changes one at a time that succeed, a step keeps subscribed instances bound for the stored offset if and only if it is not a late subscription |
| ClockSync.Convergence | internal/clock/clock.go:96-182 | over all runs of such changes with timely subscriptions, a subscribed instance's last undelivered or own offset is the stored one; once drained all agree |
| ClockSync.JoinConvergesIff | internal/clock/clock.go:29-57 | an instance that loads at one time and subscribes at another ends bound for the stored offset if and only if a change is sent after it subscribed, or the stored offset is the one it loaded |
| ClockSync.ChangeInThreeSteps | internal/clock/clock.go:96-182 | begin, save and publish in a row leave what the clock's methods promise, for every outcome of save and publish |
| ClockSync.DeliveriesDrain | internal/clock/clock.go:57-79 | receiving everything takes one delivery a message and ends at the last offset sent |
| ClockSync.DeliveredInOrder | internal/clock/clock.go:57-79 | messages are received one at a time, in the order they were sent |
| ClockSync.ChangeSetsClock | internal/clock/clock.go:96-166 | a change moves the clock by the duration, sets it to the time, or brings it back to real time |
| ClockSync.LoneChangeIff | internal/clock/clock.go:96-182 | a change made alone keeps all instances bound for the stored offset if and only if it changes nothing, or is saved and sent to all the others, all subscribed; resets included |
| ClockSync.OverlapConvergesIff | internal/clock/clock.go:105-117 | over every run of overlapping changes of subscribed instances, all saved and sent, they end together if and only if the offset sent last is the one saved last |
| ClockSync.OverlappingDiverges | internal/clock/clock.go:96-121 | an instance: two overlapping changes leave all instances off the stored offset |
| ClockSync.FailedSaveDiverges | internal/clock/clock.go:109-112 | an instance: a change whose save fails stays with its own instance |

## Left out

- HTTP handlers, routes, WebSocket transport, DTO mapping and JSON: plumbing. An event's payload is taken to be serialisable.
- UUID and public identifiers: new identifiers come from a counter. Uniqueness of generated values is taken for granted.
- SQL, Redis and Kafka clients: replaced by tables, a key store with expiry, and queues, with the filter and the update of each query.
- Database and Redis failures inside a service transaction: covered by the transaction manager, whose body fails in any way it likes, and not repeated in each service.
- HMAC signing, logging, metrics, tracing, configuration loading.
- Product, customer and price maintenance, `Price.Update` included: only easy members. The price of a subscription does not change in a run.
- Currency, metadata, URLs, error codes and messages; aggregate and invoice fields that only copy them.
- Local time zones, and saturation of a duration: instants are unbounded and in UTC.
- `Subscription.Renew` on a period of no length, where the division panics: services never store one.
- `ConfirmRenewal`, `UpdateNextBilling` and `IncrementAttempt`: no service calls them.
- The random outcome of a payment and of the jitter draw: any outcome is allowed, any draw within its range.
- Renewals of one subscription that run at the same time in two transactions: a service call is one atomic step.
- A lock with no expiry, which the store makes of a time of zero or less: the one caller asks for a minute.
- A commit that reports failure although it took effect: a failed commit is taken not to have committed.
- The Kafka worker going on after a fetch error with a message it does not have.
- Time limits on sends and lock releases: an operation succeeds or fails as a free choice.
- The shift in the webhook delay running over 64 bits, which needs more than sixty attempts.
- Columns the webhook query does not fetch: delivery overwrites them all, so a copy is taken to be the whole row.
- The timers of the polls. The worker of overdue invoices reads and writes a row in one step: an invoice paid, or a subscription changed, between its query and its update is left out.
- Pricing.NewPrice: the created event, currency and product of a new price are left out, as no service here uses them.
- Rebalancing of Kafka partitions: one reader keeps one partition, and a later commit never lowers the group's offset.
- Database clocks: the instant a query uses as its own time is a parameter of the operation.

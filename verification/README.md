# Helix Seller: verified models of its protocols

Dafny models of the parts of Helix Seller that are protocols or arithmetic rather than plain
storage, with proofs of what they keep over every run. `dafny verify dfyconfig.toml` checks all of it.

| file | models |
|---|---|
| TaskQueue.dfy | background workers that claim, run, requeue and bury job rows |
| Hub.dfy | the WebSocket hub: live clients, room index, bounded queues, eviction |
| Payment.dfy, Transactions.dfy | idempotent charging, its transaction rows, refunds, the mock provider |
| Billing.dfy | fees and reconciliation over the transaction table |
| Calendar.dfy, Subscriptions.dfy | Go's calendar arithmetic and billing periods over any number of renewals |
| Webhooks.dfy | fan-out, retry loop and the delivery record |
| RateLimiter.dfy | the fixed-window limiter over request traces |
| TokenBlacklist.dfy | logout against the authentication middleware |
| Pagination.dfy | page arithmetic against LIMIT/OFFSET |
| Wrappers.dfy | the option type |

## How the models are built

The queue, the hub and the payment service are step systems. A `State` holds the tables and what each
worker, connection or request is doing; a `Step` is one database statement, provider call or hub
action, whose parameters carry what the environment decides (a failure, a lost acknowledgement, a
crash, the time). `ValidRun` and `Final` range over every finite sequence of enabled steps, so a
theorem about `Final` holds for every interleaving of any number of participants. Each module also
has a class with the source's mutable fields; its methods update them in place and promise twice: that
the new state is `Apply` of the old one, which carries the theorems over to them, and what each column
then holds, in the source's own constants.

Some fields are history: they record what happened and are no columns of the tables (`Row.log`,
`Conn.received`, `Conn.joined`, `State.evicted`, `Tx.owner`, `Tx.charge`, `Tx.rewrites`,
`Subscription.periods`). Row identifiers are positions in a table, which stands for the uniqueness
of generated UUIDs.

## What the code does not promise

Each of these is proved as an exact condition.

- A job row whose finishing write, claim acknowledgement or worker is lost stays `running` for good
  (`OrphansComeFromFaults`, `SettledForever`).
- A room broadcast sends on a closed channel exactly when some connection has ever been evicted from
  that room, because eviction leaves the room index alone and unregistering an evicted client is a
  no-op (`PanicsExactlyOnEvictedRooms`, `EvictionIsForever`, with the run `RoomSendCanPanic`).
- A rewritten transaction row denies money the provider took exactly when the answer to a successful
  charge was lost (`RowsMirrorProvider`).
- Monthly renewals equal one long addition exactly when no renewal overflows its month, or the first
  that does meets a month as long as the last one (`RenewalsEqualOneAddition`, with 31 January 2023 as
  `JanuaryThirtyFirstDrifts`). A period advances exactly when the count is at least 1, which an update
  does not enforce (`PeriodAdvancesIffCountPositive`, `UpdateCanStallRenewal`).
- The delivery record agrees with the retry loop exactly when the last status update was stored,
  since the loop ignores the error of that update (`RecordAgreesWithLoop`).
- A revoked token gets through only if it is parsed before its expiry and looked up after its
  blacklist entry has expired (`RevokedTokensStayOut`); a logout revokes nothing for a token without
  an expiry claim or with an empty identifier (`LogoutRevokesExactly`).
- The limiter lets every request through while the store is down (`EachMinutePassesExactly`).

## Model

| member | source | states |
|---|---|---|
| TaskQueue.ClaimsAreExclusive | internal/service/background.go:94-148 | In every state any schedule of any number of workers reaches, a row is held by at most one worker, a held row is `running` and not locked by a claim, and a row being claimed is `pending` and locked once |
| TaskQueue.SettledForever | internal/service/background.go:103-110 | `completed` and `dead` rows, and `running` rows without a holder, are never changed by any continuation |
| TaskQueue.OrphansComeFromFaults | internal/service/background.go:115-165 | A step leaves a row running and unheld exactly if it is a finishing write that did not reach the table, a lost claim acknowledgement, or the holder's crash |
| TaskQueue.AtMostFiveHandlerRuns | internal/service/background.go:20-165 | Over any schedule attempts equal committed claims, pending rows have at most 4 and running rows 1 to 5, and no row's handler runs more than five times, nor less often than it is recorded to fail |
| TaskQueue.AttemptsCountClaims | internal/service/background.go:103-115 | From any consistent state, a row's attempts grow by exactly its committed claims in the run |
| TaskQueue.RunConservesWork | internal/service/background.go:53-165 | Claims and stored finishing writes plus the remaining potential equal the initial potential plus ten per enqueued row |
| TaskQueue.WorkIsBounded | internal/service/background.go:53-165 | n enqueued rows cause at most 10n claims and finishing writes in any schedule |
| TaskQueue.BackoffSpacing | internal/service/background.go:150-165 | Claims and failures of a row alternate; the claim after failure k comes at least 30(k+1) seconds later; a row killed by its handler's failures has five, the last at least 420 seconds after the first |
| TaskQueue.RetryIsClaimedOnTime | internal/service/background.go:104-160 | In every reachable state a row pending after k failures has k from 0 to 4 and is due at once, or exactly 30(k+1) seconds after the last failure; a polling worker may select it exactly from then on and if no due unclaimed row outranks it, and can select nothing else if no other row is pending |
| TaskQueue.RetryRuns | internal/service/background.go:94-160 | Waiting until a sole pending row is due, then one round of any polling worker, is a valid run that adds one attempt and leaves the row completed, dead (no handler, or fifth failure), or pending for 30 seconds times the next attempt number |
| TaskQueue.StepKeepsInv | internal/service/background.go:94-165 | Every step of every worker keeps the queue invariant that ties row status, attempts, timing and worker positions together |
| TaskQueue.BackgroundService.SelectTask | internal/service/background.go:104-110 | Finds a row exactly if some row is pending, due and not locked by a claiming worker; the one found is such a row, and every other one has lower priority, or the same and no earlier run time |
| TaskQueue.BackgroundService.Enqueue | internal/service/background.go:53-65 | Appends one pending row of the given type and priority with no attempts, due now, or appends nothing; reports an error exactly if the row was not stored or its acknowledgement was lost |
| TaskQueue.BackgroundService.LockSelect | internal/service/background.go:94-110 | Under the same exact condition locks the selected row for the worker; otherwise, and in every other column, changes nothing |
| TaskQueue.BackgroundService.CommitClaim | internal/service/background.go:103-115 | A stored claim sets the row running with one more attempt, a rolled back one leaves it; the worker handles the row only if it saw the commit |
| TaskQueue.BackgroundService.ClaimTask | internal/service/background.go:94-116 | The claim transaction as a run of its steps: finds a row exactly if a pending, due, unlocked one exists, and says what becomes of it under each outcome of the commit |
| TaskQueue.BackgroundService.ProcessTask | internal/service/background.go:118-147 | Buries without a handler, completes on success, else from five attempts on buries and below them requeues 30(attempts+1) seconds from now |
| TaskQueue.BackgroundService.HandleTaskError | internal/service/background.go:150-165 | Buries from five attempts on, below them requeues 30(attempts+1) seconds from now |
| TaskQueue.BackgroundService.WriteFinish | internal/service/background.go:126-164 | Applies the decided status and run time to its own row, or leaves the table |
| TaskQueue.BackgroundService.WorkerRound | internal/service/background.go:67-165 | An uninterrupted round is a valid run of its steps; it claims exactly if a pending, due, unlocked row exists, and leaves that row as the commit, handler, attempt count and finishing write decide, with all other rows unchanged |
| Hub.StreamsAreExact | internal/websocket/hub.go:45-105 | In every interleaving, what a connection received and has queued is exactly the messages addressed to it from its joining position in the log to its end: the present while live, the first message it had no room for when evicted |
| Hub.StreamStartsAtRegistration | internal/websocket/hub.go:45-82 | In any run, the connection that a registration creates is in the room it names, gets nothing sent before that step, and receives or has queued exactly the messages addressed to that room after it, up to its end |
| Hub.StreamEndsAtUnregister | internal/websocket/hub.go:58-70 | In any run, a live connection that unregisters has received or queued exactly what was addressed to it until then, whatever is sent later |
| Hub.StreamsAreSlices | internal/websocket/hub.go:48-82 | Without room broadcasts that stream is a contiguous slice of the broadcast log, reaching its end while the client is live |
| Hub.EvictsExactlyFullReaders | internal/websocket/hub.go:74-81 | A step evicts a client exactly when it sends a message addressed to that live client while 256 messages wait; any other live addressee gains exactly the message |
| Hub.BroadcastReaches | internal/websocket/hub.go:72-105 | A broadcast that does not panic queues the message for each live addressee with fewer than 256 waiting, closes and drops one with 256, and touches nobody else |
| Hub.PanicsExactlyOnEvictedRooms | internal/websocket/hub.go:93-104 | The only step that sends on, or closes, a closed channel is a room broadcast to a room some connection was evicted from, and such a broadcast always does |
| Hub.NoPanicWithoutRoomSends | internal/websocket/hub.go:45-85 | Runs without room broadcasts never send on or close a closed channel |
| Hub.EvictionIsForever | internal/websocket/hub.go:58-82 | Once a client of a room is evicted, every later broadcast to that room panics, whatever happens in between |
| Hub.RoomSendCanPanic | internal/websocket/hub.go:74-104 | A concrete run that panics: one client, 257 undrained broadcasts, one room broadcast |
| Hub.ClosedOnceAndFrozen | internal/websocket/hub.go:58-82 | A channel is closed at most once, and once closed nothing more is sent on it |
| Hub.RoomIndexIsExact | internal/websocket/hub.go:49-68 | The room index holds exactly the live and the evicted clients by room, never an empty room, and until the first eviction exactly the live set grouped by room |
| Hub.OrderIsIrrelevant | internal/websocket/hub.go:74-81 | Offering a message to the targets one by one, in any order, ends in the same state |
| Hub.StepKeepsInv | internal/websocket/hub.go:45-105 | Every hub action keeps the invariant over clients, rooms, queues and the log |
| Hub.LogIsWhatWasSent | internal/websocket/hub.go:72-113 | The log is the messages accepted by the run, in order |
| Hub.Hub.Register | internal/websocket/hub.go:48-56 | Adds a fresh open connection with an empty queue to the client set and to the named room, and changes no other connection or room |
| Hub.Hub.Unregister | internal/websocket/hub.go:58-70 | Removes a live client, drops its room when empty, closes its channel; does nothing for one already gone |
| Hub.Hub.BroadcastToAll | internal/websocket/hub.go:72-82 | Whatever the iteration order, each live connection with fewer than 256 waiting messages gains the message, one with 256 is closed and dropped, the room index stays, and nothing panics |
| Hub.Hub.BroadcastToRoom | internal/websocket/hub.go:87-105 | Panics exactly if a client was evicted from the room; otherwise reaches exactly the live connections of that room, each as in a broadcast to all |
| Hub.Hub.OfferAll | internal/websocket/hub.go:74-81 | The non-blocking send loop over a set in arbitrary order: stops exactly on a closed channel, else queues or evicts each target |
| Hub.Hub.Drain | internal/websocket/handler.go:74-81 | The write pump takes the oldest queued message |
| Transactions.MockChargeSplitsAmount | internal/provider/mock.go:22-43 | Accepts exactly positive amounts; fee plus net is the amount, the fee is 30 plus the whole units of 2.9%, the net is non-negative exactly from 30 on, and never shrinks as the amount grows |
| Payment.OneKeyOneCharge | internal/service/payment.go:43-100 | In every interleaving a non-empty key lets at most one request pass, and leads to at most one charge row and one provider charge |
| Payment.OneRequestOneCharge | internal/service/payment.go:62-100 | A request writes at most one row and makes at most one charge, for a stored row of the same amount |
| Payment.SpentKeysStaySpent | internal/repository/idempotency_repo.go:18-32 | After a key is stored no further request with it passes, whatever became of the first |
| Payment.ChargesFollowPendingRows | internal/service/payment.go:62-100 | A charge is made only for a stored, pending, never charged row of a known provider |
| Payment.RowsMirrorProvider | internal/service/payment.go:79-120 | Rows are rewritten at most once and pending before; a succeeded row carries the status, fee and net of a charge whose answer arrived; a rewritten row contradicts the provider exactly when a successful charge's answer was lost |
| Payment.MockRowsBalance | internal/provider/mock.go:26-42 | With the mock provider fee plus net is the amount in every succeeded row |
| Payment.PaidMeansCharged | internal/service/payment.go:111-130 | A request that returns a transaction was charged its amount, and its row carries the provider's answer |
| Payment.PaidExactlyWhenAccepted | internal/service/payment.go:42-131 | In every interleaving a request is paid exactly if it passed the check and its own steps are: method of a known provider, row stored, charge accepted, answer stored; its row then carries its merchant, amount, key and that answer |
| Payment.SettledRowsNeverChange | internal/service/payment.go:101-120 | Refund rows, rows rewritten once and rows whose request is over never change again |
| Payment.TakenIsBilledPlusUnbilled | internal/service/payment.go:90-120 | Over any schedule, merchant and window, what providers took equals the billing total plus what was taken for rows not marked succeeded |
| Payment.BillingMovesOnlyOnSuccess | internal/service/payment.go:111-120 | Billing total and count change only when a successful answer is written, by exactly that row |
| Payment.RefundsLeaveBillingUnchanged | internal/service/payment.go:170-185 | Any run of refunds leaves the billing period unchanged |
| Payment.StepKeepsInv | internal/service/payment.go:42-131 | Every step of every request keeps the invariant tying keys, requests, rows and charges together |
| Payment.PaymentService.CheckAndSave | internal/repository/idempotency_repo.go:18-32 | Inserts the key if absent and reports whether it did; errors as the database decides |
| Payment.PaymentService.InsertRow | internal/repository/transaction_repo.go:22-33 | Appends the row unless the insert is refused |
| Payment.PaymentService.UpdateRow | internal/repository/transaction_repo.go:101-113 | Replaces the row unless the update is refused |
| Payment.PaymentService.CheckKey | internal/service/payment.go:43-55 | Passes exactly without a key, or with one that is new and whose insert succeeds; otherwise ends as duplicate or failure; the key table and nothing else may change |
| Payment.PaymentService.CreateTx | internal/service/payment.go:62-77 | Stores one pending row with the request's merchant, amount and key, or none if refused; goes on exactly if the insert succeeds |
| Payment.PaymentService.Charged | internal/service/payment.go:79-109 | The outcome is the provider's answer exactly if the provider is known and accepted; a charge of the request's amount is recorded exactly if it is known and did not decline, as lost if the answer was |
| Payment.PaymentService.WriteOutcome | internal/service/payment.go:102-120 | Rewrites the row with the answer, or as failed, unless refused; paid exactly if there is an answer and the write succeeds |
| Payment.PaymentService.ProcessPayment | internal/service/payment.go:42-131 | An uninterrupted payment is a valid run of its steps; it is paid exactly if admitted, of a known provider, stored, accepted and written; table and charges grow by at most one, under exact conditions, with every column given |
| Payment.PaymentService.Refund | internal/service/payment.go:141-196 | Stores one reversed row of the given amount for the original's merchant exactly if original, provider and refund exist and the insert is not refused; billing is unchanged |
| Billing.ReconciliationCoversBilling | internal/service/reconciliation.go:40-53 | Over any table, merchant and window the reconciled totals and counts of all providers present add up to the billing total and count |
| Billing.ReportsCountEachRow | internal/service/reconciliation.go:40-53 | Each further row adds its amount and one to billing exactly if it is a succeeded row of the merchant in the window, and to a reconciliation exactly if also of the provider; the provider side is always unavailable and the discrepancy the whole total |
| Billing.SplittingLosesAtMostOnePerCut | internal/service/billing.go:43-61 | Billing k groups separately loses exactly the dropped remainders over 100: at most k-1, and never overcharges |
| Calendar.MonthStartIsSum | internal/service/subscription.go:152-165 | n months from any month last the sum of their lengths, 28n to 31n days |
| Calendar.FastMonthStartIsSum | internal/service/subscription.go:152-165 | Go's closed form for the first day of a month equals the sum of month lengths, for all years |
| Calendar.FourHundredYears | internal/service/subscription.go:152-165 | From any month, 400 years last 146097 days and the month lengths repeat |
| Calendar.YearBegins | internal/service/subscription.go:152-165 | From 1901 to 2100 year y begins on day 365y + (y+3)/4 - 15 |
| Calendar.NormalizeKeepsDay | internal/service/subscription.go:152-165 | Normalising an out-of-range day of a month names the same day |
| Calendar.DayNumberRoundTrip | internal/service/subscription.go:152-165 | Dates and day numbers are in one-to-one correspondence, so periods may be compared by day |
| Calendar.AddMonthsLandsOn | internal/service/subscription.go:158-161 | Adding months keeps the day if the target month has it, else lands on day 1 to 3 of the month after |
| Subscriptions.PeriodAdvancesIffCountPositive | internal/service/subscription.go:152-165 | A period moves time forward exactly when its count is at least 1 |
| Subscriptions.PeriodLength | internal/service/subscription.go:152-165 | c months last exactly the c calendar months from the start month (28c to 31c days), c years 365c to 366c days, days and weeks exactly |
| Subscriptions.DayOverflowsAtMostOnce | internal/service/subscription.go:134-135 | Over any number of renewals counted in months the day is the original, or after one overflow a day from 1 to 3 that never changes again |
| Subscriptions.RenewalsEqualOneAddition | internal/service/subscription.go:134-135 | n renewals equal one addition of n times the months exactly when no renewal overflows or the first overflowing month is as long as the last target |
| Subscriptions.EarlyStartsNeverDrift | internal/service/subscription.go:158-159 | From day 28 or earlier, n renewals of c months are one addition of n*c months and keep the day |
| Subscriptions.JanuaryThirtyFirstDrifts | internal/service/subscription.go:158-159 | 31 January 2023 renewed monthly comes to 3 March, and two renewals are not one addition of two months |
| Subscriptions.WeeksAndDaysAddUp | internal/service/subscription.go:154-157 | k periods of a weekly or daily plan add exactly k times its days |
| Subscriptions.WeeklyPlanEnd | internal/service/subscription.go:38-39 | After creation and n renewals a w-week plan ends (n+1)*7w days after its start |
| Subscriptions.RenewalsFollowPlan | internal/service/subscription.go:124-139 | n renewals of an active row add n periods of its plan |
| Subscriptions.PeriodsTile | internal/service/subscription.go:124-139 | Under any sequence of updates, cancellations and renewals, periods start at creation, follow each other without gap or overlap, and advance exactly when the count then in force is at least 1 |
| Subscriptions.EveryInstantBilledOnce | internal/service/subscription.go:134-135 | While counts stay at least 1, every instant from creation to the current end is in exactly one period |
| Subscriptions.CancellationIsFinal | internal/service/subscription.go:99-132 | A cancelled subscription stays cancelled, gains no period and keeps its period and, unless cancelled again, its cancellation time |
| Subscriptions.CancellingEndsRenewals | internal/service/subscription.go:99-132 | A cancellation at any point of any history leaves the row cancelled with the periods it had, whatever operations follow |
| Subscriptions.CancelledExactlyByCancel | internal/service/subscription.go:65-132 | Over any operations the status is cancelled if one of them cancels, and otherwise what it was |
| Subscriptions.UpdateCanStallRenewal | internal/service/subscription.go:80-82 | After an update to count 0 the next renewal bills an empty period |
| Subscriptions.SubscriptionService.CreateSubscription | internal/service/subscription.go:25-55 | Stores an active row with the given amount, interval and count whose first period starts now, or nothing on an error |
| Subscriptions.SubscriptionService.HandleCreate | internal/handler/subscription.go:49-66 | Clamps the count to at least 1 and refuses unknown intervals, stores the request's other values as given, and so every created subscription's first period advances |
| Subscriptions.SubscriptionService.UpdateSubscription | internal/service/subscription.go:65-97 | Replaces exactly the given ones of amount, interval and count and leaves status and period alone; nothing on an error |
| Subscriptions.SubscriptionService.CancelSubscription | internal/service/subscription.go:99-122 | A stored cancellation sets the status cancelled and the cancellation time and leaves amount, plan and periods alone; nothing on an error |
| Subscriptions.SubscriptionService.ProcessRenewal | internal/service/subscription.go:124-150 | An active row moves to the period that starts at its end and has its plan's length, all else unchanged; others are refused, and errors leave the table alone |
| Webhooks.RecordAgreesWithLoop | internal/service/webhook.go:112-139 | The loop sends until the first success, at most five times; the record counts every send exactly if every update was stored; it is final, with the time and code of the last answer, exactly if the last update was; it says delivered exactly if that was stored and one of the five sends succeeds; a failed one ends 15 seconds after the time its five sends took |
| Webhooks.AnswerTimes | internal/service/webhook.go:129-132 | Answers come after the sends so far and pauses of 1, 2, 4 and 8 seconds |
| Webhooks.RecordCountsUpdates | internal/repository/webhook_delivery_repo.go:35-52 | After any number of attempts: attempts count stored updates, completion time is present exactly in the two final states, and a stored last attempt set delivered, retrying, or at the fifth failure failed, with its answer |
| Webhooks.RecordsAreIndependent | internal/service/webhook.go:97 | However the retry loops interleave, each record is what its own loop alone would have written |
| Webhooks.StartedExactly | internal/service/webhook.go:77-99 | A loop starts exactly once for each active matching config whose record was created |
| Webhooks.WebhookService.EventMatches | internal/service/webhook.go:103-110 | True exactly if the list has the wildcard or the event type |
| Webhooks.WebhookService.Deliver | internal/service/webhook.go:63-101 | Starts a loop exactly for the active configs that list the wildcard or the type and whose record was created, in order; each gets one pending record with the given type and payload and five attempts |
| Webhooks.WebhookService.UpdateStatus | internal/repository/webhook_delivery_repo.go:35-52 | If stored, sets status, code, body and error, adds one attempt, and stamps completion exactly in the final states |
| Webhooks.WebhookService.SendWithRetry | internal/service/webhook.go:112-139 | Makes as many sends as the first success among five needs, and five without one; sleeps 0, 1, 3, 7 or 15 seconds; a stored last update says delivered or failed with the last answer, and delivered is recorded exactly if also one of the five succeeds |
| RateLimiter.EachMinutePassesExactly | internal/middleware/rate_limit.go:18-46 | Over any ordered trace an address passes in a clock minute exactly the smaller of limit and requests, plus those the store was down for |
| RateLimiter.AnySpanPassesAtMostTwice | internal/middleware/rate_limit.go:18-46 | With a working store at most twice the limit passes in any 60-second span |
| RateLimiter.TwiceTheLimitCanPass | internal/middleware/rate_limit.go:18-46 | That bound is attained within two seconds |
| RateLimiter.CountersAreExact | internal/middleware/rate_limit.go:20-29 | The 120-second expiry never resets a counter inside its own minute |
| RateLimiter.RateLimiter.Handle | internal/middleware/rate_limit.go:14-49 | Decides as specified from the requests served before; with a working store the minute's counter is raised, or set to 1 for 120 seconds, and the request passes exactly if it is within the limit |
| TokenBlacklist.RevokedTokensStayOut | internal/middleware/auth.go:76-120 | After an effective logout and any later logouts, a revoked token is accepted only if parsed before its expiry and looked up after its entry's, so never when both happen at one instant |
| TokenBlacklist.LogoutRevokesExactly | internal/handler/auth.go:151-173 | A logout revokes a live token exactly if the store works and the token has an expiry claim and a non-empty identifier |
| TokenBlacklist.OthersLogoutsDoNotRevoke | internal/middleware/auth.go:76-124 | A token whose identifier no logout has carried is accepted while its claims are valid, after any number of logouts and whatever the store does |
| TokenBlacklist.AuthStore.Logout | internal/handler/auth.go:151-173 | Writes an entry with the remaining lifetime exactly under the handler's nested conditions |
| TokenBlacklist.AuthStore.Check | internal/middleware/auth.go:45-125 | Expired, revoked by a live entry of a non-empty identifier in a working store, and otherwise accepted, each exactly |
| Pagination.PagesCoverList | internal/model/pagination.go:28-44 | Pages 1 to TotalPages concatenated give back the list |
| Pagination.PagesAreNonEmpty | internal/model/pagination.go:32-36 | A page is non-empty exactly up to TotalPages, and full before the last |
| Pagination.RowIsOnItsPage | internal/model/pagination.go:28-30 | Row k of the list is on page k / size + 1 at position k % size, and on no other page |
| Pagination.PaginationParams.Normalize | internal/model/pagination.go:16-26 | Clamps the page to at least 1 and the size into 1 to 100, leaving good values alone |
| Pagination.PaginationParams.Offset | internal/model/pagination.go:28-30 | The offset is the page size times the pages before, and selects exactly that page |

## Left out

- Liveness: no claim that every job finishes or every payment completes, since nothing reclaims a lost row.
- One clock: the application's clock, the database's `NOW()` and the store's clock are taken to be the same, in whole units; a claim's `NOW()` is the time of its select step.
- Calendar.FastMonthStart: stands for the day count inside Go's standard library, which is not part of this model.
- TaskQueue.BackgroundService: a worker's round is modelled, not the endless loop with its poll sleep and context check.
- Hub.Hub: each hub action is one atomic step; Go's data race on the client map between `Run` and `BroadcastToRoom`, and what a panicking broadcast had already delivered, are not modelled.
- Hub.Hub.BroadcastToAll: models the moment the hub takes the message from its `broadcast` channel, not the wait to put it there.
- Payment.PaymentService: error messages, metadata, currencies, event publishing and provider transaction ids are not carried; a refund is one step because only its insert reaches the table.
- Payment.PaymentService.Refund: no cap on total refunds, since the code has none.
- Transactions.MockCharge: exact integers replace the floating-point product, which may differ by one unit at whole boundaries.
- Billing.OnePercent: exact integers replace the floating-point product, likewise.
- Billing.CalculateFees: the two aggregates only; the query also selects the currency without grouping by it, which PostgreSQL rejects.
- Subscriptions: times are in UTC, each operation is one atomic read-modify-write, and the soft delete and raw status update of the repository are not modelled.
- Webhooks.WebhookService.Deliver: the failing config query, the payload encoding and the signature are not modelled.
- TokenBlacklist: signature checking is a premise, entry lifetimes are not rounded to milliseconds, and identifiers are unique per token.
- HTTP binding and routing, role checks, cryptography, exchange rates, invoices, payouts, disputes, and merchant, customer, product and key management: storage or library code with easy single-row behaviour.

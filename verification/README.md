# Verification of the ride-hailing backend

A Dafny model of the stateful cores of the services, with proofs about whole runs of them. Database rows and Redis
structures are the state, and every endpoint, cron or consumer is a sequence of atomic steps on it.

* **Outbox** (`OutboxPublisher`, `OutboxProtocol`, `OutboxProgress`, `OutboxDuplicates`, `OutboxBound`,
  `OutboxConsumer`, `OutboxDelivery`, `OutboxCalls`, `OutboxDeadLetters`): publishers lease
  rows, append them to a Redis stream and settle them; consumers of a group route, retry and park the entries.
* **Payments** (`RefundArithmetic`, `Payments`, `PaymentLedger`): checkout splits, webhooks, partial refunds, the ledger and the
  cached payout summaries.
* **Trips** (`TripMatching`, `TripRaces`, `TripAlone`, `TripCalls`, `TripOtp`, `DeviationWindow`): bids, the
  race between the passenger and the auto-matcher, the status endpoints, the one-time code and the debounced deviation alerts.
* **Limits and tokens** (`RateLimit`, `AuthWindow`, `RefreshTokens`, `RefreshRuns`, `RefreshAlone`).
* **Zones and scores** (`Polygons`, `GeoZones`, `ZoneCacheRuns`, `ScoreReplay`, `ScoreRuns`).
* **Fraud** (`FraudSignals`, `FraudSteps`, `FraudSpacing`, `FraudScores`, `FraudReplay`, `FraudHolds`, `FraudCases`,
  `FraudAlone`): signals, risk scores, holds and cases, first with each call alone and then with every await open.

Each service that updates rows in place is a class whose methods are proved against functions on values. Those functions are
then the steps of a transition system: `Next` is one atomic step, which does nothing when its guard does not hold, and `Run`
is any finite sequence of steps, so a statement about `Run` covers every interleaving, duplicate, loss and crash that the
actions name. Clocks, random secrets, gateway answers and query results with a free order are parameters of the actions.
Wherever a call takes several steps, a lemma shows that its steps, undisturbed, come to the method.
One SQL or Redis command is one step and a `$transaction` is one step; where a call reads before it writes, read and write
are separate steps unless a row below says "undisturbed" or the last section makes each call one step. A law that fails when
calls overlap comes as a run from the initial state that breaks it, the exact guard on one step, the theorem that the law holds
throughout a run if and only if every step meets the guard, and a schedule that meets it: calls one at a time.

Where the code and its documentation differ, the model follows the code:

* docs/REFUNDS.md gives a fully refunded payment the status REFUNDED for good; the webhook's idempotency check looks for
  APPROVED only, so a late webhook reopens it (`PaymentLedger.LawExactly`).
* docs/FSM.md lists the cancellations allowed; the cancel endpoints refuse only a ride in progress without the SAFETY reason,
  so a completed or cancelled trip can be cancelled (`TripMatching.MovesBeyondDocs`).
* docs/SAFETY.md announces one extra alert for two major deviations; the code raises it on every firing from the second on
  (`DeviationWindow.MajorAlertCount`).
* docs/SAFETY.md gives alerts for RED and CAUTION zones only; a SAFE zone is chosen like the others when it is the highest
  (`GeoZones.IsHighest`) and the code then raises the CAUTION alert.

The initial rows are those of services/ride/prisma/schema.prisma: score 100 with status NONE, risk 0 with level LOW, bids PENDING.

## Model

| member | source | states |
|---|---|---|
| `OutboxPublisher.Publisher.ClaimPendingBatch` | services/ride/src/ride/outbox-publisher.service.ts:33-74 | undisturbed, claims exactly the oldest rows, up to the limit, that are unpublished and either unlocked or locked more than a lease ago, gives exactly those the new lock, and changes no other row |
| `OutboxPublisher.Publisher.PublishPendingBatch` | services/ride/src/ride/outbox-publisher.service.ts:80-131 | undisturbed, each claimed row ends published and unlocked, or unlocked with one more attempt; no other row changes; the stream grows by what was appended, in order |
| `OutboxPublisher.CandidatesMean` | services/ride/src/ride/outbox-publisher.service.ts:34-46 | the candidate query answers with those rows, oldest first, and leaves one out only behind a full list of older ones |
| `OutboxPublisher.ReadBackMeans` | services/ride/src/ride/outbox-publisher.service.ts:65-73 | the read-back returns exactly the candidate rows that are unpublished and carry a lock of the instance taken at this claim or later |
| `OutboxPublisher.ShortBatchLeavesFailures` | services/ride/src/ride/outbox-publisher.service.ts:36-61 | after a batch that was not cut off by its limit, a row is still claimable if and only if it was in the batch and its delivery failed |
| `OutboxProtocol.ClaimEachIsUpdateMany` | services/ride/src/ride/outbox-publisher.service.ts:51-61 | the row-by-row claim of the interleaved protocol is the table-wide conditional update |
| `OutboxProtocol.NextKeepsLocks` | services/ride/src/ride/outbox-publisher.service.ts:33-131 | every atomic step of every publisher keeps locks, attempts and publications in agreement with the history of claims, releases and publications |
| `OutboxProtocol.LeasesExclude` | services/ride/src/ride/outbox-publisher.service.ts:33-74 | in every run of any number of instances, batches and crashes, two claims of one row with no failure release between them lie more than the later claim's lease apart |
| `OutboxProtocol.OnlyHolderPublishes` | services/ride/src/ride/outbox-publisher.service.ts:101-112 | a row becomes published only in a step of a batch whose instance holds its lock at that moment, and is unlocked by that step |
| `OutboxProtocol.OnlyHolderReleases` | services/ride/src/ride/outbox-publisher.service.ts:113-128 | and goes back with one more attempt only likewise |
| `OutboxProtocol.PublishedIsFinal` | services/ride/src/ride/outbox-publisher.service.ts:37-61 | a published row never changes again in any continuation of the run |
| `OutboxProgress.StaleLeaseIsTaken` | services/ride/src/ride/outbox-publisher.service.ts:33-74 | from any state, the candidate query, update and read-back of an undisturbed batch take every candidate, those whose holder crashed more than a lease ago with a steal in the log |
| `OutboxProgress.BatchIsItsSteps` | services/ride/src/ride/outbox-publisher.service.ts:80-131 | and the rest of its steps settle exactly those rows as `PublishPendingBatch` does, whatever each append and update comes to, and append exactly what was not refused, in order |
| `OutboxProgress.LostAnswers` | services/ride/src/ride/outbox-publisher.service.ts:101-128 | a lost answer to the append comes to an error after it, and one to the mark leaves the row marked all the same |
| `OutboxProgress.NothingStaysStuck` | services/ride/src/ride/outbox-publisher.service.ts:33-131 | so from any state in which the others have stopped, one batch publishes every unpublished row that is unlocked or locked more than a lease ago, up to its limit |
| `OutboxDuplicates.NextKeepsDup` | services/ride/src/ride/outbox-publisher.service.ts:33-131 | a batch appends a row only after claiming it, and at most once, while read-backs return only what their own batch claimed |
| `OutboxBound.NextSparesExactly` | services/ride/src/ride/outbox-publisher.service.ts:65-73 | a step keeps every row's entries, those it has and those that batches are about to append, within its claims if and only if each row it reads back has a claim to spare |
| `OutboxBound.ClaimsCoverExactly` | services/ride/src/ride/outbox-publisher.service.ts:51-125 | that holds throughout a run of any number of batches, instances and crashes if and only if every read-back in it finds claims to spare |
| `OutboxBound.DuplicateBound` | services/ride/src/ride/outbox-publisher.service.ts:51-125 | and then the stream entries of a row are at most its claims, which are exactly its stale steals, its attempts, and one more if it is locked or published |
| `OutboxBound.OwnReadBacksAreRoomy` | services/ride/src/ride/outbox-publisher.service.ts:65-73 | batches that read back only what they claimed themselves meet the condition |
| `OutboxBound.OneBatchIsRoomy` | services/ride/src/ride/outbox-publisher.service.ts:65-73 | and so does a scheduler that runs one batch at a time per instance, with any number of instances, crashes and steals |
| `OutboxBound.OverlapBreaksBound` | services/ride/src/ride/outbox-publisher.service.ts:65-73 | a run in which two overlapping batches of one instance put a row into the stream twice on one claim, because the read-back names the owner by instance |
| `OutboxConsumer.Consumer.HandleFailure` | services/ride/src/ride/outbox-consumer.service.ts:81-104 | counts one failure; at the limit the entry moves from the pending list to the dead-letter stream and its counter is cleared |
| `OutboxConsumer.Consumer.ConsumeEntries` | services/ride/src/ride/outbox-consumer.service.ts:106-122 | the whole batch comes to the handlings one after another, each entry acknowledged or counted as failed |
| `OutboxConsumer.Consumer.ConsumeBatch` | services/ride/src/ride/outbox-consumer.service.ts:149-171 | reads the next entries of the stream up to the count, makes them pending and handles them in order |
| `OutboxConsumer.Consumer.RecoverPending` | services/ride/src/ride/outbox-consumer.service.ts:124-147 | handles only pending entries that are idle long enough, and all of them when the pending list fits the page |
| `OutboxConsumer.HandlingsSpendBudget` | services/ride/src/ride/outbox-consumer.service.ts:81-122 | each handling of a pending entry lowers the sum of (maxRetries - failures) over the pending list by at least one, and failures stay below maxRetries |
| `OutboxConsumer.PendingDrains` | services/ride/src/ride/outbox-consumer.service.ts:81-122 | no sequence of handlings is longer than that sum, and one that spends it all leaves nothing pending |
| `OutboxConsumer.EntryOutcome` | services/ride/src/ride/outbox-consumer.service.ts:81-122 | an entry reaches the dead-letter stream once, after exactly maxRetries failed routings, or is routed with fewer, or is pending with each of its failures counted |
| `OutboxDelivery.SuccessIsHandled` | services/ride/src/ride/outbox-consumer.service.ts:113-115 | the Redis commands of an undisturbed successful routing come to one handling: acknowledged, counter cleared |
| `OutboxDelivery.FailureIsHandled` | services/ride/src/ride/outbox-consumer.service.ts:81-104 | those of an undisturbed failed routing come to one counted failure, or at the limit to one move to the dead-letter stream |
| `OutboxCalls.BatchIsItsSteps` | services/ride/src/ride/outbox-consumer.service.ts:149-171 | the group read and then the commands entry by entry come to `ConsumeBatch`, whichever entries fail |
| `OutboxCalls.RecoveryIsItsSteps` | services/ride/src/ride/outbox-consumer.service.ts:124-147 | and those of recovered entries to the handlings of `RecoverPending` |
| `OutboxCalls.RoutedYetFailed` | services/ride/src/ride/outbox-consumer.service.ts:110-122 | an entry whose acknowledgement or cleanup errs, or loses its answer, after its routing is counted as failed all the same, and stays pending unless it was acknowledged |
| `OutboxCalls.NewCallsAreNew` | services/ride/src/ride/outbox-consumer.service.ts:106-171 | no call takes the place of another one under way |
| `OutboxDelivery.NextKeepsGroup` | services/ride/src/ride/outbox-consumer.service.ts:81-171 | every Redis command of every consumer, with a crash or a lost answer after it, keeps each stream entry unread, pending, routed or in the dead-letter stream |
| `OutboxDelivery.NoEventLost` | services/ride/src/ride/outbox-consumer.service.ts:81-171 | end to end, over every interleaving of publishers and consumers with crashes: a row marked published has a stream entry, and every stream entry is unread, pending, routed or in the dead-letter stream |
| `OutboxDeadLetters.ParkedAfterRetries` | services/ride/src/ride/outbox-consumer.service.ts:81-104 | over the same interleavings, an entry reaches the dead-letter stream only after maxRetries counted failures of it, and each further time only after one more |
| `RefundArithmetic.RoundingBound` | services/payment/src/payments/payments.service.ts:384-390 | for any refunds with sum R of a payment t with commission c, floor(R * c / t) less the reversed commission lies between 0 and the number of refunds less one |
| `RefundArithmetic.RoundingBoundIsSharp` | services/payment/src/payments/payments.service.ts:384-390 | for every number of refunds some payment attains that bound |
| `RefundArithmetic.DriverNetBound` | services/payment/src/payments/payments.service.ts:320-329 | the reversed commission never exceeds the commission, the ledger net is at least -(k - 1), and the net shown exceeds it by at most k - 1 |
| `RefundArithmetic.FullRefundShowsZero` | services/payment/src/payments/payments.service.ts:320-329 | a fully refunded trip shows the driver exactly zero, however it was refunded |
| `RefundArithmetic.FrozenCommissionWithinPrice` | services/payment/src/payments/payments.service.ts:62-69 | the commission frozen at checkout lies between zero and the price for every price if and only if the discounted rate and the floor allow it |
| `RefundArithmetic.CommissionWithinPrice` | services/payment/src/payments/payments.service.ts:121-123 | a rate keeps the commission between zero and the price for every price if and only if it lies in 0..10000 |
| `RefundArithmetic.SplitMeans` | services/payment/src/payments/payments.service.ts:384-390 | one refund gives back its share of the commission rounded down, and the rest from the driver |
| `Payments.CheckoutMeans` | services/payment/src/payments/payments.service.ts:121-142 | a checkout is refused for a second payment of a trip or a price below 1, and otherwise freezes the price, the commission rounded down, and the rest for the driver |
| `Payments.RefundVerdict` | services/payment/src/payments/payments.service.ts:488-509 | which check refuses a refund request, and exactly when it goes to the gateway and for how much |
| `Payments.PaymentsService.ProcessWebhook` | services/payment/src/payments/payments.service.ts:162-281 | undisturbed, an APPROVED payment is left untouched; otherwise approval ends APPROVED and settled unless the money is held, rejection REJECTED and FAILED, anything else PENDING, and the three approval entries are booked exactly when an approval finds no earning |
| `Payments.PaymentsService.AdminRefundTripPayment` | services/payment/src/payments/payments.service.ts:476-663 | undisturbed, every refusal leaves payments, ledger and summaries as they were, a declined gateway call leaves only a failed refund row, and an accepted one books the amount asked, or what is left: in full the payment ends REFUNDED with its settlement FAILED, in part APPROVED, with a held settlement still held |
| `PaymentLedger.LedgerConserved` | services/payment/src/payments/payments.service.ts:178-257 | over every interleaving of checkouts, duplicated, reordered or lost webhooks and refunds: per trip the ledger balances, each approval entry is booked at most once, and refund reversals, refunded_amount and approved refunds agree within the price; per driver the payout summary is the sum over the ledger, with gross = commission + net |
| `PaymentLedger.RefundKeepsBooks` | services/payment/src/payments/payments.service.ts:482-614 | a refund request in any state keeps all of those books, whatever the gateway answers |
| `PaymentLedger.WebhookKeepsBooks` | services/payment/src/payments/payments.service.ts:178-281 | a webhook's writes keep them too, however stale its status read |
| `PaymentLedger.WebhookIsItsSteps` | services/payment/src/payments/payments.service.ts:162-281 | an undisturbed webhook comes to `ProcessWebhook` and leaves nothing in memory; on an APPROVED payment it does nothing |
| `PaymentLedger.RefundedMeansFull` | services/payment/src/payments/payments.service.ts:571-588 | in every run a REFUNDED payment is refunded to exactly its total, with a failed settlement |
| `PaymentLedger.DriverNetInRuns` | services/payment/src/payments/payments.service.ts:320-329 | in every run the driver's ledger net of a trip refunded k times is at least -(k - 1), and the net shown is within k - 1 above it |
| `PaymentLedger.RefundsStayUnique` | services/payment/src/payments/payments.service.ts:492-531 | in every run there is one refund row per request, one per gateway refund id, and at most one refund of a payment in progress |
| `PaymentLedger.LawExactly` | services/payment/src/payments/payments.service.ts:179-179 | the documented state of a full refund (REFUNDED, settlement FAILED) holds throughout a run if and only if no webhook is written to a fully refunded payment |
| `PaymentLedger.LateApprovalReopens` | services/payment/src/payments/payments.service.ts:179-198 | an approval webhook after a full refund makes the payment APPROVED again |
| `PaymentLedger.LawFailsInSomeRun` | services/payment/src/payments/payments.service.ts:179-198 | and a run from the empty tables reaches such a state |
| `TripMatching.TripRows.CreateBid` | services/ride/src/ride/ride.service.ts:885-913 | an offer is kept exactly when the trip is bidding and the price is between seven tenths of the base, rounded half up, and twice the base; a repeated offer updates the driver's one bid and keeps its status |
| `TripMatching.TripRows.Accept` | services/ride/src/ride/ride.service.ts:937-1000 | accepts exactly a pending bid of a bidding trip for its passenger, assigns driver and price, and rejects the other pending bids |
| `TripMatching.TripRows.AutoMatch` | services/ride/src/ride/ride.service.ts:1015-1071 | undisturbed, the first pending bid with the least price plus ten times the arrival minutes, none counting 0, wins at its price, or the trip expires when there is none |
| `TripMatching.MovesBeyondDocs` | services/ride/src/ride/ride.service.ts:1081-1562 | the status checks of the endpoints allow every move that docs/FSM.md lists, and beyond those exactly: cancelling a trip that waits for its code, is completed, expired or cancelled, and a driver cancelling a trip just matched |
| `TripMatching.MatchSettlesBids` | services/ride/src/ride/ride.service.ts:966-973 | a match leaves no bid pending and none but the winner's won |
| `TripMatching.BestIsFirstLeast` | services/ride/src/ride/ride.service.ts:1038-1040 | the sorted head is the first bid with the least price plus ten times the arrival minutes, none counting 0 |
| `TripRaces.SingleWinner` | services/ride/src/ride/ride.service.ts:938-1071 | for every interleaving of bids, accepts and auto-match scanners, reads split from writes: at most one bid is ever ACCEPTED or AUTO_SELECTED, the trip's driver is that bid's driver, and price_final is an in-range offer that driver made |
| `TripRaces.WinnerIsFinal` | services/ride/src/ride/ride.service.ts:957-972 | once assigned, driver and final price never change in any continuation |
| `TripRaces.CompletedInOrder` | services/ride/src/ride/ride.service.ts:1081-1352 | even when status writes race their own checks, a trip is completed only after it was matched, en route, arrived, then seen with a right, unexpired code and fewer than five misses, and started, in that order |
| `TripRaces.NextRisesExactly` | services/ride/src/ride/ride.service.ts:1081-1562 | a step keeps the statuses rising if and only if its status write, if it makes one, writes from the status it checked, repeats the one already there, or cancels |
| `TripRaces.RisesExactly` | services/ride/src/ride/ride.service.ts:1081-1562 | the statuses of a whole run rise in rank, one cancellation after another aside, if and only if every status write meets that guard |
| `TripRaces.CompletedTookAllSteps` | services/ride/src/ride/ride.service.ts:1081-1352 | when every status write meets the guard, a trip that ends completed took exactly the six documented steps |
| `TripRaces.StaleWriteRevives` | services/ride/src/ride/ride.service.ts:1081-1087 | a run from the request of any trip in which a check made before a cancellation and written after it brings the cancelled trip back |
| `TripAlone.AloneRises` | services/ride/src/ride/ride.service.ts:1081-1562 | status endpoints that run one at a time, lost ones included, meet the guard whatever bids, accepts and scanners do: the statuses rise, and a completed trip took exactly the six steps |
| `TripCalls.BidIsItsSteps` | services/ride/src/ride/ride.service.ts:885-913 | the check and the upsert of an undisturbed offer come to `CreateBid` |
| `TripCalls.AutoMatchIsItsSteps` | services/ride/src/ride/ride.service.ts:1022-1062 | the query and the claim of an undisturbed scanner to `AutoMatch` |
| `TripCalls.ChecksStart` | services/ride/src/ride/ride.service.ts:1081-1125 | a status endpoint goes on to its write, and a verification to its look, exactly from the status and for the caller it demands |
| `TripCalls.MoveFinishes` | services/ride/src/ride/ride.service.ts:1081-1100 | and writes the status it came for; the arrival goes on to a code |
| `TripCalls.ArrivalIssues` | services/ride/src/ride/ride.service.ts:1101-1118 | which is new, without a miss and good for ten minutes; nothing else issues one |
| `TripCalls.LookDecides` | services/ride/src/ride/ride.service.ts:1126-1144 | one look at the code row refuses without a code, after its time or after five misses, and else counts a miss or confirms a hit, as `OtpRows.Verify` does |
| `TripCalls.MissCounts` | services/ride/src/ride/ride.service.ts:1131-1134 | the miss adds one to the count that is there by then |
| `TripCalls.HitConfirms` | services/ride/src/ride/ride.service.ts:1146-1152 | the hit confirms the code and goes on to start the trip |
| `TripOtp.OtpRows.Verify` | services/ride/src/ride/ride.service.ts:1123-1157 | a verification starts the trip exactly on the right code, before its expiry and with fewer than five misses; a wrong one adds a miss, and an alert from the third on; any other refusal changes nothing |
| `TripOtp.MissIsItsSteps` | services/ride/src/ride/ride.service.ts:1123-1144 | the look and the increment of an undisturbed wrong guess come to it |
| `TripOtp.HitIsItsSteps` | services/ride/src/ride/ride.service.ts:1126-1152 | likewise those of a right one, and a refusal leaves nothing behind |
| `TripOtp.ArrivalIsItsSteps` | services/ride/src/ride/ride.service.ts:1093-1118 | and the status and the code of an undisturbed arrival come to `OtpRows.Arrive` |
| `TripOtp.MissesWithinExactly` | services/ride/src/ride/ride.service.ts:1123-1133 | for every interleaving and every limit, five among them: the misses of the code at hand, recorded or decided, stay within the limit throughout a run if and only if each wrong guess is seen while they are below it |
| `TripOtp.AlertsWithinExactly` | services/ride/src/ride/ride.service.ts:1130-1143 | likewise for the alerts raised and those due from decided misses, three among the limits, if and only if each wrong guess that sees two misses or more is seen while they are below it |
| `TripOtp.FailingIsExceeding` | services/ride/src/ride/ride.service.ts:1130-1143 | either law fails exactly when recording what has been decided, without another guess, takes the row past the limit or raises more alerts than that |
| `TripOtp.MissBound` | services/ride/src/ride/ride.service.ts:1123-1143 | with at most w failing verifications overlapping, each issued code takes at most 4 + w misses, in every run |
| `TripOtp.MissBoundIsMet` | services/ride/src/ride/ride.service.ts:1123-1143 | for every w above 0 a run from the driver's way to the pickup stays within that overlap and records 4 + w misses on the one code issued |
| `TripOtp.FiveMissesThreeAlerts` | services/ride/src/ride/ride.service.ts:1123-1143 | without overlapping, both guards are met, at five and at three, and a trip sees at most 5 misses and 3 alerts |
| `TripOtp.OverlapAddsAll` | services/ride/src/ride/ride.service.ts:1123-1133 | verifications that all look before any of them counts add all their misses, so the limit of five is exceeded whenever enough overlap |
| `TripOtp.AnyNumberOfMisses` | services/ride/src/ride/ride.service.ts:1093-1133 | a run from the driver's way to the pickup reaches any number of misses on the one code issued |
| `TripOtp.StartNeedsHit` | services/ride/src/ride/ride.service.ts:1127-1152 | a trip gets under way only after a verification saw a right, unexpired code with fewer than five misses |
| `DeviationWindow.Tracker.Track` | services/ride/src/ride/ride.service.ts:1233-1292 | one sample updates both thresholds and the count and raises the alerts of that sample |
| `DeviationWindow.MajorFiresExactly` | services/ride/src/ride/ride.service.ts:1236-1251 | a major alert fires if and only if every sample since one at least 20 s old was over 700 m and no major alert fired after that sample |
| `DeviationWindow.MinorFiresExactly` | services/ride/src/ride/ride.service.ts:1242-1289 | a minor alert fires if and only if no major one does, every sample since one at least 20 s old was over 300 m, and no minor alert fired after that sample |
| `DeviationWindow.AlertsApart` | services/ride/src/ride/ride.service.ts:1248-1289 | alerts of one kind are at least 20 s apart |
| `DeviationWindow.MajorAlertCount` | services/ride/src/ride/ride.service.ts:1251-1276 | m major firings create exactly 2m - 1 major alerts |
| `RateLimit.RateLimiter.IsAllowed` | services/ride/src/ride/rate-limit.service.ts:12-42 | counts the request in the store in use, in Redis on a live key without touching its expiry and else from 1 with a new one, in memory with a new expiry each time; leaves every other key and the other store alone; allows it while the count is within the maximum |
| `RateLimit.WindowIsFixed` | services/ride/src/ride/rate-limit.service.ts:30-32 | a Redis key opened by a request expires one window after it and counts every request up to then, refused ones too, none of which moves the expiry |
| `RateLimit.NextWindowOpens` | services/ride/src/ride/rate-limit.service.ts:30-32 | the first request past that instant opens the next one |
| `RateLimit.RedisAllowsExactly` | services/ride/src/ride/rate-limit.service.ts:30-33 | Redis allows exactly the requests with fewer than the maximum before them in the window they fall in |
| `RateLimit.RedisPerWindow` | services/ride/src/ride/rate-limit.service.ts:30-33 | within less than one window Redis passes at most 2 * max - 1 requests |
| `RateLimit.RedisPerWindowIsMet` | services/ride/src/ride/rate-limit.service.ts:30-33 | for every maximum a trace attains that bound |
| `RateLimit.RefinesExactly` | services/ride/src/ride/rate-limit.service.ts:12-42 | on any trace the memory limiter is at least as strict as Redis for every request and maximum if and only if no request comes exactly one window after the last one while its Redis key still lives |
| `RateLimit.RefinesWhenKeysExpireOnTime` | services/ride/src/ride/rate-limit.service.ts:12-42 | with keys gone at their expiry instant, every request the memory limiter allows is allowed by Redis |
| `RateLimit.EdgeBreaksRefinement` | services/ride/src/ride/rate-limit.service.ts:16-26 | with keys that live through it, two requests exactly one window apart break the refinement |
| `RateLimit.AtMostMaxPerWindow` | services/ride/src/ride/rate-limit.service.ts:37-41 | among requests within less than one window the memory limiter allows at most the maximum |
| `RateLimit.MemoryAllowsExactly` | services/ride/src/ride/rate-limit.service.ts:12-41 | which requests the memory limiter allows: the first max, and those with a silence of at least a window among the last max gaps |
| `AuthWindow.Middleware.Use` | apps/api-gateway/src/auth/auth-rate-limit.middleware.ts:18-43 | opens a bucket, takes a place in it, or refuses, for one key and no other |
| `AuthWindow.OpeningsApart` | apps/api-gateway/src/auth/auth-rate-limit.middleware.ts:33-34 | requests that open buckets of one key are at least one ttl apart |
| `AuthWindow.WindowBound` | apps/api-gateway/src/auth/auth-rate-limit.middleware.ts:30-42 | requests of one key within less than one ttl pass at most 2 * limit - 1 times (a limit below one counts as one) |
| `AuthWindow.WindowBoundIsMet` | apps/api-gateway/src/auth/auth-rate-limit.middleware.ts:30-42 | for every limit a trace attains that bound |
| `RefreshTokens.AuthService.Refresh` | services/auth/src/auth/auth.service.ts:171-197 | rotates a live token, ends all sessions of the user on a revoked one, and changes nothing for an unknown or expired one |
| `RefreshTokens.AuthService.Logout` | services/auth/src/auth/auth.service.ts:199-223 | revokes the token presented, or all unrevoked tokens of its user |
| `RefreshTokens.RotationNeedsLiveToken` | services/auth/src/auth/auth.service.ts:171-197 | a refresh adds a token if and only if the one presented is known, unrevoked and unexpired, and then revokes and links that one |
| `RefreshRuns.RefreshIsItsSteps` | services/auth/src/auth/auth.service.ts:171-197 | the read, issue, replace and sweep steps of an undisturbed refresh come to that call |
| `RefreshRuns.LogoutIsItsSteps` | services/auth/src/auth/auth.service.ts:199-223 | and the steps of a logout to `AuthService.Logout` |
| `RefreshRuns.RotationLeavesNothing` | services/auth/src/auth/auth.service.ts:171-197 | no refresh, and none that stops before its issue, leaves anything in memory |
| `RefreshRuns.SweepLeavesNothing` | services/auth/src/auth/auth.service.ts:179-211 | nor does a sweep, or one that stops before it |
| `RefreshRuns.TokenChains` | services/auth/src/auth/auth.service.ts:171-197 | for every interleaving of logins, refreshes split at each await, logouts and aborted calls, the replaced_by links form disjoint acyclic chains of one user each, with every row but the last revoked (refresh token rotation, section 10.4 of RFC 6749) |
| `RefreshRuns.TokenBalance` | services/auth/src/auth/auth.service.ts:43-223 | for every interleaving a user's unrevoked tokens are exactly the logins, plus the issued rows still to replace their old one, plus those that replaced a row already revoked or never came to replace it, less the tokens ended by logouts and sweeps |
| `RefreshRuns.ActiveAtMostLogins` | services/auth/src/auth/auth.service.ts:43-223 | a user's unrevoked tokens stay within the logins and refreshes half-way throughout a run if and only if every replacement of a revoked row, and every refresh that stops after issuing, comes when more tokens have been ended than were late before |
| `RefreshRuns.BoundWithoutEndings` | services/auth/src/auth/auth.service.ts:171-197 | without logouts and sweeps that is: if and only if there is none of either |
| `RefreshAlone.NeverLateIsWithin` | services/auth/src/auth/auth.service.ts:171-223 | with logouts and sweeps at any time, none of either suffices |
| `RefreshAlone.LoneRefreshesStayWithin` | services/auth/src/auth/auth.service.ts:171-223 | and there is none when nobody reads or revokes a row of the user while a refresh of the user is under way and that refresh, once it has issued, goes on to replace, whatever other users do |
| `RefreshRuns.SweepFinalExactly` | services/auth/src/auth/auth.service.ts:179-211 | after the revocation of all of a user's tokens none is unrevoked until the next login, whatever follows, if and only if no refresh of that user stands between its read and its issue |
| `RefreshRuns.ReuseEndsSessions` | services/auth/src/auth/auth.service.ts:179-185 | so presenting a revoked token ends the user's sessions until the next login whenever no such refresh is under way |
| `RefreshRuns.OverlapSplitsChain` | services/auth/src/auth/auth.service.ts:172-193 | a run from the empty table in which two refreshes of one token overlap and leave two unrevoked tokens from one login |
| `RefreshRuns.IssueOutlivesSweep` | services/auth/src/auth/auth.service.ts:173-193 | a run from the empty table in which a refresh read before a reuse sweep issues a live token after it |
| `Polygons.PointInPolygon` | services/ride/src/ride/ride.service.ts:306-322 | the loop computes the parity of the edges that cross the ray to the east |
| `Polygons.ClosingKeepsInside` | services/ride/src/ride/ride-operations.service.ts:39-46 | closing a polygon changes no answer, and a closed one is left as it is |
| `Polygons.RotationKeepsInside` | services/ride/src/ride/ride.service.ts:306-322 | the answer does not depend on the first vertex |
| `Polygons.ReversalKeepsInside` | services/ride/src/ride/ride.service.ts:306-322 | nor on the direction of the boundary |
| `Polygons.GluingXors` | services/ride/src/meritocracy/meritocracy.service.ts:128-144 | cutting along any chord, a point is inside the whole if and only if it is inside exactly one of the parts |
| `Polygons.ClosedChainIsEven` | services/ride/src/ride/ride.service.ts:315-318 | a closed chain of vertices straddles a horizontal line an even number of times |
| `Polygons.OutsideBoxIsOutside` | services/ride/src/ride/ride.service.ts:306-322 | no point outside the bounding box, or on its north or east side, is inside |
| `Polygons.RectangleExact` | services/ride/src/ride/ride.service.ts:306-322 | on a rectangle the test is exact, with the south and west sides inside and the others outside |
| `Polygons.CrossesBySide` | services/ride/src/ride/ride.service.ts:315-318 | without the division: a rising edge is crossed from its one side and a falling one from the other, from the lower end up to below the upper end |
| `Polygons.TriangleExact` | services/ride/src/ride/ride.service.ts:306-322 | on every triangle with an area, a point on the inner side of all edges is inside and a point on the outer side of any of them is not |
| `Polygons.InsideIsFan` | services/ride/src/ride/ride.service.ts:306-322 | a point is inside any polygon exactly if it is inside an odd number of the triangles that its first vertex makes with its edges |
| `GeoZones.SettledIsRanked` | services/ride/src/ride/ride.service.ts:1196-1198 | although the comparator contradicts itself on ties, any list it settles runs from RED through CAUTION to SAFE |
| `GeoZones.SortInPlace` | services/ride/src/ride/ride.service.ts:1196-1198 | sorting with it permutes the array in place and settles it |
| `GeoZones.FirstContaining` | services/ride/src/ride/ride.service.ts:1195-1204 | the first containing zone of the sorted list has the highest type among all containing zones |
| `GeoZones.HighestMeans` | services/ride/src/ride/ride.service.ts:1195-1204 | which is RED if any RED zone contains the point, else CAUTION if any such zone does, else SAFE if any zone does |
| `GeoZones.ActiveMeans` | services/ride/src/ride/geozone-cache.service.ts:24-24 | the query for active zones returns exactly the active rows, each as often as it is there |
| `GeoZones.GeoZoneService.GetActiveZones` | services/ride/src/ride/geozone-cache.service.ts:18-33 | within one process the answer is a permutation of exactly the active zones, on a hit the cached array itself, on a miss a new one cached for 60 s |
| `GeoZones.GeoZoneService.ZoneOf` | services/ride/src/ride/ride.service.ts:1194-1204 | sorting the cached array where it lies, a location still gets the highest type among the zones active now, and the cache stays right |
| `GeoZones.GeoZoneService.CreateGeoZone` | services/ride/src/ride/ride-operations.service.ts:39-54 | adds the polygon, with its first point again at the end unless that is the same place, and clears the cache, or refuses fewer than three points and changes nothing |
| `GeoZones.GeoZoneService.PatchGeoZone` | services/ride/src/ride/ride-operations.service.ts:60-66 | changes the named fields of one zone and clears the cache |
| `GeoZones.GeoZoneService.DeleteGeoZone` | services/ride/src/ride/ride-operations.service.ts:68-72 | removes one zone and clears the cache |
| `ZoneCacheRuns.AnswersAreRecent` | services/ride/src/ride/geozone-cache.service.ts:18-40 | under every interleaving of readers and writers, other processes included, an answer was active at an instant during its call or less than 60 s before it |
| `ZoneCacheRuns.MissIsItsSteps` | services/ride/src/ride/geozone-cache.service.ts:18-33 | an undisturbed miss queries what is active, caches it for 60 s from when the call began, answers with it and leaves nothing else behind |
| `ZoneCacheRuns.HitIsItsStep` | services/ride/src/ride/geozone-cache.service.ts:19-23 | a hit answers with the cached list, and only a write that invalidates clears it |
| `ZoneCacheRuns.HeldExactly` | services/ride/src/ride/geozone-cache.service.ts:18-40 | every possible next answer is what is active as it returns if and only if the unexpired cache and all lists read and not stored yet are |
| `ZoneCacheRuns.NextHeldExactly` | services/ride/src/ride/geozone-cache.service.ts:18-40 | a step keeps that so if and only if, when it changes the active zones, no reader stands between its query and its store and, unless it clears the cache, none is unexpired |
| `ZoneCacheRuns.AnswersCurrentExactly` | services/ride/src/ride/geozone-cache.service.ts:18-40 | from the start, no answer of the cache is or could at any point be other than current if and only if every write in the run meets that guard |
| `ZoneCacheRuns.AnswersAreCurrent` | services/ride/src/ride/geozone-cache.service.ts:18-40 | and then every answer given in the run was exactly what was active as it returned |
| `ZoneCacheRuns.GapServesOldZones` | services/ride/src/ride/geozone-cache.service.ts:24-29 | a run from an empty cache in which a write between query and store is undone in the cache and the old zones are served until the entry expires |
| `ScoreReplay.ScoreRows.ApplyScoreEvent` | services/ride/src/score/score.service.ts:53-103 | the score clamped to 0..100, its status by the limits 80, 60 and 40, the event and, on entering BLOCKED, one 24 h restriction are written together |
| `ScoreReplay.ScoreRows.ApplyRecoveryOnTripCompletion` | services/ride/src/score/score.service.ts:253-326 | a completed trip earns back what the rules, the day's bonuses and the state of the block allow, and nothing otherwise |
| `ScoreReplay.RecoveryMeans` | services/ride/src/score/score.service.ts:253-326 | which is at most what the cap leaves of the day, 5 for a LIMITED row of 5 clean trips in 30 days, 5 for a BLOCKED one of 3 whose block is over, where each number but the last may be configured |
| `ScoreReplay.BlockLastsADay` | services/ride/src/score/score.service.ts:83-97 | an automatic block bars recoveries for exactly 24 hours from the newest such block |
| `ScoreReplay.LatestAutoMeans` | services/ride/src/score/score.service.ts:306-309 | the block looked up is the newest automatic one |
| `ScoreReplay.SinceMeans` | services/ride/src/score/score.service.ts:268-290 | counts and sums take in exactly the events of their kind that are not older than their instant |
| `ScoreReplay.ScoreIsReplay` | services/ride/src/score/score.service.ts:62-103 | in every run the stored score is the replay of the event log, the status its band, and the automatic blocks are as many as the replay's entries into BLOCKED |
| `ScoreReplay.DailyCapHolds` | services/ride/src/score/score.service.ts:278-326 | however many trips complete, the recovery bonuses of one day never sum above the daily cap |
| `ScoreRuns.EventIsItsSteps` | services/ride/src/score/score.service.ts:62-103 | the read and the transaction of an undisturbed event come to that call |
| `ScoreRuns.RecoveryIsItsSteps` | services/ride/src/score/score.service.ts:253-326 | the look-ups of an undisturbed recovery, one await after another, leave the bonus of that call |
| `ScoreRuns.RestrictionIsItsSteps` | services/ride/src/score/score.service.ts:62-103 | likewise a manual restriction, and the lifting of one, whose event is of 0 |
| `ScoreRuns.ReplayedExactly` | services/ride/src/score/score.service.ts:62-103 | for every interleaving of events, restrictions and recoveries split at each await, with lost calls: score, status and automatic blocks are those of the replayed log throughout a run if and only if each event is written from a score that is still there or leads to the same end of the scale, and a BLOCKED result from a status that was BLOCKED exactly when it still is |
| `ScoreRuns.CappedExactly` | services/ride/src/score/score.service.ts:278-326 | the bonuses of every day stay within the cap throughout a run if and only if each still fits in its day as it is written, what others added since its look-up included |
| `ScoreRuns.AloneKeepsBoth` | services/ride/src/score/score.service.ts:62-326 | calls that run one at a time, lost ones included, keep both laws throughout |
| `ScoreRuns.OverlapLosesDelta` | services/ride/src/score/score.service.ts:71-79 | a run from a new row in which two events read it before either writes: the score keeps only the second, and agrees with the log if and only if the first changes nothing or both results saturate |
| `ScoreRuns.OverlapExceedsCap` | services/ride/src/score/score.service.ts:278-303 | a run from a new row in which two recoveries look up before either adds: bonuses of 10 on a day with a cap of 6 |
| `FraudSignals.FraudService.ApplySignal` | services/ride/src/fraud/fraud.service.ts:98-174 | a repeated signal only counts an occurrence; a new one is recorded, scored, held for and filed |
| `FraudSignals.FraudService.CreateOrAttachCase` | services/ride/src/fraud/fraud.service.ts:176-231 | files the signal in the case with its pair key, else in the newest open one of its user, else in a new one, with the worse of both severities |
| `FraudSignals.FraudService.RaiseRisk` | services/ride/src/fraud/fraud.service.ts:139-164 | the score clamped to 0..100, its level by the limits 80, 50 and 20, and with HIGH a feature limit, with CRITICAL a payout hold in force |
| `FraudSignals.FraudService.CreateHoldIfAbsent` | services/ride/src/fraud/fraud.service.ts:233-262 | adds a hold exactly when none of that kind is in force |
| `FraudSignals.FraudService.DecayRiskScores` | services/ride/src/fraud/fraud.service.ts:361-386 | each user with a positive score and no signal in the last 30 days loses the points, down to 0, and gets a decay signal, in the order read |
| `FraudSignals.SimilarAnswer` | services/ride/src/fraud/fraud.service.ts:75-95 | what the dedupe query returns: signals of the type, and of the user if one is given, within the window, newest first, at most twenty and none left out for an older one |
| `FraudSignals.AnswersSimilar` | services/ride/src/fraud/fraud.service.ts:75-95 | and every such list is a possible answer |
| `FraudSignals.ExistingMeans` | services/ride/src/fraud/fraud.service.ts:93-95 | of them a signal repeats the newest, or with a pair key the newest that carries it |
| `FraudSignals.CasesAnswer` | services/ride/src/fraud/fraud.service.ts:180-188 | the case query returns exactly the open and in-review cases of the user, if one is given, of the last 24 hours, newest first, at most twenty |
| `FraudSignals.ChosenMeans` | services/ride/src/fraud/fraud.service.ts:190-193 | of them a signal joins the newest with its pair key, or else, and without one, the newest |
| `FraudSignals.HoldLasts` | services/ride/src/fraud/fraud.service.ts:241-262 | a hold is in force from its start for exactly its hours, or for good without any, unless released |
| `FraudSteps.RecordsAlone` | services/ride/src/fraud/fraud.service.ts:98-137 | undisturbed, the look and the write of a new signal come to the recording that `ApplySignal` is proved to make |
| `FraudSteps.RepeatsAlone` | services/ride/src/fraud/fraud.service.ts:104-125 | likewise those of a repeated one to one occurrence more |
| `FraudSteps.ScoresAlone` | services/ride/src/fraud/fraud.service.ts:139-150 | likewise the read and the write of its score |
| `FraudSteps.HoldsAlone` | services/ride/src/fraud/fraud.service.ts:152-164 | likewise the look for a hold and the placing of one |
| `FraudSteps.FilesAlone` | services/ride/src/fraud/fraud.service.ts:176-231 | likewise the query for cases, the severity or the new case, and the link |
| `FraudSteps.DecayIsItsSteps` | services/ride/src/fraud/fraud.service.ts:361-386 | and the reads and writes of the decay of one user come to the change of `DecayRiskScores` |
| `FraudSpacing.SpacedExactly` | services/ride/src/fraud/fraud.service.ts:75-386 | for every interleaving of detections and decays split at each await, with crashes: each decay is more than 30 days after every earlier signal of its user, and each new signal more than the dedupe window after every earlier one like it, throughout the run, if and only if each is so from those written between its own look and its write |
| `FraudSpacing.SpacedMeans` | services/ride/src/fraud/fraud.service.ts:79-95 | what that spacing says of two rows: without a pair key the last similar signal counts, with one the last that carries it, unless twenty newer similar ones hide it from the page |
| `FraudSpacing.OverlapRecordsTwice` | services/ride/src/fraud/fraud.service.ts:104-127 | a run from the empty tables in which two detections of one event both look before either records, and record twice |
| `FraudScores.SignalsMatchWrites` | services/ride/src/fraud/fraud.service.ts:127-150 | for every interleaving with crashes, and every user and delta, the signals and the score writes are equally many, but for calls that stand or crashed between the two; repeats write nothing |
| `FraudScores.SettledSignalsAreWrites` | services/ride/src/fraud/fraud.service.ts:127-150 | so where no call stands between the two, log and writes hold each change equally often, whatever the order |
| `FraudScores.LevelsMatch` | services/ride/src/fraud/fraud.service.ts:145-150 | for every interleaving scores stay in 0..100 with the matching level |
| `FraudScores.ReplayedExactly` | services/ride/src/fraud/fraud.service.ts:140-150 | every stored score is the clamped replay of its writes from 0 throughout the run if and only if each write finds the score it read, or one from which its delta runs into the same end of the scale |
| `FraudScores.TwoCronsDecayOnce` | services/ride/src/fraud/fraud.service.ts:365-384 | a run from the empty tables in which two decay crons read one score, so that it falls by the points once while the log holds two decays of the same instant and replays twice the points |
| `FraudReplay.InTurnIsInOrder` | services/ride/src/fraud/fraud.service.ts:127-384 | signals and score writes of a user come in one order throughout a run in which no score is written while an earlier signal of the user owes its own or a decay is about to be recorded, and none is recorded while a decay is |
| `FraudReplay.RiskIsReplay` | services/ride/src/fraud/fraud.service.ts:127-384 | in such a run whose writes find the score they read, the stored score is the clamped replay of the user's signals from 0, decays included, whenever no call of the user stands or crashed between signal and score |
| `FraudReplay.OverlapSwapsOrder` | services/ride/src/fraud/fraud.service.ts:127-150 | a run from the empty tables that writes the scores of two signals in the other order |
| `FraudHolds.HoldsApartExactly` | services/ride/src/fraud/fraud.service.ts:241-262 | for every interleaving with releases and crashes, unreleased holds of one kind on one user end before the next one in the table starts, throughout the run, if and only if none is placed after one of its kind, placed since its look, that is in force at its look; a hold placed late by a call that looked early counts against one that starts after its end, so this is more than not overlapping |
| `FraudHolds.HoldsApartMeansOne` | services/ride/src/fraud/fraud.service.ts:241-249 | so at no time are two holds of one kind on one user in force |
| `FraudHolds.HighRiskIsHeld` | services/ride/src/fraud/fraud.service.ts:139-164 | undisturbed, a new signal that takes its user to HIGH leaves a feature limit in force, one that takes the user to CRITICAL a payout hold |
| `FraudHolds.OverlapHoldsTwice` | services/ride/src/fraud/fraud.service.ts:242-251 | a run from the empty tables that leaves two holds of one kind in force |
| `FraudCases.CasesWeighExactly` | services/ride/src/fraud/fraud.service.ts:180-221 | for every interleaving with crashes, each case is as severe as the worst signal counted in it throughout the run if and only if each severity is written from one that is still the case's, or by a signal at least as severe as both |
| `FraudCases.CaseIsItsWorstSignal` | services/ride/src/fraud/fraud.service.ts:176-231 | in those runs a case without a link outstanding is exactly as severe as the worst signal linked to it, and those signals are its user's or nobody's |
| `FraudCases.OverlapLowersSeverity` | services/ride/src/fraud/fraud.service.ts:212-221 | a run from the empty tables in which a HIGH and a MEDIUM signal of a user meet in a LOW case and leave it MEDIUM |
| `FraudAlone.AloneKeepsAllLaws` | services/ride/src/fraud/fraud.service.ts:75-386 | calls that run one at a time, crashes included, keep spacing, replay of writes, separate holds and severities throughout |
| `FraudAlone.AloneReplaysSignals` | services/ride/src/fraud/fraud.service.ts:127-384 | and when none crashes between a signal and its score, the score is the clamped replay of the user's signals whenever no call is under way |

## Left out

- OutboxProtocol: candidates, update and read-back use one clock per batch, as the code does; clocks of different instances are not related.
- OutboxConsumer.EntryOutcome: the expiry of the failure hash is left out, so counters do not vanish while an entry is retried.
- OutboxDelivery: which consumer owns a pending entry is left out; any consumer may recover any pending entry at any time, which only allows more runs.
- OutboxConsumer: the routing of event types to handlers (lines 40-79 of the consumer) is a success or a failure; metrics, logging and group creation are left out.
- PaymentLedger.LedgerConserved: a `$transaction` is one step, so the lost update of one driver's summary by two transactions that read it at the same time is not modelled.
- Payments: products of amounts are exact integers, not doubles, so results beyond 2^53 are not modelled; nor is the signature check, nor the lookup of a payment by gateway id.
- Payments: an SQL error after an accepted gateway refund rolls the tables back, which leaves them as before the call; the gateway's own books are not part of this model.
- Payments: the refund fraud signals, the bonus adjustment row and total_bonus_discount of the summary are left out; they feed none of the sums.
- TripMatching: eligibility checks before a bid (KYC, holds, payment account) and all notifications are left out; the price bounds are exact where the code rounds products of doubles.
- TripRaces: the admin's cancel, reassign and retry jumps (lines 1918-1994 of the ride service) bypass the status order by design and are left out.
- TripOtp: the two writes of a successful verification are one step there and two in `TripRaces`; nothing reads verified_at. Alerts are counted in `TripOtp` only.
- DeviationWindow.MajorFiresExactly: distances are parameters (no haversine), samples of one trip are handled one at a time as the 2 s throttle intends, and the 30 min expiry of the window ends a sample stream.
- RateLimit: one store per trace; a failed EXPIRE after INCR and a switch of stores within a window are left out.
- AuthWindow: the derivation of the key from token or address is left out.
- RefreshRuns.TokenChains: a new secret never collides with one in use (64 random bytes). Access tokens and the account checks of login are left out.
- Polygons: coordinates are reals, not doubles.
- GeoZones.SortInPlace: `Array.prototype.sort` is modelled as insertion with the source's comparator; `SettledIsRanked` covers every other comparison sort.
- ScoreReplay.ScoreIsReplay: each call is one step; `ScoreRuns` has every await open. Days are 24 h long with a fixed offset; badges and messages are left out.
- FraudReplay.InTurnIsInOrder: one way only; deltas that happen to be equal may be swapped without the order showing.
- FraudSteps: decay points are not negative; `FraudScores.DecayKeepsRange` states what a negative setting would do. The detections that choose inputs, auto-closing of low cases and payload texts are left out.
- FraudSteps.DecayIsItsSteps: the decays of one cron are one task per user, which allows more interleavings than the loop.
- Matching weights, levels, monthly bonuses, driver KYC, support, notifications, the admin panel and the API gateway's routing are left out: queries and single-row updates, or plumbing.

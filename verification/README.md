# PayFlowMock: a verified model of its protocols

PayFlowMock is a payment service in Go. Three stateful protocols carry its promises: the
idempotency middleware over Redis and Postgres, the payment service with its transactional
outbox, and the webhook workers that drain that outbox. This project models each of them in
Dafny 4.11 and proves what they keep in every interleaving.

## How the model is built

Each protocol is written twice.

* A **transition system** (`IdempotencyModel`, `PaymentModel`, `OutboxModel`). Every Redis
  command, SQL statement or transaction is one atomic step. Any number of requests, calls or
  workers interleave at those steps. A step may fail, may take effect although its caller sees
  an error (`Unacked`), and a request, call or worker may be cancelled, panic or die. A run is
  a sequence of labels and `Run` folds them, so a lemma over all label sequences is a theorem
  about all interleavings.
* **Imperative code** (`IdempotencyServer`, `PaymentStore` and `PaymentService`,
  `OutboxWorker`). Store classes hold the tables and change them statement by statement, with
  rollback. Service classes run the control flow of the Go code on top of them. Between any
  two of their steps, `Interfere` lets everybody else act; its contract allows every sequence
  of other labels. The ghost field `trace` is the run so far and `Valid()` says that the stores
  and all processes are exactly where `Run` leads. So each method is proved to be a run of the
  transition system, and every theorem about runs applies to the tables at hand.

Identifiers of requests, payments, refunds and events are fresh numbers (0 is the nil UUID),
time is one integer clock in nanoseconds, backoff is computed over reals. A payload carries the
number of the handler run that produced it; no step reads it.

| file | content |
|---|---|
| `Text.dfy`, `Domain.dfy` | trimming and case mapping; statuses, transitions, validation |
| `Retry.dfy`, `Routing.dfy` | the retry loop and backoff; PSP selection |
| `IdempotencyModel.dfy`, `IdempotencyServer.dfy` | the middleware: transition system and code |
| `IdempotencyBinding.dfy`, `IdempotencyLease.dfy`, `IdempotencyPgOnce.dfy`, `IdempotencyRedisOnce.dfy`, `IdempotencyTimes.dfy` | its theorems |
| `IdempotencyLimits.dfy`, `IdempotencyRedisLimits.dfy`, `IdempotencyReuse.dfy` | exactly what is not promised without Redis, with Redis; what a second request gets and when a key can be used again |
| `PaymentStore.dfy`, `PaymentModel.dfy`, `PaymentService.dfy` | tables and repository; transition system; service code |
| `PaymentLedger.dfy`, `PaymentProofs.dfy`, `PaymentFacts.dfy`, `PaymentLimits.dfy` | the ledger invariant, the theorems, what is recorded, what the repository alone keeps |
| `OutboxModel.dfy`, `OutboxWorker.dfy` | table and workers: transition system and code |
| `OutboxSafety.dfy`, `OutboxBackoff.dfy`, `OutboxSingle.dfy`, `OutboxProgress.dfy`, `OutboxLimits.dfy` | theorems for any number of workers, waiting times, one worker, progress, and the exact attempt bound for n workers |
| `EndToEnd.dfy` | the product of payments and outbox: events, rows and deliveries together |

Each theorem names the hypotheses it needs, about one key or one target only. "No run for the
key outlives its lease before it has completed its row" is `LeasesKeptAlong`, "completion writes for the key reach Postgres" is
`CompletionSafeAlong`, and the Redis conditions on one verb, path and key are `RedisSafeAlong`.
Everything else holds without hypotheses, whatever fails.

## Model

| member | source | states |
|---|---|---|
| `IdempotencyBinding.BindingHolds` | internal/middleware/idempotency.go:86-177 | Invariant of every reachable state: each stored or replayed response is bound to the handler run that produced it (key, hash, payload, expiry), and an in-progress row has its lock token equal to its request hash. |
| `IdempotencyBinding.ReplayBinding` | internal/middleware/idempotency.go:443-461 | In every interleaving, with any failures and expired locks, a replayed response is what some handler run made for the same key and the same body hash. |
| `IdempotencyBinding.NoStaleReplay` | internal/middleware/idempotency.go:213-277 | A replayed response was read before the expiry its handler run gave it, although warming Redis restarts the Redis TTL. |
| `IdempotencyBinding.LookupsAreFresh` | internal/middleware/idempotency.go:213-277 | In every reachable state, whatever either store would return for a key is not past its original expiry. |
| `IdempotencyLease.LeaseHolds` | internal/middleware/idempotency.go:431-472 | Key by key, with or without Redis: if no run for the key outlives its lease before it has completed its row, its live lease holder owns its row and is unique, and the responses stored for the key also match in verb and path. Other keys may fail in any way. |
| `IdempotencyLease.OneLeaseHolder` | internal/middleware/idempotency.go:443-461 | If no run for a key outlives its lease, the key has at most one live lease handle. |
| `IdempotencyLease.ReplaySameRequest` | internal/middleware/idempotency.go:538-549 | If no run for its key outlives its lease, a replayed response was produced for the same verb, path, key and body hash. |
| `IdempotencyLease.NoRedisLocksHolds` | internal/middleware/idempotency.go:406-430 | Without Redis every request between lock and release holds a Postgres lease. |
| `IdempotencyLease.CompletedIsFinal` | internal/middleware/idempotency.go:335-345 | Without Redis a completed row is absorbing: from any point of any run on, the row and its response never change. |
| `IdempotencyLease.ExpiredKeyIsRefused` | internal/middleware/idempotency.go:240-247 | Without Redis, a request that arrives once the completed row of its key has expired never holds a lock, never runs the handler and is never answered from a store. |
| `IdempotencyReuse.ReusableIff` | internal/middleware/idempotency.go:213-277 | From any point of any run, some new request can still run the handler under a key or be answered for it exactly when Redis is there, or Postgres is and the key has no expired completed row. |
| `IdempotencyReuse.SpentIsReached` | internal/middleware/idempotency.go:335-345 | For every configuration without Redis and every request there is a run in which nothing goes wrong and its key ends with an expired completed row. |
| `IdempotencyReuse.SecondRequest` | internal/middleware/idempotency.go:117-124 | With any store, a second request with the key, at any time before the response expires, is answered with the first response if verb, path and body are the same and refused as a mismatch if not, and the handler has run once. |
| `IdempotencyReuse.WaiterIsAnswered` | internal/middleware/idempotency.go:132-145 | With any store, a request sent while the same request is being handled waits and is answered with the first one's response, and the handler has run once. |
| `IdempotencyTimes.LeaseLasts` | internal/middleware/idempotency.go:430-434 | Over any run: between two grants of a key's lease more than the request timeout (60 s if none is configured) passes, unless the row was deleted in between. |
| `IdempotencyTimes.LockLasts` | internal/middleware/idempotency.go:407-422 | Over any run: between two grants of the lock of a verb, path and key at least the lock TTL (15 s) passes, unless the lock was deleted in between. |
| `IdempotencyTimes.WaitLasts` | internal/middleware/idempotency.go:509-519 | Over any run: a waiting request is told that its key is in progress, unless it is cancelled, not before the wait timeout (8 s). |
| `IdempotencyTimes.PollsAreSpaced` | internal/middleware/idempotency.go:513-531 | Over any run: at least the poll interval (150 ms) lies between two lookups of a waiting request. |
| `IdempotencyTimes.ResponsesAreAnswers` | internal/middleware/idempotency.go:159-171 | Over any run: a response is the body its handler answered, for the verb, path and hash it was called with, and expires one response TTL after that. |
| `IdempotencyPgOnce.RunsOncePerKey` | internal/middleware/idempotency.go:496-504 | Without Redis, if no run for a key outlives its lease and completion writes for it reach Postgres, the handler runs at most once for the key, forever, whatever happens to other keys. |
| `IdempotencyPgOnce.ReplaysEqualFirstResponse` | internal/middleware/idempotency.go:279-305 | Under the same hypotheses about the key, every replay for it equals the response of its only handler run. |
| `IdempotencyRedisOnce.RedisOnceHolds` | internal/middleware/idempotency.go:117-176 | Invariant behind the next rows, for one verb, path and key: lock ownership and mutual exclusion on its scope, every finished call is in Redis before its lock is given back, and a request past its re-check is the first. |
| `IdempotencyRedisOnce.RunsOncePerTarget` | internal/middleware/idempotency.go:117-176 | For one verb, path and key: when its locking, re-checks and stores reach Redis, no holder of its lock outlives it and no response for its key has expired, the handler runs at most once for it. Nothing is asked of requests for other targets. |
| `IdempotencyRedisOnce.ReplaysEqualOnlyResponse` | internal/middleware/idempotency.go:149-157 | Under the same hypotheses, with leases of the key kept, every replay equals the response of the only handler run for its verb, path and key. |
| `IdempotencyRedisOnce.NoLeaseToOutlive` | internal/middleware/idempotency.go:412-426 | When all requests for a key get their answer from the Redis lock, no lease of the key is ever held, so none is outlived. |
| `IdempotencyRedisLimits.TargetCallableIff` | internal/middleware/idempotency.go:117-176 | While one verb, path and key are treated safely, some continuation calls the handler for them exactly when it has not been called yet and a request is past its re-check, or Redis has no response for the key and an abandoned lock lapses before a response for the key expires. |
| `IdempotencyRedisLimits.OutlivedLock` | internal/middleware/idempotency.go:412-422 | For every configuration with Redis and every request there is a run in which nothing goes wrong but that a handler run outlives its lock, and the handler runs twice. |
| `IdempotencyRedisLimits.LostStore` | internal/middleware/idempotency.go:173-176 | For every configuration with Redis alone there is a run in which nothing goes wrong but one lost store, and the handler runs twice. |
| `IdempotencyRedisLimits.ExpiredResponse` | internal/middleware/idempotency.go:214-221 | For every configuration with Redis there is a run in which nothing goes wrong but that the response expires, and the handler runs twice. |
| `IdempotencyLimits.OutlivedLease` | internal/middleware/idempotency.go:335-345 | For every configuration without Redis and any two requests with the same key and body, there is a run in which a lease is outlived, the handler runs for both, and one path is answered with the other path's response. |
| `IdempotencyLimits.CrossReplayIff` | internal/middleware/idempotency.go:335-345 | Without Redis, one request can be answered with a response made for another exactly when they share the key and the body hash; verb and path do not matter. |
| `IdempotencyLimits.LostCompletion` | internal/middleware/idempotency.go:173-176 | For every such configuration and request there is a run in which no lease is outlived, one completion write is lost and nothing else goes wrong, and the handler runs twice. |
| `IdempotencyLimits.CallableIff` | internal/middleware/idempotency.go:443-461 | Without Redis, while no lease of a key is outlived, some continuation calls the handler for the key exactly when its row is not completed. |
| `IdempotencyServer.Redis.Get` | internal/middleware/idempotency.go:214-221 | A cached response is returned exactly when neither its Redis TTL nor its own expiry has passed. |
| `IdempotencyServer.Redis.Set` | internal/middleware/idempotency.go:307-317 | Afterwards a lookup of the key returns the response exactly until its TTL or its expiry passes; all other keys are as before. |
| `IdempotencyServer.Redis.TakeLock` | internal/middleware/idempotency.go:412-422 | Succeeds exactly when nobody holds the lock; then the lock is held under the token until it lapses, otherwise nothing changes; other scopes are as before. |
| `IdempotencyServer.Redis.DropLock` | internal/middleware/idempotency.go:481-491 | Afterwards the lock is not held under the token; if it was, it is free at all times, otherwise nothing changes; other scopes are as before. |
| `IdempotencyServer.KeyTable.FindCompleted` | internal/middleware/idempotency.go:240-260 | Returns the row of a key exactly when it is completed and not expired. |
| `IdempotencyServer.KeyTable.Lease` | internal/middleware/idempotency.go:443-472 | A token comes back exactly for a free key or an expired lease; the lease then shuts everybody out up to its end and hides any response; otherwise nothing changes; other keys are as before. |
| `IdempotencyServer.KeyTable.Complete` | internal/middleware/idempotency.go:335-359 | Changes a row exactly when the caller's token is on an in-progress one; then lookups return the new payload under the verb, path and hash the lease wrote, and the key can never be leased again; other keys are as before. |
| `IdempotencyServer.KeyTable.Upsert` | internal/middleware/idempotency.go:374-402 | Afterwards a lookup returns the response until it expires and the key can never be leased; other keys are as before. |
| `IdempotencyServer.KeyTable.Drop` | internal/middleware/idempotency.go:496-504 | Afterwards no in-progress row of the key carries the token; the key is free if one did, otherwise nothing changes; other keys are as before. |
| `IdempotencyServer.Middleware.Lookup` | internal/middleware/idempotency.go:213-277 | Redis first, then Postgres with a Redis warm-up; refines the lookup steps under interference and leaves the request at the branch its result selects. |
| `IdempotencyServer.Middleware.TryAcquire` | internal/middleware/idempotency.go:406-473 | Redis unless it cannot answer, then the Postgres lease. A granted handle is for the request's own target or key and lasts exactly the configured lock TTL (15 s) or request timeout (60 s), during which the store shuts everybody else out; otherwise contention or no backend, as the transition system says. |
| `IdempotencyServer.Middleware.WaitForResponse` | internal/middleware/idempotency.go:508-536 | The polling loop terminates with a response, on cancellation, or not before the wait timeout (8 s) has passed, and rests the poll interval (150 ms) between lookups, under arbitrary interference. |
| `IdempotencyServer.Middleware.RunHandler` | internal/middleware/idempotency.go:159-175 | Handler, Redis store, Postgres store, in this order, each best effort; the outcome is what the handler answered; a panic goes straight to the release. |
| `IdempotencyServer.Middleware.Release` | internal/middleware/idempotency.go:475-506 | Gives back the lock by compare-and-delete: when the command took effect, the token no longer holds the lock or the lease; a completed lease is left alone. |
| `IdempotencyServer.Middleware.WarmRedis` | internal/middleware/idempotency.go:268-273 | When the write took effect, Redis returns what Postgres had, until it expires or a fresh TTL has passed. |
| `IdempotencyServer.Middleware.StoreInRedis` | internal/middleware/idempotency.go:284-289 | When the write took effect, Redis returns the new response until it expires. |
| `IdempotencyServer.Middleware.StoreInPg` | internal/middleware/idempotency.go:290-305 | When the write took effect and the lease is still the caller's, Postgres returns the new payload until it expires; the handle is completed exactly when that was acknowledged. |
| `IdempotencyServer.Middleware.Serve` | internal/middleware/idempotency.go:117-176 | Whatever else runs and fails, a client gets what its own handler answered, or a response a handler run made for the same key and body that had not expired when read; the served request is a finished run of the transition system. |
| `Retry.DoWithObserver` | internal/retry/retry.go:59-96 | For every outcome sequence and cancellation point the loop meets a loop-free reference definition, calls the operation at most the configured MaxAttempts times (3 if none is configured) and exactly that often while all calls fail retryably, and labels each failed call by whether its error is retryable. |
| `Retry.StopsOnce` | internal/retry/retry.go:59-96 | The reference definition determines the stopping point, the number of calls and the result. |
| `Retry.CallsAsConfigured` | internal/retry/retry.go:36-47 | Every stop of the reference definition makes at most the configured number of calls, and exactly that many when everything fails retryably. |
| `Retry.RetryableByRoot` | internal/retry/retry.go:109-130 | However it is wrapped, a PSP error decides for itself, deadlines and network errors are retryable, other errors are not. |
| `Retry.DefaultsKeepSettings` | internal/retry/retry.go:36-50 | Positive settings are kept; without any, 3 attempts, 100 ms, 10 s and factor 2. |
| `Retry.DelayLimitGrows` | internal/retry/retry.go:98-101 | The longest delay starts at the base, capped, and as long as it is below the cap the next one is the multiplier times it, capped. |
| `Retry.DelayLimitMonotone` | internal/retry/retry.go:98-101 | With a multiplier of at least 1 the longest delay never falls and never exceeds the cap. |
| `Retry.BackoffIsShare` | internal/retry/retry.go:102-107 | A delay is the share of the longest delay that was drawn, to the tick; a larger draw never waits less. |
| `Retry.BackoffBounds` | internal/retry/retry.go:98-107 | Whatever is drawn, the delay is between 0 and the cap. |
| `Routing.Select` | internal/psp/router.go:71-97 | The nested search returns the adapter of the least-index matching rule, and no route exactly when no rule matches. |
| `Routing.DefaultRoutingIsSound` | internal/psp/router.go:53-60 | Under the default rules every request validation accepts, in any case or padding and for any positive int64 amount, is routed to an adapter that supports its currency. |
| `Routing.DefaultRouteIs` | internal/psp/router.go:53-60 | Where the default rules send any currency and any int64 amount: rupees to Razorpay, dollars, euros and pounds to Stripe, anything else to Stripe above 100000 only. |
| `Routing.RuleBounds` | internal/psp/router.go:25-33 | A rule matches between its bounds, both included, with 0 as no upper bound, for its currencies in any case and padding or for any if it names none. |
| `Domain.PathsAreShort` | internal/domain/payment.go:95-109 | Every chain of valid transitions has at most four statuses and repeats none. |
| `Domain.PathsFromInitiated` | internal/domain/payment.go:95-109 | The status histories of a payment are exactly the prefixes of initiated, processing, success, refunded and of initiated, processing, failed. |
| `Domain.ValidCreateIff` | internal/service/payment_service.go:288-315 | A create request is accepted exactly with a merchant, a positive int64 amount, one of the four currencies in any case and padding, and a trimmed key of 1 to 255 bytes. |
| `Domain.ValidRefundIff` | internal/service/payment_service.go:317-343 | A refund request is accepted exactly with a positive amount, one of the four currencies and such a key. |
| `Text.PaddingIsTrimmed` | internal/repository/payment_repo.go:146-146 | Trimming removes exactly the white space around a text. |
| `PaymentStore.PaymentRepo.Insert` | internal/repository/payment_repo.go:229-278 | Accepts exactly the valid payments with an unused id and key, which are stored initiated, trimmed and upper-cased with all their facts; conflicts and errors change nothing. |
| `PaymentStore.PaymentRepo.UpdateStatus` | internal/repository/payment_repo.go:305-353 | Commits exactly a valid transition of the row that has the expected status and changes nothing but that status; a missing row and another status have their own errors; no event. |
| `PaymentStore.PaymentRepo.UpdateStatusWithPSP` | internal/repository/payment_repo.go:381-448 | Such a transition that stores the given PSP and reference, together with exactly one success event that carries the facts of the row, or nothing at all. |
| `PaymentStore.PaymentRepo.UpdateFailed` | internal/repository/payment_repo.go:450-518 | Such a transition to failed that stores the given PSP, reference and reason, together with exactly one failed event that carries them, or nothing at all. |
| `PaymentStore.PaymentRepo.RefundAtomic` | internal/repository/payment_repo.go:520-599 | Commits exactly for a successful payment with an unused valid key and a positive amount: refunded status, one refund row and one event that carries it, or nothing at all: a losing insert is rolled back. |
| `PaymentLedger.SuccessKeepsLedger` | internal/repository/payment_repo.go:408-446 | Moving a processing payment to success keeps every payment's events and refunds those of its status. |
| `PaymentLedger.FailureKeepsLedger` | internal/repository/payment_repo.go:478-516 | Moving a processing payment to failed keeps them. |
| `PaymentLedger.RefundKeepsLedger` | internal/repository/payment_repo.go:548-598 | A refund within the payment's amount keeps them. |
| `PaymentLimits.PlainUpdateKeepsLedgerIff` | internal/repository/payment_repo.go:333-338 | The plain status update keeps the ledger exactly when it moves to processing: to success it writes no event. |
| `PaymentLimits.PlainUpdateCanBreak` | internal/repository/payment_repo.go:333-338 | For every accepted request the service reaches a state in which the plain update to success commits and breaks the ledger. |
| `PaymentLimits.PspUpdateKeepsLedgerIff` | internal/repository/payment_repo.go:408-446 | The update with a PSP keeps the ledger exactly when it moves to success: it always writes a success event. |
| `PaymentLimits.PspUpdateCanBreak` | internal/repository/payment_repo.go:439-446 | For every accepted request the service reaches a state in which the update with a PSP to failed commits and breaks the ledger. |
| `PaymentLimits.FailedUpdateKeepsLedger` | internal/repository/payment_repo.go:450-518 | The failing update keeps the ledger from every status it accepts. |
| `PaymentLimits.RefundKeepsLedgerIff` | internal/repository/payment_repo.go:534-577 | The refund transaction keeps the ledger exactly when the amount is within the payment's, which it does not check. |
| `PaymentLimits.RefundCanBreak` | internal/repository/payment_repo.go:534-577 | For every accepted and routed request and every larger amount, the service reaches a state in which the refund of that amount commits and breaks the ledger. |
| `PaymentProofs.InvHolds` | internal/service/payment_service.go:62-180 | Invariant of every reachable state: the ledger, unique keys, an owning create call per payment, and what the progress and charges of each call imply. |
| `PaymentProofs.StatusEventRefundCorrespondence` | internal/service/payment_service.go:100-180 | In every reachable state, aborted transactions included, each payment has exactly the events and refunds of its status, in order, carrying its merchant, amount and currency. |
| `PaymentProofs.RefundSafety` | internal/service/payment_service.go:246-268 | However many refunds race, with whatever keys, at most one commits per payment and its amount is between 1 and the payment's. |
| `PaymentProofs.ChargeBound` | internal/service/payment_service.go:100-137 | For each trimmed idempotency key at most one create call ever charges, at most the configured MaxAttempts times (3 if none is configured). |
| `PaymentProofs.CreateOutcome` | internal/service/payment_service.go:138-180 | A create call returns success exactly when its last charge was captured or authorised, otherwise failed; the stored status is the returned one or, for success only, refunded. |
| `PaymentProofs.NoCreateMismatch` | internal/service/payment_service.go:100-180 | No create call ever loses a compare-and-set, misses its row or tries an invalid transition. |
| `PaymentProofs.PendingPaymentIsOwned` | internal/service/payment_service.go:80-110 | An initiated or processing payment belongs to exactly one create call, which has not returned a status, and no other payment has its key. |
| `PaymentProofs.StepsFollowTransitions` | internal/domain/payment.go:95-109 | Over every step payments stay, keep their facts and move only along valid transitions. |
| `PaymentProofs.ChargesAreOneRetryLoop` | internal/service/payment_service.go:133-147 | What a returned call has recorded, cancellations included, is exactly one execution of the retry loop, and the call succeeds exactly when that loop returns an approved charge; a call that was not routed made no charge and failed. |
| `PaymentFacts.SettledAsCharged` | internal/service/payment_service.go:112-180 | In every reachable state a payment whose create call has returned names the adapter that routing selects and has the reference and reason of its last charge, of its last error, of the cancellation, or of the missing route. |
| `PaymentFacts.RefundNamesCurrency` | internal/service/payment_service.go:254-258 | In every reachable state a refund that is about to commit or has been committed names the currency of its payment. |
| `PaymentFacts.ReasonIsPspError` | internal/service/payment_service.go:182-194 | The failure reason is the code and message of the PSP error inside any wrapping, otherwise the text of the error. |
| `PaymentService.PaymentService.ChargeWithRetry` | internal/service/payment_service.go:133-147 | The retried charge meets the retry loop's reference definition with other calls running between the charges, within the configured number of charges and exactly that many while all fail retryably, and records each outcome and the cancellation. |
| `PaymentService.PaymentService.CreatePayment` | internal/service/payment_service.go:62-180 | With a working store an accepted request conflicts on its key or returns success exactly when routed and approved, otherwise failed; the stored row has the request's merchant, amount, currency and key, the selected PSP, the reference and reason that the charge gave, and the returned status, or refunded; no lost compare-and-set is reported. |
| `PaymentService.PaymentService.CheckPayment` | internal/service/payment_service.go:246-266 | Refuses exactly a missing payment, one that is not success, another currency, or an amount above the payment's; the tables are untouched. |
| `PaymentService.PaymentService.CommitRefund` | internal/service/payment_service.go:268-280 | Commits the refund found acceptable earlier; when it reports an error and its reply was not lost, the tables are as before. |
| `PaymentService.PaymentService.RefundPayment` | internal/service/payment_service.go:218-286 | Without an error the refund is in the table, the payment is refunded, the amount is between 1 and what was paid and the currency is the payment's, under arbitrary interference; a request that fails validation changes nothing. |
| `OutboxWorker.OutboxRepo.Enqueue` | internal/repository/outbox_repo.go:29-87 | A new event is due from now on with no attempt behind it; an existing id is refused; all other events stay as they are. |
| `OutboxWorker.OutboxRepo.PickDue` | internal/repository/outbox_repo.go:94-101 | At most the limit of distinct due rows; a due row is left behind only at the limit and never if it is due earlier than one taken. |
| `OutboxWorker.OutboxRepo.ClaimBatch` | internal/repository/outbox_repo.go:89-125 | Such a batch is marked processing, every other row is unchanged, and the rows are returned as they were. |
| `OutboxWorker.OutboxRepo.ReclaimStaleProcessing` | internal/repository/outbox_repo.go:138-154 | Afterwards nothing is stale: exactly the stale rows are due now with their attempt counts kept, all others are unchanged, and they are counted; a non-positive age is refused. |
| `OutboxWorker.OutboxRepo.Record` | internal/repository/outbox_repo.go:157-212 | Ends a claim: the row gets the status, error, next try, attempt count and delivery time of its mark; without a processing row nothing changes and that is reported; other rows are unchanged. |
| `OutboxWorker.WebhookWorker.Resume` | internal/worker/webhook_worker.go:174-259 | One step of a delivery: post, then record delivered on a 2xx, dead at the attempt cap, otherwise a retry after at most the delay limit of its attempt, which the full draw attains; nothing after a cancelled post. |
| `OutboxWorker.WebhookWorker.StartOne` | internal/worker/webhook_worker.go:195-203 | An event whose trimmed URL is empty is to be buried with its reason, any other is to be posted. |
| `OutboxWorker.WebhookWorker.ReclaimStale` | internal/worker/webhook_worker.go:123-149 | The tick's reclaim makes exactly the rows due that have been in processing for more than StaleReclaimMul poll intervals and leaves every other row. |
| `OutboxWorker.WebhookWorker.HandleAll` | internal/worker/webhook_worker.go:159-171 | The deliveries of a batch, at most the pool size at a time and scheduled in any order under interference; the loop terminates with all of them finished. |
| `OutboxWorker.WebhookWorker.RunOnce` | internal/worker/webhook_worker.go:139-172 | One tick under arbitrary interference: reclaim, claim, overlapping deliveries in any order, end; each claimed event is handled exactly once before the tick ends. |
| `OutboxSafety.InvHolds` | internal/repository/outbox_repo.go:89-212 | Invariant for any number of workers, including that recorded and pending failures never exceed the failed deliveries that happened. |
| `OutboxSafety.TerminalIsFinal` | internal/repository/outbox_repo.go:157-212 | A delivered or dead row never changes again. |
| `OutboxSafety.EventsStay` | internal/repository/outbox_repo.go:89-212 | No event is removed and no attempt count goes down. |
| `OutboxSafety.DeliveredMeansAccepted` | internal/worker/webhook_worker.go:205-224 | A delivered event was answered 2xx at least once; delivered_at is set exactly when the status is delivered. |
| `OutboxSafety.NoEarlyDeath` | internal/worker/webhook_worker.go:195-250 | For any number of workers a dead event has a blank URL or at least MaxAttempts failed deliveries; deliveries cut off by cancellation do not count. |
| `OutboxSafety.BoundedWait` | internal/worker/webhook_worker.go:249-269 | A pending event is due no later than MaxBackoff after its last update. |
| `OutboxBackoff.WaitFollowsBackoff` | internal/worker/webhook_worker.go:249-269 | For any number of workers a pending event that has failed n times is due no later than the delay limit of attempt n - 1 after its last update, and at once if it never failed. |
| `OutboxSafety.ReclaimByAge` | internal/worker/webhook_worker.go:123-149 | A reclaim goes by age alone: more than StaleReclaimMul poll intervals in processing, due at once with the attempts kept; every other row stays. |
| `OutboxModel.DefaultsKeepSettings` | internal/worker/webhook_worker.go:60-89 | Positive settings are kept; without any, 5 s, 20 rows, 10 attempts, 8 deliveries, 2 intervals, 100 ms, 10 min and factor 2. |
| `OutboxSafety.ClaimDrainsDue` | internal/repository/outbox_repo.go:94-105 | A claim takes as many due rows as the batch allows and no others, the earliest first: what is due afterwards is what was due before without the batch, and the counts add up. |
| `OutboxSafety.NoDoubleClaim` | internal/repository/outbox_repo.go:94-105 | Between two claims of an event lies a recorded retry or a stale reclaim of it. |
| `OutboxSafety.BoundedPool` | internal/worker/webhook_worker.go:159-171 | At most WorkerPool deliveries are in flight per worker. |
| `OutboxSafety.TickHandlesEachOnce` | internal/worker/webhook_worker.go:159-171 | A tick ends only after each claimed event was handled exactly once. |
| `OutboxSingle.SingleHolds` | internal/worker/webhook_worker.go:139-172 | Invariant with one worker: every in-flight row is processing with an exact snapshot, and the attempt cap holds. |
| `OutboxSingle.SingleWorkerOwnership` | internal/worker/webhook_worker.go:139-172 | With one worker no step but its own mark changes an in-flight row, so no reclaim resets it, and its snapshot equals attempt_count. |
| `OutboxSingle.AttemptCap` | internal/worker/webhook_worker.go:236-250 | With one worker attempt_count never exceeds MaxAttempts - 1. |
| `OutboxSingle.MeasureDecreases` | internal/repository/outbox_repo.go:157-212 | Between reclaims every change of a row lowers (remaining attempts, status rank) lexicographically, and remaining attempts stay positive. |
| `OutboxProgress.EventsFinish` | internal/worker/webhook_worker.go:119-172 | With one worker, from every reachable state and for every strategy of the merchants, a finite continuation with exactly those answers and working statements ends all events; refusals cannot keep one open. |
| `OutboxLimits.CapForWorkers` | internal/repository/outbox_repo.go:173-196 | For any number n of workers that have acted, attempt_count is at most MaxAttempts - 2 + n (if retries happen at all). |
| `OutboxLimits.CapIsReached` | internal/repository/outbox_repo.go:173-196 | The bound is tight: for every retrying configuration and every n, some run of n workers takes an event to MaxAttempts - 2 + n attempts. |
| `OutboxLimits.CapForAnyWorkersIff` | internal/repository/outbox_repo.go:173-196 | For any number of workers the cap holds in all runs exactly when MaxAttempts is 1. |
| `EndToEnd.Projects` | internal/repository/payment_repo.go:74-122 | In the product of service and workers each part runs as it does alone, so all theorems above hold of it. |
| `EndToEnd.RowPerEvent` | internal/repository/payment_repo.go:74-122 | In every reachable state outbox rows and committed events correspond one to one, and a row goes to its merchant. |
| `EndToEnd.WebhooksAreTrue` | internal/repository/payment_repo.go:74-122 | Whatever the workers do, the payment of any outbox row has reached the status the row announces and has the merchant, amount, currency, PSP, reference, reason and refund it carries; a delivered row was accepted. |
| `EndToEnd.OutcomesAreAnnounced` | internal/repository/payment_repo.go:408-446 | Every payment that is success, failed or refunded has an outbox row that announces it. |
| `EndToEnd.OutcomeIsDelivered` | internal/worker/webhook_worker.go:119-172 | With one worker, from every reachable state and for every strategy of the merchants, worker steps that leave all payments alone bring the row that announces a payment's outcome to delivered or dead. |

## Where code and expectation differ

* The plain status update can reach success without an event, the update with a PSP always
  emits a success event, and the refund transaction has no upper bound on the amount. The model
  follows the code; `PaymentLimits` gives the exact conditions with a failing call for each, and
  `PaymentProofs` shows that the service only makes calls that meet them.
* Completing a lease does not rewrite the row's path and method, and the lock token is the body
  hash. So without Redis two requests can be answered with each other's responses exactly when
  they share key and body, whatever their paths (`IdempotencyLimits.CrossReplayIff`). It takes an
  outlived lease (`IdempotencyLease.ReplaySameRequest`).
* Storing is best effort: without Redis the handler can run again for a key exactly as long as
  its row is not completed (`IdempotencyLimits.CallableIff`).
* Without Redis a key does not become reusable after its TTL: once the completed row has expired,
  later requests with the key are refused forever. With Redis it always does. A key can be used
  exactly when Redis is there or its row is not completed and expired
  (`IdempotencyReuse.ReusableIff`).
* Under the Redis lock the handler runs at most once per target only while the lock is not
  outlived, the store reaches Redis and the response has not expired. `IdempotencyRedisLimits`
  has a run for each and the exact condition under which a target can still be called.
* Claims carry no owner, so the attempt cap of MaxAttempts - 1 is a single-worker property. With
  n workers the exact bound is MaxAttempts - 2 + n (`OutboxLimits`).

## Left out

- HTTP handlers, JSON and error-to-status mapping: requests and responses are values; a response's status code and headers are part of its opaque body.
- Requests the middleware passes through or refuses before its first lookup (other methods, no key, a key over 255 bytes, an unreadable body): each is one branch without state.
- SHA-256 and HMAC: the body hash is an arbitrary string carried by the request; signatures are omitted.
- The circuit breaker and the PSP mocks' failures, latency and ids: a charge is an arbitrary outcome; only the supported currencies are kept.
- The merchant registry: the webhook URL is an arbitrary function of the merchant.
- Logging, metrics, tracing, configuration loading, start-up, migrations, GetPayment and CountPending: no effect on the protocols.
- Liveness of payments: the code does not recover rows left in processing, so only safety is claimed there.
- Exclusion between a Redis lock holder and a Postgres lease holder of one key, and between paths that share a key under Redis locks: the code does not provide it.
- Clock skew, rounding to microseconds and float rounding in the backoff: one integer clock and reals.
- Interleaving inside a transaction: row locks make each transaction one step; rows that SKIP LOCKED passes over while another claim is open are not modelled.
- The escaping of unusual characters in the quoted name of an unknown adapter: the name is put between quotes as it is.
- Column widths and the created_at and updated_at columns of payments; a value the database refuses is a failed statement.
- Case mapping beyond ASCII letters and the two non-ASCII characters whose upper case is an ASCII letter; no other character can make a currency code valid.
- In-place normalisation of a payment that is refused: the insert normalises the caller's record as it goes, the model only normalises an accepted one; a refused record is not used again.
- IdempotencyLimits.CrossReplayIff: asks for a non-empty body hash, which a SHA-256 hex digest always is; the lease treats an empty token as not granted.
- IdempotencyServer.Middleware.Interfere, PaymentService.PaymentService.Interfere and OutboxWorker.WebhookWorker.Interfere stand for the environment; what they allow is their contract, their bodies are one instance of it.

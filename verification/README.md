# Verification of the WhatsApp gateway's queueing, pacing and idempotency logic

A Dafny 4.11 model of the parts of the gateway whose correctness rests on protocols, clocks or
string handling rather than on one function body. `dafny verify dfyconfig.toml` checks all of it.

| file | what it models |
|---|---|
| `Topology.dfy` | queue names, routing keys, retry tiers, and what `setupTopology` leaves in the broker |
| `Worker.dfy` | one delivery as a worker handles it; the `x-death` history and `dlqSourceQueue` |
| `NoLoss.dfy` | gateway and broker as one state machine: no accepted message is lost |
| `Retries.dfy` | the life of an always-failing message; retry queues over time |
| `Dedup.dfy`, `Delivery.dfy`, `AtMostOnce.dfy`, `HandlerRuns.dfy` | the duplicate cache, the handlers that use it, what they give together across retries and redeliveries, and whole runs of the handlers themselves |
| `TokenBucket.dfy`, `FixedWindow.dfy`, `Pacer.dfy` | the rate limiters and the waiting loop |
| `Idempotency.dfy` | every interleaving of the requests that share one idempotency table, and what they are answered |
| `SentOnce.dfy` | how often such requests are run and succeed, over whole runs |
| `QueryBudget.dfy`, `QueryMachine.dfy` | cached reads under a per-account budget, one at a time and interleaved |
| `Migration.dfy` | the run-once backfill with crashes between statements |
| `Strings.dfy`, `Dsn.dfy`, `EventFilter.dfy` | data source names and event filters, character by character |
| `KeywordSettings.dfy` | keyword-form names as lists of settings: what normalisation leaves in force |
| `WebhookSender.dfy`, `RingBuffer.dfy` | delivery with retries on 64-bit values; the message buffer |

Objects that the gateway updates in place are classes with the same fields, and their methods are
proved against functions of the state before the call. What the gateway promises over whole runs is
proved about those functions, or about a state machine whose steps are built from them: the worker's
requests in `NoLoss`, the table's statements in `Idempotency`, the duplicate check and the matching
subscriptions in `AtMostOnce`. Each such function is also spelled out once with the constants and cases
of the source (`Worker.Answers`, `Topology.TopologyIs`, `Idempotency.Recording`, `TokenBucket.BucketStep`
and the like), so that it is not its own measure. Results that come from outside (a handler's outcome, a publisher confirm, a server's answer, a clock
reading) are parameters or steps of the machine, so every combination is covered. A mutex is one
atomic step.

## What was found

- **No loss.** An accepted message can be lost exactly when publisher confirms are off or a
  dead-letter handler may fail (`CanLoseIff`). The second is why `DLQHandler.Handle` must always
  return nil: a retry published from a dead-letter queue has no binding, is confirmed all the same,
  and the original is then acknowledged. A dead-letter handler that panics also drops its message;
  that message counts as having reached a dead-letter consumer.
- **Sent once.** The comment above `IdempotencyMiddleware` promises enqueued-once and sent-once. Two
  runs of one key that begin within one TTL, anywhere in a run of any length, can both succeed exactly
  when a request can go ahead past a row it found, or a recorded run can fail after it has outlasted
  its row (`SentOnce.CanSendTwiceIff`); a run counts if it ended with a 2xx response, or crashed after
  its send. The ways past a row are the three in `replayOrReject`: the row is gone,
  it has expired, or its owner took longer than the pending timeout (which must then be shorter than
  the TTL). Each goes on without inserting a row, so the next copy of the request runs beside it. No
  failure is needed: after a success has expired, two copies that come together are both sent
  (`ExpiryLetsTwoRun`). Nor is an expiry, after one failure (`FailedWinnerLetsTwoRun`).
- **Replays.** Every replay is the recorded response of the same request exactly when no live
  winner can outlast its row and nothing comes between a loser's read of a row and its delete
  (`CanAnswerWronglyIff`). The code enforces neither. A winner that outlasts its row completes the
  next request's row, under that request's hash (`SlowWinnerAnswersForAnother`); a loser that deletes
  late deletes a row it never read, with the same result (`SplitLoserMixesAnswers`).
- **Pacing.** With the account to itself, a request that asks for no more than the burst is cleared
  for certain exactly when the missing tokens accrue within the longest wait *and* the pauses
  between clock readings cannot use the wait up (`ClearsForCertainIff`). A long enough pause between
  the refusal and the check of the deadline rejects a request however small its deficit
  (`PauseRejects`). Rounding `RetryAfter` down does no harm: there is never a third attempt unless
  the deadline has passed (`NoThirdAttempt`).
- **Retry queues.** Tier queues release every message on time. In any retry queue a message leaves at the
  first release at or after the latest deadline among itself and those ahead of it
  (`QueueKeepsSchedule`), so in the long queue it can be late (`LongQueueCanBlock`).
- **Two fixed windows.** Within a window the two forms decide a sequence of requests alike exactly when
  nothing fits after a refusal (`DecideAlikeIff`): the Redis form counts tokens it refused, the memory
  form does not (`RefusedTokensCount`).
- **Duplicates.** Within the TTL a job can be sent twice exactly when duplicate detection is off, it has
  no id, copies of it can be handled at once, the process can restart, or a send can arrive although
  it is reported failed or never marked (`AtMostOnce.CanSendTwiceIff`). Nothing prevents the last three.
  Without them two arrivals of one item are a TTL apart, in any run of the handlers (`HandlerRuns.HandleAll`).
- **Keyword-form Postgres names.** Parameters already present are meant to win. They do exactly when,
  for each default that is set, some setting of it has no blank before its sign, or a word inside some
  value looks like a setting of it, or the value set is the default anyway (`PresentWinIff`). A blank
  after the sign does no harm. `connect_timeout = 5` comes out with `connect_timeout=10` appended,
  which overrides it (`SpacedTimeoutIsOverridden`). Conversely, what is absent is added exactly when no
  word standing alone inside a value looks like a setting of it (`AbsentAddedIff`):
  `application_name='x keepalives=0'` leaves keepalives unset (`QuotedWordHidesKeepalives`).

## Model

| member | source | states |
|---|---|---|
| NoLoss.NoLoss | pkg/queue/worker_pool.go:123-280 | in every reachable state, with confirms on and a dead-letter handler that never fails, each accepted message was handled, reached a dead-letter consumer, or has a copy queued or unacknowledged that the broker will not forget next; over deliveries, errors, panics, unconfirmed publishes that land or not, lost connections, workers that go on and publish after theirs was lost, and expiries |
| NoLoss.CanLoseIff | pkg/queue/worker_pool.go:194-225 | an accepted message can be lost exactly when confirms are off or a dead-letter handler may fail |
| NoLoss.FailingDeadLetterHandlerLoses | internal/queue/handlers/dlq_handler.go:29-99 | were the dead-letter handler to return an error, a concrete run ends with the message in no queue: its retry key has no binding, or its rejection no target |
| NoLoss.UnconfirmedPublishIsLost | pkg/queue/rabbitmq.go:386-440 | with confirms off, a publish reported as accepted need not be in any queue |
| NoLoss.StepKeepsGood | pkg/queue/worker_pool.go:123-280 | each of the nine kinds of step keeps the invariant of NoLoss: placement, nothing lost, and a dead-letter worker past its handler has seen its message |
| NoLoss.RunKeepsPlaced | pkg/queue/rabbitmq.go:184-291 | in every reachable state exactly the declared queues exist, each message in them has a retry count within the limit and rejections only from its own main queue, and a worker's outstanding requests publish only to bound keys when it works on a main queue, and to unbound ones on a dead-letter queue |
| NoLoss.ActionsFit | pkg/queue/worker_pool.go:163-225 | what a worker goes on to ask of the broker keeps those facts: acknowledge, reject, or publish the same body to a retry queue of the same main queue and acknowledge only if confirmed |
| NoLoss.RetryCountBoundedAndSourceKnown | internal/queue/handlers/dlq_handler.go:161-189 | in every reachable state no message's retry count is above the limit, and whatever is in, or was delivered from, a dead-letter queue names its originating main queue |
| Worker.WorkerGroup.ProcessMessage | pkg/queue/worker_pool.go:123-232 | one delivery is answered, in order: success by an acknowledgement; a panic by a rejection without requeue, whatever the queue; an error at the retry limit likewise; below the limit by one publish of the same body, its count one higher, to the smallest tier covering the delay a rate-limit error asks for or else the long queue with that delay in milliseconds, and without such a delay to the tier of retry 0, 1, 2 and later; then acknowledged if that was confirmed, and requeued if not |
| Worker.ActionsAnswer | pkg/queue/worker_pool.go:163-225 | the requests all results about workers are built from are such answers, for every header, error, delay and limit |
| Worker.WorkerGroup.PublishRetry | pkg/queue/worker_pool.go:234-280 | one publish to the routed retry queue, with an expiration in whole milliseconds exactly on the long queue |
| Worker.DlqSourceQueue | internal/queue/handlers/dlq_handler.go:161-189 | the scan returns the first rejected entry's queue, else the first entry's queue, else nothing |
| Worker.SourceIsHome | internal/queue/handlers/dlq_handler.go:161-189 | after a rejection from the home queue, and none elsewhere, the source read back is the home queue however often the message expired |
| Worker.DeadLetterKeepsHome | pkg/queue/rabbitmq.go:184-291 | dead-lettering from the home queue, or by expiry from any, leaves a history whose rejections are all from home, records itself, and keeps the retry count |
| Retries.AlwaysFailing | pkg/queue/worker_pool.go:163-225 | whatever its errors and delays, a message that always fails is handled once for each retry left and once more, then is in its own dead-letter queue, body unchanged, and its source reads back |
| Retries.HandledMaxRetriesPlusOne | pkg/queue/worker_pool.go:163-225 | with no prior count that is exactly the maximum plus one (once for a negative maximum) |
| Retries.OneRetry | pkg/queue/worker_pool.go:194-252 | one failure and the way back: the retry is routable, its queue dead-letters to the same main queue, and the message returns with its count one higher, same body and no expiration |
| Retries.BackoffFillsItsTier | pkg/queue/worker_pool.go:282-293 | a plain failure's backoff is exactly the TTL declared for the queue it is routed to: 1, 5 and then 25 seconds, never the long queue |
| Retries.RetryWaits | pkg/queue/worker_pool.go:177-252 | the broker holds the retry a worker publishes by the declared TTL of its queue or the expiration it carries: 1000, 5000 or 25000 ms, or the delay asked for in whole milliseconds |
| Retries.RetryQueue.ReleaseExpired | pkg/queue/constants.go:30-46 | the loop lets out the expired messages at the head, in order and stamped with the time; what waits and what has left are always those of the queue's whole history |
| Retries.ReleasedIff | pkg/queue/constants.go:30-46 | a message can leave exactly when it and all before it are due |
| Retries.OnTimeIff | pkg/queue/constants.go:30-46 | a message leaves the moment it is due exactly when none ahead of it is due later |
| Retries.TierQueueKeepsSchedule | pkg/queue/rabbitmq.go:223-250 | over any run of publishes and releases of a queue with one TTL, every message that left did so at the first release at or after its own deadline, and one that waits has seen no such release |
| Retries.TierQueueNeverBlocks | pkg/queue/rabbitmq.go:223-250 | at any moment, in a queue with one TTL, no message is held back by another |
| Retries.QueueKeepsSchedule | pkg/queue/constants.go:30-46 | over any run of any retry queue, whatever the holds, each message leaves at the first release at or after the latest deadline among itself and those ahead of it when it was published, and one that waits has seen no such release |
| Retries.LongQueueCanBlock | pkg/queue/rabbitmq.go:252-279 | in the long queue a 30 s delay can wait behind a 60 s one |
| Retries.RetryNeverEarly | pkg/queue/worker_pool.go:234-252 | the retry a worker publishes after a rate-limit error does not leave its queue, held as the broker holds it and whatever else is queued, a millisecond or more before the requested delay, and from a tier queue not early at all |
| Topology.RouteIsSmallestCoveringTier | pkg/queue/constants.go:61-68 | the route is the smallest tier not below the delay, and the long queue exactly when no tier covers it |
| Topology.HoldCoversDelay | pkg/queue/constants.go:40-68 | by the declared TTL of the routed queue or the message's expiration a retry is held 1000, 5000, 25000 ms or the delay in whole milliseconds: short of the requested delay by less than a millisecond, by nothing in a tier |
| Topology.RetryIsRoutableIffMain | pkg/queue/rabbitmq.go:223-279 | a retry published for a queue reaches a queue exactly when it is a main queue |
| Topology.RouteFollowsBindings | pkg/queue/rabbitmq.go:184-291 | routing agrees with the bindings, and only declared queues are reached |
| Topology.NamesAreDistinct | pkg/queue/constants.go:8-57 | no two queues of the topology share a name, including retry queues of any queue |
| Topology.KeysAreDistinct | pkg/queue/constants.go:8-57 | no two routing keys are the same string |
| Topology.Broker.SetupTopology | pkg/queue/rabbitmq.go:142-291 | asks for the two exchanges and then, in nested loops, for every queue and binding, in order; succeeds exactly when none is refused, and otherwise leaves what was granted before the first refusal |
| Topology.SetupLeavesTopology | pkg/queue/rabbitmq.go:142-291 | after a successful setup both exchanges exist with their types and every queue of the topology with its arguments, the bindings are those of before and of the topology, and no queue was added beside it or changed |
| Topology.TopologyIs | pkg/queue/rabbitmq.go:142-291 | spelled out: every dead-letter, main, tier and long queue with its dead-letter target and, for the tiers, TTLs of 1000, 5000 and 25000 ms, every binding with its key, and nothing else new |
| Topology.SetupSucceedsIff | pkg/queue/rabbitmq.go:142-291 | setup succeeds exactly when no exchange exists with another type and no queue of the topology with other arguments, so running it again after a reconnect succeeds |
| Dedup.DedupCache.IsDuplicate | pkg/queue/dedup.go:38-51 | true exactly when the id is nonempty and some mark of it, in the never-swept history, is younger than the TTL: sweeping never changes an answer |
| Dedup.MarkedWithinIff | pkg/queue/dedup.go:38-51 | the last mark of an id is younger than the TTL exactly when any of its marks is |
| Dedup.DedupCache.MarkProcessed | pkg/queue/dedup.go:53-64 | adds one mark to that history, and none for an empty id |
| Dedup.DedupCache.SweepLocked | pkg/queue/dedup.go:67-78 | afterwards no entry is kept that was marked more than two TTLs ago, and no unexpired one is gone |
| Dedup.CacheKeysAreDistinct | pkg/queue/dedup.go:38-64 | for scopes without a colon, scope and id are recovered from the key |
| Dedup.MarksHoldLastMarks | pkg/queue/dedup.go:38-64 | the map of marks gives each scope and id its last mark |
| Delivery.WebhookKeysAreDistinct | internal/queue/handlers/webhook_delivery_handler.go:53-60 | for message ids without a bar, sibling URLs never share a key |
| Delivery.Handlers.HandleOutgoing | internal/queue/handlers/outgoing_message_handler.go:34-192 | the outcome, what was sent, and the marks afterwards: those of before, and after an unsuppressed send with an id exactly one more, of that job at the last reading; for bad bodies, duplicates, pacing refusals, failed and successful sends |
| Delivery.Handlers.HandleWebhook | internal/queue/handlers/webhook_delivery_handler.go:22-56 | likewise for a webhook delivery, marked under its message id, a bar and its URL |
| Delivery.Handlers.HandleIncoming | internal/queue/handlers/incoming_event_handler.go:29-88 | a failed fan-out publishes a job, with url, secret and message id, for exactly the subscriptions let through before the failure (and the failing one if it landed), in order, and marks nothing; a complete one publishes all and adds one mark, of the event |
| Delivery.Handlers.FanOut | internal/queue/handlers/incoming_event_handler.go:59-80 | the loop publishes one job per matching subscription, in order, up to the first failure |
| Delivery.MatchingPicks | internal/queue/handlers/incoming_event_handler.go:70-74 | the matching subscriptions are those whose filter lets the event through, all of them, each once and in order |
| Delivery.Handlers.HandleDeadLetter | internal/queue/handlers/dlq_handler.go:31-157 | always succeeds, and tries the URL of every subscription let through, in order, even when some fail, for outgoing and incoming dead letters only |
| AtMostOnce.SucceedsAtMostOnce | internal/queue/handlers/outgoing_message_handler.go:52-59 | over any run of retries, redeliveries and other messages in one process life, an item with an id whose copies come within the TTL, are not handled at once, and are reported when they arrive, arrives at most once |
| AtMostOnce.DeliveredAtMostOnce | internal/queue/handlers/incoming_event_handler.go:43-86 | an event whose fan-out fails halfway and is retried is delivered at most once to each URL, and only to URLs of subscriptions that matched it when they were read |
| AtMostOnce.HandledEventIsFannedOut | internal/queue/handlers/incoming_event_handler.go:43-86 | once an event was handled with success, after whatever partial attempts, every subscription that matched has its job, and no job is for any other |
| AtMostOnce.SuppressedIff | internal/queue/handlers/webhook_delivery_handler.go:31-60 | an item is suppressed exactly when the present process marked that same item, not a sibling URL or another message, within the TTL |
| AtMostOnce.CanSendTwiceIff | internal/queue/handlers/outgoing_message_handler.go:161-181 | within the TTL a job can be sent twice exactly when duplicate detection is off, its id is empty, copies can be handled at once, the process can restart, or a send can arrive unreported |
| AtMostOnce.SuccessesAreSpaced | internal/queue/handlers/outgoing_message_handler.go:52-59 | under the same conditions but however late the copies come, any two arrivals of an item are at least a TTL apart |
| HandlerRuns.JobTwice | internal/queue/handlers/outgoing_message_handler.go:34-192 | two calls for one job: an unmarked, cleared and successful one is sent, and within the TTL of its mark the second is answered with success and nothing is sent |
| HandlerRuns.WebhookTwice | internal/queue/handlers/webhook_delivery_handler.go:22-56 | likewise for two deliveries of one message to one URL |
| HandlerRuns.EventTwice | internal/queue/handlers/incoming_event_handler.go:29-88 | likewise for one event: after an unsuppressed success the second call publishes nothing |
| HandlerRuns.HandleAll | internal/queue/handlers/outgoing_message_handler.go:34-192 | any sequence of calls of the three handlers on one cache is a run of the machine of AtMostOnce that sent, delivered, published and marked the same; with a cache any two arrivals of an item with an id are a TTL apart |
| HandlerRuns.SameAnswer | pkg/queue/dedup.go:38-51 | in such a run the cache suppresses an item exactly when the machine does |
| TokenBucket.RateBound | pkg/ratelimiter/tokenbucket.go:72-106 | for every history with a nondecreasing clock, tokens granted in any closed interval are at most burst + rate times its length |
| TokenBucket.OneCall | pkg/ratelimiter/tokenbucket.go:72-106 | what one call grants plus what it leaves is within the burst, and within what was left before plus the inflow since |
| TokenBucket.SpentIsBucketStep | pkg/ratelimiter/tokenbucket.go:72-106 | one call spelled out: a new key starts full, passed time adds rate tokens a second up to the burst, and n tokens, at least one, are taken if they are there |
| TokenBucket.BucketIsWithinBurst | pkg/ratelimiter/tokenbucket.go:72-106 | a bucket always holds between zero and burst tokens, as of its last call |
| TokenBucket.TokenBucketLimiter.AllowN | pkg/ratelimiter/tokenbucket.go:72-106 | the decision, the stored bucket, the remaining tokens and the truncated wait; other keys are untouched; the bucket is always that of the key's whole history |
| TokenBucket.TokenBucketLimiter.constructor | pkg/ratelimiter/tokenbucket.go:41-57 | non-positive rates and bursts below one are replaced |
| Pacer.ClearsForCertainIff | pkg/ratelimiter/pacer.go:117-145 | in pace mode, alone on the account and asking for at most the burst, a request clears on all clock readings at most `gap` apart exactly when the missing tokens accrue within the longest wait and the readings between cannot use it up |
| Pacer.EnoughSuffices | pkg/ratelimiter/pacer.go:117-145 | under that condition it clears, at the first attempt or after one sleep |
| Pacer.EnoughIsNeeded | pkg/ratelimiter/pacer.go:117-145 | otherwise there are possible readings on which it is refused |
| Pacer.NoThirdAttempt | pkg/ratelimiter/pacer.go:117-145 | although the wait is rounded down, a second refusal comes only after the deadline |
| Pacer.PauseRejects | pkg/ratelimiter/pacer.go:117-145 | for any deficit of more than a nanosecond, readings as far apart as the longest wait can get a request refused that needed less |
| Pacer.AttemptsAgainstDue | pkg/ratelimiter/tokenbucket.go:72-106 | both attempts succeed exactly when the time due at the start has passed, and a refused attempt changes nothing about that time |
| Pacer.RefusalTellsWait | pkg/ratelimiter/tokenbucket.go:88-104 | the wait a refusal reports is right: until it is up no reading allows the request, and any reading more than a nanosecond after does, if the burst can hold it |
| Pacer.Pacer.Wait | pkg/ratelimiter/pacer.go:82-146 | terminates; sleeps total at most the longest wait; spends the request's tokens when it clears and none otherwise, with other spenders interleaved; a ban still running is reported with its rest; a request above the burst is refused before it takes a recipient slot; the recipient's window decides before the account is asked; a disabled pacer asks only the fallback; alone on the account it clears exactly when the readings allow; a refusal by the account reports the wait of its last attempt, before which no reading allows the request and just after which every one does |
| Pacer.Pacer.CapRecipient | pkg/ratelimiter/pacer.go:106-122 | one question to the recipient's window, whose refusal reports its numbers and the time left |
| Pacer.Pacer.AccountRateBound | pkg/ratelimiter/pacer.go:82-146 | in every state a pacer and its callers can reach, tokens an account was granted in any interval are at most burst + rate times its length |
| Pacer.Pacer.AcquireAccount | pkg/ratelimiter/pacer.go:117-145 | the same for the loop, with the time to the deadline as its measure; a refusal reports the wait of its last attempt, right for the bucket that attempt left, and in reject mode the whole tokens left |
| Pacer.Pacer.Round | pkg/ratelimiter/pacer.go:118-145 | one pass: what it spends, when it ends the loop, and that it sleeps the reported wait plus jitter or up to the deadline |
| Pacer.Pacer.FallbackReject | pkg/ratelimiter/pacer.go:148-160 | with no fallback limiter everything clears; with one, its fixed window decides and a refusal reports its numbers and the time left |
| FixedWindow.WindowBound | pkg/ratelimiter/memory.go:35-71 | any closed interval as long as k windows, k at least 1, sees at most k + 1 limits' worth of grants on a key |
| FixedWindow.WindowsUsed | pkg/ratelimiter/memory.go:35-71 | those grants are covered by m full windows and the current one, which began more than m - 1 windows after the interval's start |
| FixedWindow.CountedIsWindowStep | pkg/ratelimiter/memory.go:35-71 | one call spelled out: with no window, or one that has passed, counting starts from nothing for one window from now, and a request counts if it fits and not otherwise |
| FixedWindow.MemoryLimiter.AllowN | pkg/ratelimiter/memory.go:35-71 | the decision, stored window, remaining tokens and wait; other keys are untouched; the window is always that of the key's whole history |
| FixedWindow.RedisLimiter.AllowN | pkg/ratelimiter/redis.go:26-75 | the script's INCRBY, PEXPIRE and PTTL on one key, and the decision made from them |
| FixedWindow.RedisAllowsLess | pkg/ratelimiter/redis.go:26-75 | within a window, whatever the Redis form allows the memory form allows, and the script sets the expiry at the first call only |
| FixedWindow.SingleTokensAgree | pkg/ratelimiter/redis.go:26-75 | with one token a request the two decide alike |
| FixedWindow.DecideAlikeIff | pkg/ratelimiter/redis.go:26-75 | within a window the two decide every request of a sequence alike exactly when no request that fits comes after one that did not |
| FixedWindow.RefusalsPutRedisOver | pkg/ratelimiter/redis.go:26-75 | up to the first refusal both count the same; from then on the Redis total stays over the limit |
| FixedWindow.RefusedTokensCount | pkg/ratelimiter/redis.go:26-75 | the smallest such case: one oversized request and then a single token |
| Idempotency.RunsAreConsistent | internal/middleware/idempotency.go:57-140 | with timely winners and losers that read and delete in one step, in every reachable state each running winner owns its key's pending row, a completed row holds the response of a successful run with that row's hash, and every replay sent was such a response for the same key and hash |
| Idempotency.CompletedRowHolds | internal/middleware/idempotency.go:106-140 | from a completed row until it expires, nothing changes the row and no request starts the handler for its key, whatever else happens |
| Idempotency.LateRequestIsAnswered | internal/middleware/idempotency.go:106-140 | a request that reads an unexpired completed row gets a successful run's response to the same request, or is refused for another body |
| Idempotency.SuccessIsReplayed | internal/middleware/idempotency.go:89-140 | with the same timing, once a run ended with any status from 200 to 299 every copy of its request within the TTL is replayed that very response, and another body is refused |
| Idempotency.CanAnswerWronglyIff | internal/middleware/idempotency.go:89-140 | a wrong replay or record is reachable exactly when a live winner can outlast its row, or another statement can come between a loser's read and its delete |
| Idempotency.SplitLoserMixesAnswers | internal/middleware/idempotency.go:106-133 | such a run: two losers read an abandoned row, and the second deletes a row inserted since, whose owner then completes a stranger's |
| Idempotency.SlowWinnerAnswersForAnother | internal/middleware/idempotency.go:181-190 | such a run: the late winner completes the next request's row under that request's hash |
| SentOnce.SentOncePerWindow | internal/middleware/idempotency.go:57-140 | in a run of any length with punctual winners, unless a request goes ahead past a row of the key, runs of it that succeed began more than one TTL apart: whatever failed, crashed or was swept in between, no window of one TTL holds two |
| SentOnce.BegunOncePerWindow | internal/middleware/idempotency.go:57-140 | at any pace of the winners, unless a request goes ahead past a row of the key or a recorded run of it fails, all runs of it began more than one TTL apart |
| SentOnce.SentOnceWithoutFailure | internal/middleware/idempotency.go:57-140 | hence without failures slow winners do not send twice either |
| SentOnce.CanSendTwiceIff | internal/middleware/idempotency.go:106-133 | for every set of the three branches of replayOrReject that requests may take: two runs begun within one TTL can both succeed exactly when gone or expired is among them, or abandoned with a pending timeout below the TTL, or a recorded run may fail after outlasting its row |
| SentOnce.CanBeginTwiceIff | internal/middleware/idempotency.go:89-133 | likewise two runs can begin within one TTL exactly when such a branch can be taken or a recorded run may fail |
| SentOnce.ExpiryLetsTwoRun | internal/middleware/idempotency.go:107-116 | with no failure and no crash, two copies that come after the first success expired both succeed, at the same clock reading |
| SentOnce.TakeoverLetsTwoRun | internal/middleware/idempotency.go:125-132 | likewise after a crash, when the pending row is taken for abandoned before it expires |
| SentOnce.SlowFailureLetsTwoRun | internal/middleware/idempotency.go:89-104 | a winner that outlasted its row fails and deletes the next winner's row, and the next two runs both succeed |
| SentOnce.FailedWinnerLetsTwoRun | internal/middleware/idempotency.go:106-110 | after one failure an unrecorded run goes on next to a new winner, and both succeed |
| Idempotency.IdempotencyMiddleware.RunAndRecord | internal/middleware/idempotency.go:89-104 | any status from 200 to 299 completes the row if it is still there, with its old hash and creation time and that response; any other status or an error removes it; no other key changes |
| Idempotency.IdempotencyMiddleware.ReplayOrReject | internal/middleware/idempotency.go:106-140 | the verdict on expired, mismatched, pending, abandoned and completed rows, and that only going ahead removes the row |
| Idempotency.IdempotencyMiddleware.TryInsertPending | internal/middleware/idempotency.go:145-159 | inserts exactly when the key is free, and changes nothing else |
| Idempotency.IdempotencyMiddleware.Sweep | internal/middleware/idempotency.go:203-217 | a row stays, unchanged, exactly when it is at most one TTL old |
| QueryBudget.ReadService.ReadsAreBounded | internal/usecase/whatsapp/query.go:58-94 | over any k windows one account's server reads, cache misses and freshness checks together, are at most k + 1 limits |
| QueryBudget.ReadService.QueryWithBudget | internal/usecase/whatsapp/query.go:38-84 | a fresh entry of the right type answers without a token; such an answer was fetched for that key and stored at most one TTL ago; otherwise the server is asked exactly when the budget has a token, its answer is stored, and failures and refusals store nothing |
| QueryBudget.ReadService.CheckFreshness | internal/usecase/whatsapp/read_usecase.go:192-197 | a read past the cache costs one token, and is not made without it |
| QueryMachine.AnswersAreTrue | internal/usecase/whatsapp/query.go:58-84 | with lookup, token, answer and store as separate steps, in every interleaving, misses on one key included, every answer is something the server returned for that key and kind, and a cached one was stored at most one TTL before its lookup |
| QueryMachine.FreshEntryAnswers | internal/usecase/whatsapp/query.go:38-62 | a lookup is answered from the cache exactly when a fresh entry of the right type is there |
| QueryMachine.ReadsAreBounded | internal/usecase/whatsapp/query.go:58-94 | and an account's server reads, freshness checks included, stay within k + 1 limits over any k windows |
| QueryBudget.PayOne | internal/usecase/whatsapp/query.go:87-94 | spending one token keeps reads and grants equal over every interval |
| Migration.CrashSafe | internal/whatsapp/migration.go:85-157 | after any number of start-ups each cut at any statement and reading the rows in any order, nothing set before is changed and only legacy webhooks are added; once one finishes, the subscriptions are those of one uninterrupted run |
| Migration.DeletedStaysDeleted | internal/whatsapp/migration.go:105-114 | once the marker exists it stays, no start-up changes the subscriptions, and a deleted one stays deleted until it is set again |
| Migration.ReappearsIffUnmarked | internal/whatsapp/migration.go:105-157 | a finished start-up brings back a missing legacy webhook exactly when the marker was absent |
| Migration.FinishedStartup | internal/whatsapp/migration.go:105-157 | a finished start-up without the marker leaves what was set, adds each legacy webhook that was not for all events, with its secret unless that decrypts to nothing or not at all, and nothing else |
| Migration.CutStartup | internal/whatsapp/migration.go:85-157 | a start-up finishes exactly when it is not cut before its last statement; each insert it reached is there; the marker appears only with the last statement |
| Migration.Database.RunMigration | internal/whatsapp/migration.go:85-157 | the statements as written, with secrets that decrypt to nothing normalised, stopped after any number of them |
| Dsn.SQLiteNormalForm | internal/database/sqlite_dsn.go:34-82 | for every string: normalising is idempotent, keeps the base, keeps the user's query in front, adds exactly the defaults the user did not set, and ends with all of them set |
| Dsn.NormalizeSQLiteDSN | internal/database/sqlite_dsn.go:34-66 | the loops build the normal form SQLiteNormalForm is about |
| Dsn.TextWithQuery | internal/database/sqlite_dsn.go:34-66 | the text that comes out for any path and query: the path, with the file: scheme if it is a bare one, the query, and each of the three pragmas with its value that the query does not set |
| Dsn.TextWithoutQuery | internal/database/sqlite_dsn.go:34-66 | and for any path alone |
| Dsn.PragmaIsRead | internal/database/sqlite_dsn.go:68-82 | a parameter sets the pragma named before its first parenthesis, blanks and case aside |
| Dsn.KeywordNormalForm | internal/database/connection.go:63-78 | for every keyword-form string: the output starts with the input, gains exactly the missing keys, stays in keyword form and is its own normal form |
| Dsn.KeywordText | internal/database/connection.go:63-78 | the text that comes out: the input, then each of the five settings with its value whose key was not found |
| Dsn.NormalizePostgresDSN | internal/database/connection.go:47-78 | the keyword form by the loops KeywordNormalForm is about, an unreadable URL unchanged, a readable one as UrlNormalForm says |
| Dsn.UrlNormalForm | internal/database/connection.go:49-61 | a URL keeps every parameter, gains a connect timeout exactly when it has none, and normalising twice is normalising once |
| KeywordSettings.PresentWinIff | internal/database/connection.go:63-78 | for every list of settings, however spaced and quoted: what is set stays in force exactly when, for each default set, some setting of it has no blank before its sign, or a stray word of a value looks like one, or the value set is the default |
| KeywordSettings.AbsentAddedIff | internal/database/connection.go:63-78 | every default not set comes into force exactly when no stray word of a value looks like a setting of it |
| KeywordSettings.ClearSettings | internal/database/connection.go:63-78 | with values free of such words, whatever is absent is added, and the blank before the sign alone decides the rest |
| KeywordSettings.KeysAreFound | internal/database/connection.go:64-69 | the keys the loop finds in any rendered list are exactly the names without a blank before their sign and those of stray words |
| KeywordSettings.NormalisedText | internal/database/connection.go:70-78 | the text that comes out is the list with the missing defaults appended as settings |
| KeywordSettings.BlankBeforeSignLoses | internal/database/connection.go:63-78 | any single default set with a blank before its sign is overridden by the default |
| KeywordSettings.SpacedTimeoutIsOverridden | internal/database/connection.go:63-78 | such an input and the text that comes out |
| KeywordSettings.QuotedWordHidesKeepalives | internal/database/connection.go:63-78 | an input with a quoted value that leaves a default nobody set out of force |
| Dsn.SpacedSettingIsNotRead | internal/database/connection.go:63-69 | a plain setting with one space on each side of its sign is not among the keys found |
| EventFilter.FilterSurvivesStorage | internal/whatsapp/manager.go:195-205 | for every list the manager accepts, the stored text matches an event exactly when the list is empty or has it as a trimmed member, and lists back as the trimmed list |
| EventFilter.MatchesIff | domain/queue/status_webhook.go:52-70 | for any stored text: an event is let through exactly when the text is blank or one of its comma-separated parts is the event, blanks at its ends aside |
| EventFilter.StoredSplits | internal/whatsapp/client.go:1259 | the comma-joined text of an accepted list is not blank and splits back into it |
| EventFilter.SplitEvents | internal/handler/whatsapp/whatsapp_webhook_handler.go:30-41 | the loop lists the trimmed nonblank members, none for a blank filter |
| RingBuffer.IncomingBuffer.Latest | internal/whatsapp/incoming_buffer.go:68-84 | for every n, exactly the last min(n, capacity, pushes) messages, newest first; none for a negative n |
| RingBuffer.IncomingBuffer.Push | internal/whatsapp/incoming_buffer.go:52-66 | the buffer stands for all messages pushed so far, a nil one ignored |
| WebhookSender.WebhookSender.SendWithRetry | internal/whatsapp/webhook_sender.go:168-187 | stops at the first success, makes at most retries + 1 attempts, gives up early only when the next wait would pass the context's deadline, takes exactly its attempts and the doubling waits between them, and with exact timers and sends of at most six seconds is done within the budget |
| WebhookSender.WebhookSender.RetryBudget | internal/whatsapp/webhook_sender.go:189-198 | the loop's 64-bit sum is the closed form, wrapped |
| WebhookSender.BudgetIsExact | internal/whatsapp/webhook_sender.go:189-198 | for up to 10 retries and a backoff under 2^53 ns it is 6(m+1) s + backoff(2^m - 1) exactly |
| WebhookSender.NoOverflow | internal/whatsapp/webhook_sender.go:168-198 | in that range neither the sum nor any shifted backoff leaves int64 |
| WebhookSender.PauseDoubles | internal/whatsapp/webhook_sender.go:168-187 | no wait before the first attempt, the backoff before the second, and twice the last one before each further |
| WebhookSender.SlowestTakesBudget | internal/whatsapp/webhook_sender.go:189-198 | the budget is exactly what a delivery takes that makes every attempt and takes six seconds for each |

## Left out

- Calls into whatsmeow, message building and error mapping: a send is a success or a failure.
- HTTP routing, JWT, HMAC, hashing and encryption: hashes are compared only for equality, and the
  cipher is an arbitrary partial function.
- AMQP connection handling and the reconnect loop: only their effects on messages are modelled
  (confirmed or not, landed or not, delivery returned to its queue at any place).
- Broker failures such as lost or unmirrored queues, and queue length limits: a queue keeps what it
  was given.
- Trace ids and other headers the worker only copies for logging.
- Job status rows and status webhooks of the outgoing handler: publishing comes before the insert,
  so no final status is promised.
- The semaphore of `SendAsync`, address checks of webhook URLs, and response-body handling.
- Floating-point rounding in the token bucket: tokens are exact reals. The truncation of waits to
  whole nanoseconds is kept.
- The width of the retry counter and of limiter counts: they stay far inside 64 bits.
- Pass-through requests of the idempotency middleware (no key, other methods), the trimming of the
  key header, and requests let through when the database fails.
- A process restart as far as the in-memory limiters go, which it empties.
- Runs of the idempotency middleware that end in an error although the message went out: they count as
  not sent.
- S3 and local media storage, media download, docs, logging, health checks and metrics.
- Idempotency.RunsAreConsistent: assumes that the database does not fail, and the timing that
  CanAnswerWronglyIff shows to be needed.
- Delivery.Handlers.HandleOutgoing: a panic between the send and the mark is not a step of the
  handler. The worker would reject the job, so it would be dead-lettered although it was sent
  (AtMostOnce has it as an arrival that is never marked).
- QueryBudget.ReadService.QueryWithBudget: is one request from start to end; QueryMachine interleaves
  them.
- HandlerRuns.HandleAll: is one process life with one message handled at a time; AtMostOnce has the rest.
- AtMostOnce.SucceedsAtMostOnce: assumes that copies of one message are not handled at once, one process
  life and reported arrivals, which AtMostOnce.CanSendTwiceIff shows to be needed.
- TokenBucket.TokenBucketLimiter.AllowN: a history starts again at Reset.
- Topology.SetupSucceedsIff: of an exchange only the type is compared, not durability and the other
  flags, which the gateway always sets alike.
- Dsn.KeywordNormalForm: "already set" is the code's own reading of a text; KeywordSettings says when
  that is what was meant.
- KeywordSettings.PresentWinIff: escapes inside values are not modelled, and names are compared in lower
  case, as the gateway compares them.
- Dsn.UrlNormalForm: speaks of the parsed parameters, not of the URL's text.
- Dsn.NormalizePostgresDSN: parsing and printing a URL belong to Go's net/url; the model starts
  from the parsed query and ends with the rewritten one.

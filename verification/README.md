# FeedFlow, verified

FeedFlow reads RSS feeds, stores their posts, and tells every follower of a feed about a
new post by email or Telegram. This project models the parts whose guarantees no single
function holds, and proves them.

**Delivery.** A new post writes one *intent* per follower into the monolith's outbox. A
relay moves intents to Kafka, at least once. The consumer accepts each request into an
inbox and makes one *delivery* per enabled channel. Workers claim deliveries under a token
and a lease, send, and settle them as sent, to be retried, failed or cancelled; retries and
dead letters leave through a second outbox, and retries come back through Kafka. A periodic
recovery ends claims whose worker died.

- `Store` says what each transaction does, as functions on table values; `Postgres` holds
  the repository as a class that updates its tables, proved against `Store`.
- `Rules` writes out, on columns and fields, what each operation promises. No operation uses
  it: the contracts of the classes do, so that an operation and its specification cannot be
  wrong in the same way.
- `Machine` puts both outboxes, the database, the Kafka log, the committed offsets, every
  task ever handed out and one clock into one state machine. Each committed transaction,
  publication or commit is a step. A crash is a step that does not happen; a lost
  acknowledgement, a publication without a mark, a record processed again and a stale task
  settled late are steps that may happen at any time.
- `Invariant`, `Preservation` and `Steps` prove what every reachable state satisfies;
  `Jobs`, `Causes`, `Fencing`, `Retries`, `Requests`, `Channels`, `Accounting` and `Liveness` prove
  the guarantees over whole runs.
- `EndToEnd` puts them together: a post has at most one delivery for a channel.
- `Relay`, `Consumer` and `Worker` hold the three loops as classes on shared objects
  (`Runtime`), proved to take only steps of the machine; the consumer and the worker while
  all other services take any steps of theirs in between. `Example` spells out one run.

Every delivery carries a *trail*, the list of how its attempts ended and the time before
which the next must not start. No step reads it; it is what the statements about the past
are made of.

**Retry arithmetic** is in `RetryPolicy`. One property is false of the code: the policy can
promise a retry whose delay is zero, and the store reads zero as giving up. A valid policy
that does so is given, with the exact condition under which the two agree. The default
policy meets it.

**Scheduling, scraping, paging** are in `Scheduler`, `Scraper` and `Paging`. `Query` is the
one query shape, ORDER BY and LIMIT, that all of them and the claim, recovery and relay share.

Identifiers are numbers that are never handed out twice, times are nanoseconds on one clock,
JSON payloads are abstract values, and what the environment decides (how a call over the
network ends, what a provider answers, which rows other transactions have locked, random
numbers) is a parameter. A loop that runs until its context is cancelled takes the list of
what the environment does in each round.

## Model

| member | source | states |
|---|---|---|
| `Steps.RunKeeps` | internal/notification/postgres/pipeline.go:31-274 | In every state of every run from a good state, with any interleaving of workers, relays, consumers, channel changes, crashes, duplicate publications and replays, the whole invariant holds |
| `Steps.StepKeeps` | internal/notification/postgres/pipeline.go:31-274 | Each single transaction, publication or commit keeps the invariant: rows, trails, outbox, log and offsets stay consistent with each other |
| `Invariant.InitInv` | cmd/notifier/main.go:59-88 | The empty system satisfies the invariant under every valid configuration |
| `Jobs.StepRefines` | internal/notification/postgres/pipeline.go:31-274 | Seen through one delivery, every step is a move of the simple job Waits -> Runs -> Sent, Dead, Cancelled or Waits again, each made by who may make it, or leaves it: only a claim starts an attempt, the recovery gives up only at its limit, a failure waits exactly its delay, and only a channel step ends a waiting job; relaying, time and consumed records never move an existing job |
| `Jobs.RunRefines` | internal/notification/postgres/pipeline.go:31-274 | Over any run, the successive states of a delivery are a run of that job |
| `Causes.StepRow` | internal/notification/postgres/pipeline.go:31-274 | Every step of the machine, written out on the columns of one delivery |
| `Causes.StatusIsCaused` | internal/notification/postgres/channels.go:133-160 | A delivery changes its status only for its cause: a waiting one is cancelled only by a step that turns off or deletes its own channel, and one is failed only by a failure that is not retried or by the recovery at its limit |
| `Causes.RetriedIff` | internal/notification/pipeline/worker.go:87-91 | A failure is retried if and only if an attempt is left, it is retryable by its own word or else a network error, and the policy's delay is not zero |
| `Jobs.StepMoves` | internal/notification/postgres/pipeline.go:77-274 | Every step either leaves a delivery or moves it strictly up the order (attempts, place in the attempt); finished rows and the event, user and channel never change; no old token comes back into use |
| `Jobs.RunMoves` | internal/notification/postgres/pipeline.go:122-186 | Sent, failed and cancelled are absorbing over runs; a delivery is never removed or repointed and its progress never goes back |
| `Jobs.ChangesBounded` | internal/notification/pipeline/worker.go:74-92 | In any run, however long, attempts stay within max(policy limit, recovery limit) and the delivery changes at most 4 * limit + 3 times less its progress so far |
| `Jobs.AttemptsLimited` | internal/notification/retry/retry.go:97-99 | In every reachable state attempts never exceed max(policy limit, recovery limit) |
| `Jobs.WiredLimit` | internal/notification/pipeline/worker.go:23-45 | With the default policy and the recovery limit the worker passes, both limits are 8 |
| `Fencing.StaleSettleRefused` | internal/notification/postgres/pipeline.go:122-186 | A settlement with a claim that is not current returns the stale-claim error, changes no delivery and writes no outbox row |
| `Fencing.OneCurrent` | internal/notification/postgres/pipeline.go:77-120 | Of all tasks ever handed out, at most one is current for a delivery |
| `Fencing.StaleForever` | internal/notification/postgres/pipeline.go:77-186 | Once a claim is not current, no run makes it current again |
| `Fencing.SettlesOnce` | internal/notification/postgres/pipeline.go:122-274 | After a claim was settled by its worker or ended by the recovery, it is stale in every later state of every run |
| `Fencing.SupersededIsStale` | internal/notification/postgres/pipeline.go:86-91 | A task of an earlier attempt is never current |
| `Fencing.OneTaskPerAttempt` | internal/notification/postgres/pipeline.go:77-120 | In every state of every run, with any number of workers, an attempt of a delivery was handed out at most once |
| `Fencing.HandedOutBounded` | internal/notification/pipeline/worker.go:23-92 | From the empty system, all workers together are handed a delivery at most as often as its attempts are limited |
| `Retries.NoEarlyRetry` | internal/notification/postgres/pipeline.go:160-185 | If attempt k fails at time t and is to be retried after d > 0, then in every run the next claim of that delivery happens at t + d or later |
| `Retries.WaitingIsResumed` | internal/notification/postgres/pipeline.go:67-75 | From every reachable state a delivery in retry_wait has a run of time, one publication and in-order reading by the consumer that resumes it for the next attempt: no retry is lost. It ends when the row that carries the retry is available, and a row the relay has not tried is available exactly when the retry is due |
| `Retries.RetryOnTime` | internal/notification/postgres/pipeline.go:160-185 | If an attempt fails at time t and is to be retried after d > 0, then in any later state in which the delivery waits and the relay has not tried its row, it can be resumed at t + d, or at once if that is past |
| `Retries.ReadingResumes` | internal/notification/pipeline/consumer.go:43-51 | Reading a retry partition in order resumes a delivery whose record lies ahead by the time that record is passed, whatever stands before it |
| `Retries.ResumesOnce` | internal/notification/postgres/pipeline.go:67-75 | After a retry event resumed its delivery, the same event finds nothing to resume in any later state |
| `Retries.OlderEventIgnored` | internal/notification/postgres/pipeline.go:67-75 | An event of an earlier attempt is a no-op now and in every later state |
| `Retries.RetryRoundTrip` | internal/notification/postgres/pipeline.go:176-208 | The record of every retry row of a reachable state is routed as a retry and decodes to the delivery, event, user and attempt it was written for |
| `Requests.NoLostRequest` | internal/notification/relay/relay.go:83-144 | Every intent row is unpublished, or in the log at or after the committed offset, or accepted with its own payload, or reported to the dead letters |
| `Requests.FirstAccept` | internal/notification/postgres/pipeline.go:37-64 | The first accept makes exactly one pending delivery for each enabled channel of the user, and none else for the event |
| `Requests.OneDeliveryPerChannel` | internal/notification/migrations/sql/003_notification_deliveries.up.sql:18-20 | In every reachable state there is at most one delivery for an event and a channel |
| `EndToEnd.RunSources` | internal/database/storage/save_post.go:23-68 | Over any run, every request in the log and in the inbox is, word for word, that of an intent, and there is at most one intent for a post and a user |
| `EndToEnd.OneDeliveryPerPost` | internal/database/storage/save_post.go:13-94 | In every state of every run from the empty system, a post has at most one delivery for a channel of a user |
| `Requests.DeliverySetFixed` | internal/notification/postgres/pipeline.go:45-64 | Over any run an accepted request keeps its payload and exactly the deliveries made at its first accept, however often it is replayed and whatever channels appear later |
| `Requests.ReplayIsHarmless` | internal/notification/pipeline/consumer.go:66-78 | Processing an accepted event again, whatever user and payload the record names, changes nothing but the offset if the payload is the accepted one; otherwise it publishes one identity-conflict dead letter, as far as the broker takes it, and commits only if that was acknowledged |
| `Requests.IntentRoundTrip` | internal/database/storage/save_post.go:40-68 | A published intent is accepted, with the post's title, text, link and date, if and only if its title is not blank, its link parses, is http or https and names a host, and no identifier or date is the zero one; otherwise it is rejected as invalid |
| `Channels.WaitingIsActive` | internal/notification/postgres/pipeline.go:55-72 | In every reachable state a pending or retry_wait delivery has an existing, enabled channel of its own user |
| `Channels.TurnOffCancels` | internal/notification/postgres/channels.go:109-170 | Disabling or deleting a channel cancels every delivery waiting on it |
| `Channels.CancelledForGood` | internal/notification/postgres/channels.go:133-167 | What a disable or delete cancelled is the same cancelled row in every later state of every run; enabling again resurrects nothing |
| `Channels.InFlightFailureCancels` | internal/notification/postgres/pipeline.go:144-158 | A claimed delivery whose channel is off or gone becomes cancelled when it fails, and no outbox row is written |
| `Channels.InFlightRecoveryCancels` | internal/notification/postgres/pipeline.go:240-258 | The recovery cuts it off in the same way, whatever its attempts |
| `Channels.InFlightWhileOff` | internal/notification/postgres/pipeline.go:77-258 | Along any run in whose every state the channel is off or gone, a claimed delivery stays in flight, sent or cancelled, is never claimed again, failed, pending or in retry_wait, and no outbox row is written about it |
| `Channels.OrphanIsNeverClaimed` | internal/notification/postgres/pipeline.go:81-91 | From any state at all, reachable or not, a delivery whose channel stays off or gone is never attempted again along any run |
| `Accounting.AttemptsConserved` | internal/notification/postgres/pipeline.go:86-268 | attempts = retry rows + dead-letter rows + recoveries + cancellations while processing + 1 if processing or sent |
| `Accounting.RowsMatchEndings` | internal/notification/postgres/pipeline.go:160-185 | Among the first n attempts there are as many rows of a kind as attempts that ended that way |
| `Accounting.DeadLetterIffFailed` | internal/notification/postgres/pipeline.go:160-268 | A delivery has one dead-letter row if it failed and none otherwise |
| `Accounting.OneRowPerAttempt` | internal/notification/postgres/pipeline.go:177-181 | A delivery and attempt have at most one dispatch row, of whichever kind |
| `Accounting.ConflictNeverTaken` | internal/notification/postgres/pipeline.go:177-184 | When a running attempt is settled or recovered no row of that attempt exists, so the ON CONFLICT clause never applies |
| `Accounting.SchemaHolds` | internal/notification/migrations/sql/004_notification_dispatch_outbox.up.sql:9-26 | Every state of every run meets the lease, sent, foreign-key, unique, positive-attempt and topic-kind constraints, so they reject no update |
| `Accounting.DeliveriesSchemaHolds` | internal/notification/migrations/sql/003_notification_deliveries.up.sql:17-26 | The constraints of the deliveries table, in every state of the invariant |
| `Liveness.NeverStuck` | internal/notification/pipeline/worker.go:23-72 | From every reachable state an unfinished delivery with a registered sender has a run, of time, relay, consumer, recoveries and claims by workers with these senders only, that moves it on |
| `Liveness.CanFinish` | internal/notification/pipeline/worker.go:23-72 | Such a run can be continued until the delivery is sent, failed or cancelled |
| `Liveness.NoSenderNoAttempt` | cmd/notifier/main.go:83-88 | The sender is needed: along any run whose claims leave out the channel's type, a pending delivery is not attempted and stays pending unless it is cancelled |
| `Liveness.PendingIsClaimed` | internal/notification/postgres/pipeline.go:77-91 | A pending delivery can be claimed, once it is due and for the given senders only, for its next attempt |
| `Liveness.ClaimIsRecovered` | internal/notification/postgres/pipeline.go:210-274 | A claim whose worker died is ended by the recovery once its lease is over |
| `Example.RetryHappens` | internal/notification/pipeline/worker.go:86-91 | A run from the empty system, of a post announced, relayed, accepted, claimed and failed, reaches a delivery in retry_wait with its outbox row, so the statements about such states are about something |
| `Relay.Publisher.PublishOne` | internal/notification/relay/relay.go:70-145 | Publishes the first eligible row in the order of its source: exactly its record is appended, if the broker took it; the row is marked when acknowledged, and otherwise put off by 1, 2, 4, ... and at most 64 seconds for the attempts it had; without a commit, or with invalid JSON, it stays as it is |
| `Relay.Publisher.RunUntilIdle` | internal/notification/relay/relay.go:52-68 | With a working broker and fixed time the busy loop ends, and then exactly the eligible rows are marked and the log has one record for each, in the declared order |
| `Relay.ListingIsExact` | internal/notification/relay/relay.go:83-94 | That order lists exactly the eligible rows, each once, sorted by the columns of the source |
| `Relay.RemainingCandidates` | internal/notification/relay/relay.go:83-94 | After n publications the candidates are the rest of the listing: a published row is never selected again |
| `Relay.Progress` | internal/notification/relay/relay.go:112-144 | One more publication extends the published prefix of the listing by one row, in the table and in the log |
| `Relay.BackoffCapped` | internal/notification/relay/relay.go:112-129 | The backoff is 2^n seconds up to n = 6 and 64 seconds from there on |
| `Relay.BackoffHolds` | internal/notification/relay/relay.go:112-129 | A row that could not be published is not eligible before its backoff is over |
| `Relay.SettleKeeps` | internal/notification/relay/relay.go:112-144 | One publication never moves available_at back, changes nothing a row says and no other row, and a marked row is the last record of its partition and no longer eligible |
| `Contract.WireHeadersRoundTrip` | internal/notification/pipeline/consumer.go:64-67 | The relay's headers read back, through the consumer's header loop, as exactly the four fields written |
| `Contract.RequestAcceptedIff` | internal/notification/contract/validate.go:17-47 | A request is accepted if and only if every one of its fields, its key and its headers is as required, and then as its payload says |
| `Contract.RetryAcceptedIff` | internal/notification/contract/validate.go:56-64 | A retry is accepted if and only if its identifiers are not zero, its attempt is positive and its key is its user |
| `Contract.RoutesExactly` | internal/notification/pipeline/consumer.go:66-95 | Which records are accepted and which resume a retry, and the reason each other one is rejected for |
| `Contract.LastHeaderCounts` | internal/notification/pipeline/consumer.go:64-67 | A header reads as its last occurrence, and is missing if and only if it does not occur |
| `Contract.TrimmedIs` | internal/worker/worker.go:136-137 | The trimmed text is the text between the outermost characters that are not space |
| `Query.Fetch` | internal/database/storage/feeds.go:12-34 | The row loop returns what ORDER BY and LIMIT select |
| `Query.SelectIsTop` | internal/notification/postgres/pipeline.go:81-85 | A selection is strictly sorted, has min(limit, rows) rows, and leaves out only rows that sort after all of it |
| `Query.SelectedIffFewAhead` | internal/notification/postgres/pipeline.go:81-85 | A row is selected if and only if fewer than limit rows sort before it |
| `Query.SelectContinues` | internal/database/storage/get_all_feeds.go:17-26 | Selecting b rows after the first a gives the first a + b rows |
| `Postgres.Repository.AcceptRequest` | internal/notification/postgres/pipeline.go:31-65 | A new event adds exactly one pending row for each enabled channel of its user and touches no other; a known event changes nothing, and is a conflict exactly when user or payload differ |
| `Postgres.Repository.ResumeRetry` | internal/notification/postgres/pipeline.go:67-75 | The delivery changes, to pending now, if and only if event, user, attempt, status and channel match; no other row changes |
| `Postgres.Repository.Claim` | internal/notification/postgres/pipeline.go:77-120 | Exactly the first claimable rows, by available_at, created_at and id, are claimed, for a lease of whole milliseconds, and one task is handed out for each, with its channel's destination and its request's text; an error when the arguments are not positive or a stored payload does not decode |
| `Postgres.Repository.ChannelActive` | internal/notification/postgres/pipeline.go:188-197 | Holds if and only if the delivery exists and its channel is there, is its user's and is enabled |
| `Postgres.Repository.MarkFailed` | internal/notification/postgres/pipeline.go:135-186 | A current claim is cancelled without its channel; else put in retry_wait, with a retry row available after exactly the delay on the topic for that delay; else failed, with a dead letter available at once; a stale claim changes nothing |
| `Postgres.Repository.MarkSent` | internal/notification/postgres/pipeline.go:122-133 | A current claim is settled as sent now; a stale one changes nothing |
| `Postgres.Repository.RecoverExpired` | internal/notification/postgres/pipeline.go:210-274 | Exactly the first rows with a lease that is over, by lease and id, are recovered: cancelled if the channel is off, gone or another user's, failed if it is on and attempts >= the limit, else pending from now on; one dead letter is added for each that failed, and no other row |
| `Postgres.Repository.CreateChannel` | internal/notification/postgres/channels.go:62-81 | Refused if and only if the id or the (user, type, destination) is taken; otherwise the channel is added, enabled |
| `Postgres.Repository.SetChannelEnabled` | internal/notification/postgres/channels.go:109-144 | Switches the user's channel, and on disabling a row changes if and only if its channel and user are the given ones and it is pending or retry_wait, and then only to cancelled; a foreign channel is not found and nothing changes |
| `Postgres.Repository.DeleteChannel` | internal/notification/postgres/channels.go:146-170 | Cancelling first and deleting second, with a rollback when nothing was deleted, deletes the user's channel and cancels exactly the rows that wait on it, or changes nothing |
| `Postgres.Repository.CancelChannelDeliveries` | internal/notification/postgres/channels.go:133-136 | Cancels exactly the pending and retry_wait rows of that channel and user |
| `Postgres.ClaimAllAt` | internal/notification/postgres/pipeline.go:86-91 | Claiming distinct rows one by one is the single UPDATE over all of them |
| `Postgres.RecoverAllSnoc` | internal/notification/postgres/pipeline.go:239-269 | Each round of the recovery loop extends the recovered prefix by one row |
| `Runtime.ClaimAllReaches` | internal/notification/postgres/pipeline.go:77-120 | A batch claim is a run of single claim steps, and every task it hands out is on record |
| `Runtime.RecoverAllReaches` | internal/notification/postgres/pipeline.go:239-273 | A recovery transaction is a run of single recovery steps |
| `Runtime.Cluster.PublishRequest` | internal/notification/relay/relay.go:83-144 | One publication by the monolith's relay, on the real tables and log, is one step of the machine or none |
| `Runtime.Cluster.PublishDispatch` | internal/notification/relay/relay.go:83-144 | One publication by the dispatch relay is one step of the machine or none |
| `Runtime.RoutedAlways` | internal/notification/relay/relay.go:101-108 | In every reachable state each outbox row names its topic and holds decodable JSON |
| `Runtime.Cluster.Others` | cmd/notifier/main.go:81-88 | Whatever other services do on the shared objects in between is a run of the machine |
| `Runtime.Observed` | internal/notification/postgres/pipeline.go:31-274 | No step reads the trails: two states that look alike take the same steps to states that look alike |
| `Consumer.Consumer.Process` | internal/notification/pipeline/consumer.go:60-96 | Database and log after a record are those of the routing: accepted, resumed or reported with the right reason, also when the database refuses or its reply is lost; it succeeds only when the store or the dead letter was acknowledged |
| `Consumer.HandledMeans` | internal/notification/pipeline/consumer.go:66-96 | Written out: a rejected record, and a conflict the database reports, get one dead letter with the reason and are settled once it is acknowledged; any other record once the database answered |
| `Consumer.Consumer.Handle` | internal/notification/pipeline/consumer.go:43-51 | Processing and then committing is a step of the machine or none; the offset moves by one if and only if both went well |
| `Consumer.Consumer.Run` | internal/notification/pipeline/consumer.go:28-58 | While all other services do what they like, short of committing in its partitions, the loop takes only steps of the machine, never reads back, stops with the failed record next in line, and while its network works passes one more record each round until it has caught up |
| `Consumer.Consumed` | internal/notification/pipeline/consumer.go:60-96 | The effect of a processed record is reached by the machine |
| `Worker.Worker.Process` | internal/notification/pipeline/worker.go:74-92 | A task that holds its claim ends as sent when accepted, cancelled without its channel, in retry_wait when the failure is to be retried, else failed; an unregistered sender is a permanent failure; a cancelled context changes nothing, so a shutdown never spends an attempt |
| `Worker.Worker.Claim` | internal/notification/pipeline/worker.go:54-57 | Claims the first row for a minute, if there is one; its task is current in the new state, one attempt on, and of a type the worker has a sender for |
| `Worker.Worker.RecoverExpired` | internal/notification/pipeline/worker.go:27-29 | Recovers up to 100 rows with a limit of 8 attempts, taking only steps of the machine |
| `Worker.Worker.Run` | internal/notification/pipeline/worker.go:23-72 | While all other services do what they like between its calls, other workers included, the loop takes only steps of the machine; every round whose claim is answered and finds a row hands one task to a provider, no attempt twice, and unless the store refuses, each is settled in its round; it recovers up to 100 expired claims at the start and in every round that is to |
| `Worker.SendsBounded` | internal/notification/pipeline/worker.go:23-72 | So one worker never sends a delivery more often than the attempt limit |
| `Worker.NextIsNewer` | internal/notification/postgres/pipeline.go:86-90 | A newly claimed attempt is later than every task of that delivery handed out before |
| `RetryPolicy.Policy.ExponentialDelay` | internal/notification/retry/retry.go:144-157 | The doubling loop gives min(base * 2^(attempt-1), max) for every attempt, on 64-bit durations and without overflow |
| `RetryPolicy.Policy.WithJitter` | internal/notification/retry/retry.go:159-181 | The scaled, capped and truncated delay, without overflow |
| `RetryPolicy.JitteredIs` | internal/notification/retry/retry.go:159-181 | The jitter written out: d * (1 - j + 2 j r) for r cut to [0, 1], capped at the maximum and truncated |
| `RetryPolicy.NewPolicy` | internal/notification/retry/retry.go:59-88 | A configuration is refused if and only if a number is not positive, the base exceeds the maximum or the jitter is outside [0, 1] |
| `RetryPolicy.Policy.NextDelay` | internal/notification/retry/retry.go:90-109 | Retries if and only if there is an error, the context is live, the attempt is within the limit and the failure is retryable by its own word or else a network error; then the larger of the jittered backoff and the provider's suggestion, else zero |
| `RetryPolicy.BackoffMonotone` | internal/notification/retry/retry.go:144-157 | A later attempt never has a shorter backoff |
| `RetryPolicy.BackoffInRange` | internal/notification/retry/retry.go:144-157 | The backoff lies between the base and the maximum |
| `RetryPolicy.FactorBounds` | internal/notification/retry/retry.go:164-172 | The jitter factor lies in [1 - j, 1 + j] whatever the random source returns |
| `RetryPolicy.JitterBounds` | internal/notification/retry/retry.go:171-180 | The jittered delay lies in [(1 - j) d, min(max, (1 + j) d)], the lower end up to the truncation |
| `RetryPolicy.DelayBounds` | internal/notification/retry/retry.go:101-108 | The final delay is at least the suggestion and at least the jittered minimum, and at most the larger of maximum and suggestion |
| `RetryPolicy.SentinelCanDisagree` | internal/notification/pipeline/worker.go:87-91 | A valid policy can promise a retry with delay zero, which the store reads as giving up |
| `RetryPolicy.SentinelAgreesIff` | internal/notification/pipeline/worker.go:87-91 | Policy and store agree on every failure if and only if the policy never retries or base * (1 - j) is at least a nanosecond |
| `RetryPolicy.DefaultPolicyAgrees` | internal/notification/retry/retry.go:46-57 | The default policy is one that agrees |
| `RetryPolicy.DefaultSchedule` | internal/notification/retry/retry.go:13-18 | By default a retryable failure is retried after the attempts 1 to 7, in 1, 2, 4, ..., 64 seconds, a fifth more or less |
| `Scheduler.Feeds.GetNextFeedsToFetch` | internal/database/storage/feeds.go:12-34 | The feeds longest not fetched, never fetched ones first, ties by id |
| `Scheduler.Feeds.MarkFeedFetched` | internal/database/storage/feeds.go:36-41 | Marks that feed and no other; a missing feed is no error |
| `Scheduler.Feeds.FetchBatch` | internal/worker/worker.go:66-99 | A batch marks exactly the selected feeds whose scrape succeeded |
| `Scheduler.Fairness` | internal/worker/worker.go:66-99 | From any table of n feeds, with f < c failing feeds and an advancing clock, every other feed is fetched within ceil((n - f) / (c - f)) batches |
| `Scheduler.Reached` | internal/database/storage/feeds.go:13 | A healthy feed is fetched once the batches together could take all healthy feeds ahead of it |
| `Scheduler.NotTaken` | internal/database/storage/feeds.go:13 | A batch without x puts at least c - f healthy feeds from ahead of x behind it, and lets none in |
| `Scheduler.Starvation` | internal/worker/worker.go:85-93 | f < c is needed: if a batchful of feeds ahead of x keeps failing, x is never fetched |
| `Scheduler.Feeds.Start` | internal/worker/worker.go:35-64 | The loop's batches are such a run, one for each query that succeeds, so with enough of them every healthy feed is fetched; a bad interval or concurrency is refused |
| `Scraper.Scraper.ScrapeFeed` | internal/worker/worker.go:101-179 | However it is interrupted, a prefix of the items took effect: every valid link among them is stored, what is new is the content of the first valid item with its link, and nothing else changed; on success all items did, the count is that of the added posts, and the feed is marked; it is marked only after the last item |
| `Scraper.Scraper.SavePost` | internal/database/storage/save_post.go:13-94 | A new link adds the post and exactly one intent, with the post's text, for every u with (u, feed) in follows; a known link adds nothing |
| `Scraper.Scraper.ParsePublishedAt` | internal/worker/worker.go:181-203 | The first layout that parses the trimmed text decides; blank or unparsable text is no date |
| `Scraper.ScrapedExactly` | internal/worker/worker.go:130-178 | A scrape adds a post for exactly the valid links that had none, and as many as that |
| `Scraper.StoredExactly` | internal/database/storage/save_post.go:15-21 | Storing a list adds exactly its links and leaves what was there |
| `Scraper.FirstWins` | internal/database/storage/save_post.go:20 | Of several new items with one link the first is stored |
| `Scraper.ScrapeResumes` | internal/worker/worker.go:130-178 | An interrupted scrape followed by a full one has the effect of one full scrape: the same posts, and exactly one intent for every new post and follower |
| `Scraper.ScrapeIdempotent` | internal/worker/worker.go:130-178 | Scraping the same items again changes nothing at all |
| `Scraper.StoredResumes` | internal/database/storage/save_post.go:15-21 | Storing a prefix and then the whole list stores what the whole list stores |
| `Scraper.SaveGrows` | internal/database/storage/save_post.go:23-68 | Saving a new post adds exactly one intent for every follower of its feed and touches no other row |
| `Scraper.GrownTrans` | internal/database/storage/save_post.go:23-68 | That property composes over any number of saves |
| `Scraper.SaveReaches` | internal/database/storage/save_post.go:23-68 | The intents of a saved post are steps of the machine, none of which the unique index on post and user rejects |
| `Scraper.ScrapedIntentRoutes` | internal/notification/contract/validate.go:26-37 | The intent of a scraped item is accepted by the notifier, with the trimmed title and text, if and only if its trimmed link parses, is http or https and names a host, and its date is not the zero time; otherwise it goes to the dead letters as an invalid request |
| `Scraper.Scraper.ReadItem` | internal/worker/worker.go:136-166 | An item is skipped if and only if title or link is blank or the date does not parse; otherwise its trimmed texts make the post |
| `Paging.Handler.GetFeedsPage` | internal/database/storage/get_all_feeds.go:12-46 | The rows after the cursor in id order, up to the limit; a limit outside 1..101 is an error |
| `Paging.Handler.GetAllFeeds` | internal/handler/get_all_feeds.go:24-75 | 400 for a limit outside 1..100 or a bad cursor, 500 when the query fails, else the page of the table, of 50 by default; a cached first page shows the same rows and cursor as the query that filled the cache, which only a first page of 50 does |
| `Paging.PageIsPrefix` | internal/handler/get_all_feeds.go:77-87 | A page has the first limit rows after the cursor; there is a next cursor if and only if a row is left, and it is the last id shown |
| `Paging.WalkIsSound` | internal/handler/get_all_feeds.go:77-87 | Following the cursor while rows come and go, ids strictly increase and every feed present throughout is shown exactly once |
| `Paging.WalkIsReal` | internal/handler/get_all_feeds.go:77-87 | Every row shown is a row of one of the tables the walk saw |
| `Paging.WalkIsTable` | internal/handler/get_all_feeds.go:77-87 | On a fixed table the pages put together are the whole table sorted by id |
| `Paging.WalkEnds` | internal/handler/get_all_feeds.go:77-87 | On a fixed table a walk with any limits ends within as many pages as there are rows, or one |
| `Paging.RestOf` | internal/database/storage/get_all_feeds.go:17-26 | What the query returns after the cursor is exactly what the page left out |

## Left out

- The bytes: JSON, XML and SQL text, UUID spellings other than the canonical one, and jsonb
  equality finer than equality of values.
- `occurred_at` of an invalid-record dead letter, which is a fresh timestamp on each replay.
- Float64 rounding in the jitter; reals and the final truncation are used.
- Clock skew between processes and the database, and microsecond rounding of timestamps.
- The limit of 100 on an error code counts characters here and bytes in the code; all codes
  in use are ASCII. Which code a provider error gets is a parameter.
- A nil retry policy; the notifier is always wired with one.
- Interleaving within one transaction. `DeleteChannel` cancels before it deletes the row and
  takes no lock that would stop a delivery from being created, or scheduled for a retry, in
  between, so at the level of statements a waiting delivery can outlive its channel. The
  result that holds then too is `Channels.OrphanIsNeverClaimed`.
- Retention: Kafka keeps every record, and partitions lose nothing.
- Rebalancing while the consumer's loop runs: it keeps the partitions it owns. The machine
  allows any record to be processed again at any time, and all results over runs cover it.
- What other services do between the processing of a record and the commit of its offset:
  the two are one step of the machine, or the commit never happens.
- The tickers of the worker, the relay and the feed loop, and how long they wait; the
  machine lets every call happen at any time.
- Concurrent scrapes within one batch: `Scraper.ScrapeFeed` runs one scrape at a time, and
  `Scheduler.FetchBatch` takes the outcome of each scrape as given. Storing is by link in
  one statement, so it matters to no result which scrape stores a shared link first, except
  whose feed the post belongs to.
- Feeds deleted during a scrape, whose foreign key then makes saving fail: this is the fault
  of a failed save.
- Text and length checks of the schema on channels and posts, and `updated_at`.
- `GetChannels` and the other HTTP handlers, JWT, configuration and process start-up.
- `GetPosts`, whose order has no tie-break, so that a walk over its pages has no sound law.
- The freshness of the cached first page; only that a cached page equals the query that
  filled it.
- The older notification worker and its store, which the notifier does not wire.
- SMTP, Telegram, Redis, Kafka and Postgres clients.

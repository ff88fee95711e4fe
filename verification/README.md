# Verified model of the webhook processor

The service accepts webhooks into PostgreSQL, moves them through a transactional outbox to RabbitMQ, processes them in
workers with retries, buries what keeps failing in a dead-letter table, and replays dead letters by hand or on a schedule.
This project models that delivery protocol and four smaller algorithms beside it, and proves what the protocol keeps over
all runs. `dafny verify dfyconfig.toml` checks everything; nothing here executes the service.

## How the model is built

One protocol, two views of it.

* `Rows` holds the three tables, the guards of their `WHERE` clauses and the effect of each statement. `Protocol` is a
  transition system over the tables, the broker, the clock and the position of every call under way. One step is one SQL
  statement or transaction, one publish, one acknowledgement, one processor call starting or ending, or one act of the
  environment: time passes, a webhook is accepted, calls crash, connections are lost. A database call ends in one of three
  ways: done, done with the reply lost, or refused. A publish that reports an error may still have reached the broker. The
  gaps between statements are gaps in the model: everybody else may run there. A `Run` is any finite sequence of enabled
  steps from the empty schema, so a lemma about `Valid` runs speaks about every interleaving of any number of dispatchers,
  workers, schedulers and replay callers.
* `Platform.System` is the same system as an object whose fields the statements update in place, with the run so far as
  ghost state. Each of its statements is proved to be the protocol step of its name; a statement that finds nothing to
  change takes no step, and a claim whose reply is lost is the claim and the end of its call. `Interfere` lets everybody
  else run. `Dispatching`, `Working`, `Scheduling` and `Recovery` are the service's loops over that object, with
  interference between statements. `alone` switches interference off and `healthy` switches failures off; only the clauses
  that say so use them.

The main results:

| theme | result |
|---|---|
| no event lost | every event stays covered throughout a run **if and only if** every effective replay is fenced; a run that loses an event without the fence |
| recovery | from every reachable state, after a total outage one dispatcher and one worker finish exactly the events that are not stranded |
| exclusive processing | no two workers are ever at one event **if and only if** no claim overtakes a worker, that is, finds the lease in the row run out while another is still at work; a lease longer than (M+1)P + R·M(M+1)/2 plus store calls excludes that; a run with two workers without it |
| processed is final | a processed event stays so **if and only if** no worker still at it records a failure; never without overtaking, and a run where it happens with it |
| statuses are earned | a processed event had a successful call at the attempt it records, a failed event and a dead letter M+1 failed calls of one delivery |
| column laws | for every column of the three tables, which steps write it, what they write, and that nothing else does; from these, over all runs: two dispatch claims of a row with no mark between them are a lease apart, and a letter is claimed only when due, not replayed and within the maximum |
| accounting | claims, processor calls, publish marks, automatic replays and the retry budget are bounded or balanced over all runs |
| dead-letter schedule | letters stay scheduled **if and only if** no step strands one |
| backoff | a closed form for every interval and attempt in 64 bits, and exactly when every draw gives an allowed delay |
| metric, placeholders, forwarding | exactness at every moment, an exact condition for faithful rewriting, conservation |

Two facts about the code shape these results. A replay reopens the outbox row without clearing its dispatch token, so a
dispatcher that has published but not yet marked can mark the reopened row; `NoLoss.Fenced` is the exact condition that
rules the loss out. And the terminal updates are guarded by the event id only, so exclusivity and finality rest on no
worker being overtaken, which the lease is to ensure, as `docs/architecture.md` demands of its configuration. That
document calls delivery at-least-once without a condition; the code guarantees it under the fence.

## Model

| member | source | states |
|---|---|---|
| `Shape.StepKeepsShape` | event_store.go:216-240 | every step of every role keeps the shape of rows, messages and calls: processing iff a start time is set, token iff a dispatch time, published rows carry no token, failed events have a letter |
| `Shape.RunShape` | event_store.go:264-300 | that shape holds in every state of every run, with no hypothesis |
| `Contents.RunContent` | event_store.go:88-130 | the event row carries the content first accepted under its id, and exists iff something was accepted |
| `Contents.ContentAgreement` | event_store.go:332-375 | through any number of replays, event row, outbox row, messages, deliveries and letter all carry the content first accepted for the id |
| `Contents.NeverMissing` | event_store.go:285-291 | a delivery of a published message always finds its event row, so no delivery is ever dropped as missing |
| `Contents.FailedIsReplayable` | worker.go:92-103 | a failed event always has its dead letter, so replaying it never reports not found |
| `Columns.EventColumns` | event_store.go:264-272 | an event row is inserted by its acceptance and never deleted; status, attempts and start time are written exactly by a claim whose guard holds, a terminal write and an effective replay, each with the value given on the row's own fields |
| `Columns.OutboxColumns` | event_store.go:216-252 | over all runs an outbox row is inserted with its event under a new id and never deleted; attempts, publication, token and dispatch time are written exactly by a claim of the row, a mark under its own token and a replay commit, which leaves token and dispatch time alone |
| `Columns.LetterColumns` | event_store.go:302-322 | a letter is inserted by its first burial and never deleted; every burial makes it due now and takes the replay stamp off, a claim charges one attempt and unschedules it, a reschedule sets its time only while it is not replayed, a replay commit stamps it, and nothing else writes |
| `Columns.MessageColumns` | worker.go:64-74 | a message is enqueued by a publish that reaches the broker, with that call's item; it is removed only by its holder's ack or drop, and held from its delivery until its holder's requeue or the loss of that delivery's connection |
| `Columns.StampCleared` | event_store.go:310-316 | over all runs a replay stamp goes only by a burial of the same event that reaches the table |
| `Columns.ReplayedLetterStays` | dlq_backoff_store.go:52-57 | over all runs a reschedule changes no column of a letter stamped as replayed |
| `Columns.ReservationHistory` | event_store.go:146-161 | over all runs the dispatch time of a row is the stamp of its latest claim, unless its holder has marked it since |
| `Columns.ClaimsApart` | event_store.go:146-161 | over all runs a dispatch claim takes a row only if it is unpublished and the latest claim of it, unless marked since, lies a dispatch lease back |
| `Columns.LetterHistory` | dlq_backoff_store.go:14-32 | over all runs next retry time, replay stamp and replay attempts of a letter are what the log of burials, claims, reschedules and replays says |
| `Columns.LettersOnTime` | dlq_backoff_store.go:17-26 | over all runs a scheduler claims a letter only when its time has come, it is not replayed, and it was claimed less often than the maximum |
| `NoLoss.StepKeepsCover` | event_store.go:139-252 | every step keeps an event covered (unpublished with no mark due, or a message nobody is about to acknowledge), an effective replay provided it is fenced |
| `NoLoss.UnfencedStepUncovers` | event_store.go:356-360 | an effective replay of an unfenced event always uncovers it |
| `NoLoss.UncoveredIsLosable` | outbox.go:62-76 | an uncovered event is lost already or is lost by the mark that is due |
| `NoLoss.CoveredIffFenced` | event_store.go:324-384 | a run keeps every event covered throughout iff every effective replay in it is fenced |
| `NoLoss.NoEventLost` | docs/architecture.md:34-48 | no run with fenced replays loses an accepted event, whatever crashes, connection losses, store errors, duplicates and stale workers it contains |
| `NoLoss.UnfencedReplayLoses` | event_store.go:356-360 | after any run, an unfenced replay followed by the due mark leaves the event queued with neither a pending row nor a message |
| `LossWitness.UnfencedReplayLosesEvent` | event_store.go:356-360 | a concrete run from the empty schema that loses an event |
| `Recovery.CoverFollows` | worker.go:39-61 | a covered event stays covered by any continuation without replays |
| `Recovery.AbandonedFollows` | event_store.go:146-161 | an event with no pending row, message or call stays untouched by any continuation without replays |
| `Recovery.RoundShrinks` | event_store.go:146-161 | a dispatch round takes a full batch off the unpublished rows, or all of them |
| `Recovery.DrainOutbox` | outbox.go:38-78 | a lone dispatcher on a healthy system publishes n claimable rows in ceil(n / batch size) rounds |
| `Recovery.DeliveryFinishes` | worker.go:30-62 | once leases are over, handling a delivery finishes a live event as its processor's outcomes demand, leaves a finished one alone, and acknowledges |
| `Recovery.DrainBroker` | worker.go:20-62 | a lone worker on a healthy system empties the queue; each row is unchanged or was live and is finished |
| `Recovery.DrainedVerdict` | outbox.go:56-78 | once outbox and queue are empty the live events are exactly those that were stranded before |
| `Recovery.FencedRecovers` | docs/architecture.md:34-50 | where past replays were fenced, recovery leaves every event with status processed or failed |
| `Recovery.Recover` | worker.go:30-62 | from every reachable state: all calls die, deliveries return, leases elapse; then one dispatcher and one worker terminate with outbox and queue empty and exactly the events that were not stranded finished |
| `Leases.StepKeepsOwners` | event_store.go:261-283 | within the lease a working delivery's claim stamp stays the one in the event row |
| `Leases.ExclusiveProcessing` | docs/architecture.md:123 | in a run that obeys the lease no two live workers process one event |
| `Overtaking.StepTended` | event_store.go:261-283 | from a state with one worker per event, each with its row in processing since its claim or later, every step keeps that, except exactly a claim that overtakes |
| `Overtaking.ExclusiveIffNeverOvertaken` | event_store.go:264-272 | over all runs, with no hypothesis on time: no two workers are ever at one event iff no claim known to have succeeded finds the row's lease run out while another handling works on the event |
| `Overtaking.SecondWorkerIffExpired` | event_store.go:264-272 | after any run never overtaken so far, the row of a worker's event records a lease begun at its claim or later, and another delivery's claim makes a second worker iff that lease has run out |
| `Overtaking.LeaseNeverOvertaken` | docs/architecture.md:123 | a run whose workers obey the lease is never overtaken |
| `StaleWitness.ClaimOvertakes` | event_store.go:264-272 | a concrete run in which a claim at the end of the lease puts two workers at one event |
| `Overtaking.ProcessedIffNotOverturned` | event_store.go:482-494 | over all runs a processed event stays processed iff no worker still at it records a failure |
| `Overtaking.ProcessedIsFinal` | event_store.go:264-300 | in a run never overtaken a processed event stays processed and no processor call for it starts again, even with late duplicates and replays that read it while failed |
| `StaleWitness.SuccessOverturned` | event_store.go:482-494 | a concrete run in which the overtaken worker's failure replaces the success |
| `CallRecord.StepKeepsEarned` | worker.go:75-113 | every step keeps each delivery's phase, each terminal row and each letter backed by processor calls that ended accordingly |
| `CallRecord.TerminalIsEarned` | worker.go:80-103 | in every run a processed event had a call that succeeded at the attempt in its row after failures at all earlier attempts of that delivery; a failed event and a dead letter had M+1 failed calls of one delivery |
| `Timing.TriangleClosed` | config.go:167-169 | the linear backoffs add up to the triangular number n(n+1)/2 |
| `Timing.PromptRunObeysLease` | worker.go:75-110 | if every call keeps its time bound, a lease longer than (M+1)P + R·M(M+1)/2 plus store calls is obeyed |
| `Timing.ExclusiveByTiming` | config.go:160-169 | under that bound no run has two live workers on one event |
| `Accounting.ClaimsBounded` | event_store.go:264-283 | claims of an event are at most one plus effective replays plus expired-lease reclaims |
| `Accounting.CallsBounded` | worker.go:76-110 | processor calls for an event are at most M+1 per claim, however many duplicates the broker holds |
| `Fencing.TokenClaimedOnce` | event_store.go:139-161 | a dispatch token belongs to at most one claim of the whole run |
| `Fencing.StaleForever` | event_store.go:216-240 | a row no longer reserved under a token is never reserved under it again |
| `Fencing.FencedOff` | event_store.go:235-252 | a dispatcher whose row was re-claimed can never again mark it published or failed, and its call ends |
| `Fencing.MarksBounded` | event_store.go:216-233 | publish marks of an event are at most one plus its replay commits |
| `RetrySchedule.ScheduledIffNothingStranded` | dlq_backoff_store.go:14-32 | throughout a run every letter not yet replayed has a next retry time or a scheduler holding it iff no crash of all holders and no refused reschedule by the only holder occurs |
| `RetrySchedule.LettersStayScheduled` | dlq_retry.go:53-76 | that holds whenever no scheduler crashes and every reschedule reaches the database, even with manual replays and renewed failures between |
| `RetryBudget.AutoReplaysBounded` | dlq_backoff_store.go:14-32 | scheduler-made replays of an event never exceed its replay attempts, nor these the maximum, with any number of schedulers and re-failures |
| `RetryBudget.BudgetLedger` | event_store.go:302-322 | the total remaining budget falls by one per claimed letter, rises by the maximum with a first-time dead letter, and changes by nothing else |
| `Backoff.BaseClosed` | dlq_retry.go:78-84 | the doubling is interval times a power of two |
| `Backoff.RetryDelay` | dlq_retry.go:78-91 | for every positive interval and every attempt the loop returns 24 hours if some doubling on the way, wrapped to 64 bits, reaches it, and else the wrapped delay with its jitter, which panics if that delay is too negative |
| `Backoff.CapBeforeOverflow` | dlq_retry.go:80-85 | up to half the int64 range the doubling reaches the cap exactly when the true value does, and overflows never |
| `Backoff.RightIffReliable` | dlq_retry.go:78-91 | every draw gives 24 hours at the cap and else base plus up to a quarter iff, at attempt 1, interval plus a quarter fits int64, and from attempt 2 on, the interval is within half the int64 range or one of its overflowing doublings lands at the cap |
| `Backoff.DayCap` | dlq_retry.go:78-91 | in nanoseconds, for intervals within half the int64 range and from attempt 2 on: 86 400 000 000 000 whatever is drawn iff the interval times 2^(n-1) reaches that; below, between that product and a quarter more |
| `Backoff.DrawHitsDay` | dlq_retry.go:86-90 | an interval below the cap and a draw whose delay is 24 hours too, so the equivalence cannot hold draw by draw |
| `Backoff.DelayCases` | dlq_retry.go:78-91 | in plain numbers for every int64 interval and attempt: 24 hours as soon as a doubling in 64 bits comes out at that or more; else the doubled interval with up to a quarter more, itself if tiny, a panic if negative |
| `Backoff.EveryDelayDrawn` | dlq_retry.go:86-90 | below the cap every allowed delay comes out for some draw |
| `Backoff.DelaysIncrease` | dlq_retry.go:86-90 | below the cap every jittered delay of one attempt is below every delay of the next |
| `Backoff.CapStays` | dlq_retry.go:80-85 | from the first capped attempt on the delay is 24 hours |
| `Platform.LowestExists` | event_store.go:146-161 | an ordered, limited candidate query always has an answer |
| `Platform.System.constructor` | migrations/000001_initial_schema.up.sql:1-32 | the system starts from empty tables and an empty broker |
| `Platform.System.Interfere` | docs/architecture.md:50 | whatever others do, a call's own position and processor calls stay as they were |
| `Platform.System.SaveQueuedWithOutbox` | event_store.go:88-130 | both rows or neither; a known id changes nothing and is reported as duplicate; an error reply decides nothing about the rows |
| `Platform.System.SelectPending` | event_store.go:147-156 | at most the limit of distinct rows, each unpublished and free or reserved at least a lease before the stamp; run alone, any such row left out has a higher id than every row of a full batch |
| `Platform.System.ReserveBatch` | event_store.go:146-161 | the claim statement: those rows, all stamped under one token never used before |
| `Platform.System.ClaimPendingOutbox` | event_store.go:139-183 | returns the claimed batch, or an error after which either nothing is claimed or a whole batch is, under a token nobody holds |
| `Platform.System.Publish` | rabbitmq_queue.go:76-121 | success means confirmed and enqueued; an error leaves open whether the broker has the message |
| `Platform.System.MarkOutboxPublished` | event_store.go:216-233 | succeeds iff the row is still reserved under the token and the reply arrives; else the call ends and a foreign row is untouched |
| `Platform.System.MarkOutboxFailed` | event_store.go:235-252 | counts an attempt and frees the row, only under its own token |
| `Platform.System.Receive` | rabbitmq_queue.go:284-319 | a ready message becomes held under a new delivery tag |
| `Platform.System.ClaimEvent` | event_store.go:261-283 | matches iff the event is queued or its lease has expired, and then stamps it |
| `Platform.System.ReadEventStatus` | event_store.go:285-300 | final states are to be acknowledged, live ones requeued, a missing row dropped |
| `Platform.System.MarkProcessed` | event_store.go:468-480 | the row becomes processed with its attempt count whoever holds the lease; the delivery is acknowledged iff the write is known to have succeeded |
| `Platform.System.SaveDeadLetter` | event_store.go:302-322 | inserts the letter or renews it: due now, no replay stamp, M+1 attempts, and the replay attempts kept, in both cases |
| `Platform.System.MarkFailed` | event_store.go:482-494 | the row becomes failed with M+1 attempts; the delivery is acknowledged iff the write is known to have succeeded |
| `Platform.System.SettleDelivery` | worker.go:64-74 | the message leaves, returns or is dropped, unless the broker has already taken the delivery back |
| `Platform.System.SelectDue` | dlq_backoff_store.go:16-26 | at most ten distinct letters, each due by the stamp, not replayed and charged less often than the maximum; run alone, any such letter left out is due no earlier than each of ten claimed ones, equal times decided by the order of ids |
| `Platform.System.ReserveLetters` | dlq_backoff_store.go:15-32 | the claim statement: those letters, each charged one attempt and unscheduled |
| `Platform.System.ClaimRetryableDeadLetterDetails` | dlq_backoff_store.go:14-50 | returns the claimed letters with their attempt numbers, or an error after which either nothing is claimed or a whole batch is that nobody holds |
| `Platform.System.ReadForRetry` | event_store.go:331-346 | the replay goes on iff event and letter exist and the event is failed |
| `Platform.System.CommitRetry` | event_store.go:347-384 | the whole replay transaction or nothing of it; on any error the letter goes to rescheduling |
| `Platform.System.RescheduleDeadLetterRetryWithDelay` | dlq_backoff_store.go:52-62 | a letter not yet replayed is due again after the delay; a replayed one keeps every column |
| `Platform.System.ReadForReplay` | event_store.go:331-346 | error, not found, not failed or accepted, each exactly in its case |
| `Platform.System.CommitReplay` | event_store.go:347-384 | the guarded reset, the reopened or recreated outbox row and the stamped letter, or nothing |
| `Dispatching.DispatchItem` | outbox.go:62-76 | one item is published and marked, or ends the call; a failed mark is reported, a failed publish is not |
| `Dispatching.DispatchPending` | outbox.go:56-78 | every execution is a run of the protocol that leaves no round behind; a lone dispatcher takes the lowest ids and splits its batch into marked rows, at most one in doubt (still reserved, freed with one more attempt after a failed publish, or published after a mark whose reply was lost) and rows still under its token; the broker gains one message per marked row in order and at most one more; a failed claim sends nothing; on a healthy system it marks them all |
| `Working.CallsAreFirstSuccess` | worker.go:78-110 | the number of calls is the first successful attempt, or M+1 if there is none |
| `Working.PausesAddUp` | config.go:167-169 | the pauses before the k-th call add up to R·k(k-1)/2 |
| `Working.ProcessEventWithRetry` | worker.go:75-113 | for every outcome sequence the processor runs exactly to its first success or M+1 times and the pauses are R, 2R, ..; the result is persisted iff every terminal write is known to have succeeded, and only then acknowledged; run alone, the event row and the letter are what the writes' outcomes make them, success, lost reply or refusal, and the time spent is exactly the pauses |
| `Working.ClaimForProcessing` | event_store.go:261-300 | on every system the answer is the one the outcomes of update and read call for, with others running between the two; run alone, the guard is that of the row's own fields |
| `Working.HandleDelivery` | worker.go:30-62 | every execution is a run of the protocol, others running between any two statements up to the settlement; no processor call without a claim; run alone on any system, the row, the settlement and the time spent are those the outcomes of its statements call for, the requeue delay only after in-progress; on a healthy one a claimable event ends terminal, a final one is acknowledged, another requeued |
| `Scheduling.RetryItem` | dlq_retry.go:59-75 | one claimed letter is replayed or put back with exactly the computed delay; if that computation panics, the call is gone |
| `Scheduling.Retry` | dlq_retry.go:53-76 | every execution is a run of the protocol; it panics only at an attempt where the interval is not reliable; alone on a healthy system it takes the earliest due letters and, unless it panics, each is replayed with its outbox row open or due again after its delay |
| `Scheduling.ReplayDeadLetter` | event_store.go:324-384 | every execution is a run of the protocol; on every system it answers accepted iff its read found the event failed with its letter and its commit is known to have succeeded, that commit being the last step; after any other answer it has committed nothing, was refused without changing a row, or lost the reply; run alone on a healthy system the event is queued again and only its rows change |
| `Latency.StepKeepsExact` | latency-metrics.go:14-24 | every atomic operation keeps counter and sum exact modulo 2^64 and the maximum equal to that of the finished observations, and never lowers the maximum |
| `Latency.RunExact` | latency-metrics.go:14-24 | so in every state of every interleaving of any number of observers |
| `Latency.CompleteMetrics` | latency-metrics.go:14-24 | when all have finished, counter, sum and maximum are those of all observations |
| `Int64.WrapIsModular` | latency-metrics.go:8-12 | counters wrap to the 64-bit integer that differs by a multiple of 2^64 |
| `Latency.FailuresPaid` | latency-metrics.go:18-23 | each failed swap of an observer is paid for by another's successful swap since its load |
| `Latency.LoopBound` | latency-metrics.go:18-23 | among n observations none fails more than n-1 swaps |
| `Latency.ProcessingLatency.ObserveEventProcessingDuration` | latency-metrics.go:14-24 | the loop terminates under any interference with the maximum at or above the observation; alone it updates all three fields exactly |
| `Placeholders.Bind` | event_store.go:70-82 | the loop writes the k-th question mark as a dollar sign and k in decimal and every other character as it is |
| `Placeholders.NoLeadingZero` | event_store.go:75-77 | placeholder numbers are written without leading zeros |
| `Placeholders.BoundReadsAsNumbered` | event_store.go:70-82 | the rewritten query reads back as the original with its question marks numbered in order iff no question mark and no dollar sign is directly followed by a digit |
| `Placeholders.BoundInjective` | event_store.go:70-82 | on such queries the rewriting is injective |
| `Placeholders.UnclearCollision` | event_store.go:70-82 | two other queries that are rewritten to the same text |
| `Forwarding.MoveKeepsSound` | rabbitmq_queue.go:284-319 | every move keeps each delivery in exactly one place, the workers' queue in reading order and within capacity, and undecodable bodies out of it |
| `Forwarding.RunSound` | worker.go:20-28 | so in every run of one forwarder and any number of workers, with a shutdown at any moment |
| `Forwarding.ShutdownSettlesAll` | rabbitmq_queue.go:249-255 | after a drained shutdown every delivery has exactly one ack or nack: rejected iff undecodable, at most one requeued, all others settled by workers |
| `Forwarding.EventQueue.ForwardDeliveries` | rabbitmq_queue.go:284-319 | however workers and a cancellation interleave, the undecodable deliveries read are rejected and the others queued, in order, except that the last may be requeued or still wait for room |

## Left out

- HTTP handlers, request ids, bearer-token check, JSON encoding: an accepted webhook and a manual replay are input steps, payloads are opaque values.
- AMQP dialing, reconnects and closing: lost connections are environment steps that return unacknowledged deliveries.
- Clock skew between replicas and token collisions: there is one monotone clock, and every token, tag and row id is new.
- PostgreSQL isolation and locking: a transaction is one step, except replay, whose unlocked read and guarded commit are two; `FOR UPDATE SKIP LOCKED` is a claim that may skip any rows when others run.
- Error texts and audit columns (`last_error`, `created_at`, `updated_at`, `failed_at`, `last_retry_error`): nothing in the protocol reads them.
- In-memory dead-letter store, list queries and the superseded claim and reschedule pair: unused by the service, or read only.
- Counters other than the latency metric, Prometheus text, logging, commands, migrations, environment parsing: they would only add easy members.
- Bytes that are not valid UTF-8 in a query: `Placeholders` works on characters; the service's queries are constants.
- SQL quoting in the reading side of `Placeholders`: the reader knows numbered parameters only, as the rewriting knows question marks only.
- Intervals that are not positive int64 nanoseconds: the configuration check admits positive seconds only; the conversion of so many seconds that their nanoseconds overflow is not modelled.
- What else a panic of the scheduler takes down: the model ends the panicking call, and other calls of the process may crash or go on.
- Forwarding.EventQueue.ForwardDeliveries: a send that waits for room ends the call as waiting, because nothing in the code bounds the wait.
- Recovery.Recover: assumes a positive batch size, which the configuration check enforces.

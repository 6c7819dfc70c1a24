# Verified model of the notification service

A Dafny model of an event-driven notification service: a Postgres row, a Redis sorted set, a processing
set, API creates and cancels, a scheduler, a retry poller and any number of workers all act on the same
notification. The model follows the code branch by branch and proves what it promises over whole runs.
`dafny verify dfyconfig.toml` checks everything.

## How the parts fit together

- `Domain.dfy`, `Sequences.dfy`: statuses, rows, notifications, and the SQL predicates and updates on a row.
- `Breaker.dfy`, `Limiter.dfy`, `Queue.dfy`, `Hub.dfy`: the mutable components, each a class kept equal to a
  function of its ghost history of calls. The promises are theorems about that function.
- `Backoff.dfy`: the retry delay in int64 arithmetic.
- `Lifecycle.dfy`: one notification and everybody who acts on it, with every repository, queue, breaker,
  limiter or provider call as one step. `Ownership.dfy`, `NoLoss.dfy`, `Limits.dfy`, `Races.dfy`, `FinestGrain.dfy`,
  `Retries.dfy` and `WholeCalls.dfy` prove the protocol's guarantees at three step sizes:
  - *finest*: every call is a step, and any call may fail and any actor may crash;
  - *atomic requeue*: the same, with the Enqueue and the Update of the rate-limited branch
    (`internal/service/delivery.go:120-130`) as one step;
  - *whole calls*: `Process`, and lines 110-127 of `Create`, are each one step. This grain is proved to be the
    finest one with nobody in between (`WholeCalls.ProcessIsItsCalls`, `CoarseRuns.BigRunIsFineRun`).
- `Timeliness.dfy`: nobody acts on a notification before its scheduled time or its next retry.
- `System.dfy`: all notifications at once, with statements that touch many rows.
- `Delivery.dfy`: `Process`, `handleRetry` and the worker round as methods over the verified breakers, limiter
  and queue. Their effect on the tables is proved to be the protocol's step, and their ledger to balance.
- `Creation.dfy`, `Idempotency.dfy`, `Scheduler.dfy`: the repository's statements, the API service, the race
  between creates that share a key, and the two pollers. `ProtocolSteps.dfy` and `PollingOrder` prove that what they
  do to the tables is, for each notification, a run of the protocol.

The invariant behind the protocol is written down nowhere in the code: at any moment at most one party owns a
notification. The owner is the creator between insert and enqueue, the sorted-set member, a worker, a poller
after its claim, or the row itself while it is scheduled or failed. `AtMostOnce.OneToken` proves it for the
finest grain, `Ownership.SingleOwner` the stronger form for the atomic requeue.

## What does not hold

Each of these is proved: the input that shows it, and exactly when the property does hold.

- The documentation says that no data is lost while a circuit is open. At the finest grain no pair of retry limits
  is enough: the Update of `internal/service/delivery.go:129` writes a stale copy after another worker has written a
  failure, and the notification is lost unsent (`Races.StaleUpdateLosesRow`). With limits that agree, nothing is ever
  lost in a fault-free run exactly when each of those Updates lands while the notification is in the sorted set or in
  a hand (`FinestGrain.NothingIsLostIffLandsOwned`), and then fault-free calls can always finish it
  (`FinestGrain.EveryNotificationRecovers`). With the atomic requeue there are none, and nothing is lost in any
  fault-free run exactly when the service's limit does not exceed the row's `max_retries`, or is at most 1
  (`RetryLimits.NothingIsLostIffLimitsAgree`).
- The same late Update can lower retry_count, and let an attempt number repeat although nothing is lost
  (`BudgetRaces.AttemptNumberRepeats`). In every run, faults and crashes included, retry_count never falls exactly when
  each such Update that succeeds finds the row with the retries of its copy (`RetryCounts.RetryCountNeverFallsIff`),
  which a guard in its WHERE clause could check; then the retry budget holds too (`Budget.RetryBudgetWhenMatched`).
- The documentation says that final states are immutable. The same late Update turns a delivered row back to queued
  (`Races.DeliveredOverwritten`). A row that is delivered, or failed at its limit, is final exactly when no worker
  still holds that Update, faults and crashes allowed (`Absorbing.SettledForEverIff`).
- A cancel is overwritten, and the notification sent, when it lands between `GetByID` and the Update to processing
  (`Races.CancelOverwritten`), or between the INSERT and the UpdateStatus of `Create` (`Races.CreateOverwritesCancel`).
  At the finest grain a cancelled row stays cancelled exactly when every actor about is one that only enqueues, has
  yet to read the row, or is through (`Cancels.CancelHoldsIff`); with the atomic requeue the two windows named are the
  only ones in which a cancel can land and not hold (`Cancels.CancelWindows`). With whole calls there are none
  (`CoarseRuns.CancelledForEver`).
- The documentation says that a channel recovers automatically. The breaker does if every admitted call is recorded;
  `Process` records nothing when the limiter turns a call away. The exact number of such calls a configuration
  survives is `BreakerLiveness.LiveIffSpareSlots`, and `BreakerLiveness.LiveIffEpisodeSpares` for one half-open
  episode; with the service's 3 slots and 3 successes it is none (`BreakerLiveness.OneDenialIsTooMany`).
- At most one dead-letter entry is written in every run, faults and crashes included, exactly when the service's limit
  is not below the row's, or is at most 1 (`Graves.DeadLetteredOnceIff`).
- The delay is min(base * 2^(r-1), cap) for every reachable retry exactly when base * 2^(limit-2) fits an int64
  (`Backoff.DelayIsIdealIffFits`).
- A create whose key another create inserts between its look-up and its insert is refused; it is not given the
  winner's id (`Idempotency.RefusedIffOvertaken`). A batch does not look keys up at all, so one used key fails the
  whole batch (`NotificationApi.OneUsedKeyFailsTheBatch`).
- The documentation orders a queue by creation time within a priority; the code reads the clock when it enqueues, so a
  re-enqueued message waits behind newer ones (`QueueCreation.ReenqueuedBehindNewer`). Messages of one priority are
  popped in creation order exactly when their last enqueues are in that order (`QueueCreation.CreationOrderIff`),
  as when each is enqueued once, at creation (`QueueCreation.CreationOrderWithoutReenqueues`).

## Model

| member | source | states |
|---|---|---|
| `Breaker.CircuitBreaker.constructor` | pkg/circuitbreaker/breaker.go:42-50 | a new breaker is closed with all counters zero and keeps its four settings |
| `Breaker.CircuitBreaker.Allow` | pkg/circuitbreaker/breaker.go:52-75 | closed: admitted, nothing changes; open: admitted exactly when more than resetTimeout has passed since the last failure, and then half-open with one slot used; half-open: admitted exactly while a slot is free, which it takes; a refusal changes nothing; the state stays the fold of the whole call history |
| `Breaker.CircuitBreaker.RecordSuccess` | pkg/circuitbreaker/breaker.go:77-92 | closed: the failure count is cleared; half-open: closes at successThreshold successes; open: nothing changes; the state stays the fold of the history extended by one success |
| `Breaker.CircuitBreaker.RecordFailure` | pkg/circuitbreaker/breaker.go:94-110 | the time is kept; closed: opens at failureThreshold failures; half-open: opens at once; open: nothing else changes; the state stays the fold of the history extended by one failure |
| `BreakerHistory.CountersAgreeWithHistory` | pkg/circuitbreaker/breaker.go:77-110 | after any calls: closed means the failure count is the trailing run of failures and below the threshold; otherwise it equals the threshold; lastFailure is the latest failure recorded in any state |
| `BreakerHistory.ClosedIff` | pkg/circuitbreaker/breaker.go:52-110 | over every history the breaker is closed throughout if and only if no failureThreshold failures ever come in a row with no success between them |
| `BreakerHistory.AdmitsUntilTripped` | pkg/circuitbreaker/breaker.go:52-58 | until then every Allow of the history is admitted: admissions equal the Allow calls |
| `BreakerHistory.ProbeWaitsForEveryFailure` | pkg/circuitbreaker/breaker.go:59-66 | an open breaker lets a probe through only after resetTimeout has passed since every failure ever recorded, late ones included |
| `BreakerRate.SlotsBounded` | pkg/circuitbreaker/breaker.go:59-73 | half-open means between 1 and halfOpenMax slots are used |
| `BreakerRate.Episodes` | pkg/circuitbreaker/breaker.go:52-110 | while never closed, admissions fit into k half-open periods of halfOpenMax each, and k periods take at least (k-1) reset timeouts |
| `BreakerRate.AdmissionRate` | pkg/circuitbreaker/breaker.go:52-110 | in any interval of length T in which the breaker is never closed, at most halfOpenMax * (T / resetTimeout + 1) calls are admitted, whatever late outcomes arrive |
| `BreakerLiveness.SlotsAccountedFor` | pkg/circuitbreaker/breaker.go:67-91 | half-open: successes so far plus admitted calls not yet recorded cover every used slot |
| `BreakerLiveness.LiveIffSpareSlots` | pkg/circuitbreaker/breaker.go:59-91 | in every run, however many of up to `lost` admitted calls never report, the breaker admits again or waits for another call, if and only if it has more than `lost` spare slots |
| `BreakerLiveness.StuckWithoutSpareSlots` | pkg/circuitbreaker/breaker.go:59-91 | otherwise a run exists that leaves it refusing with at most `lost` calls unreported |
| `BreakerLiveness.EpisodeSlots` | pkg/circuitbreaker/breaker.go:59-91 | half-open: used slots less successes, a lower bound on the episode's unreported calls, is what the history's admissions and records of this episode leave |
| `BreakerLiveness.LiveIffEpisodeSpares` | pkg/circuitbreaker/breaker.go:59-91 | the same iff counting only the current half-open episode, by its used slots less its successes, in every run; a late record of an earlier call counts as one of its own |
| `BreakerLiveness.LiveIffEnoughSlots` | pkg/circuitbreaker/breaker.go:67-91 | with every call recorded, no run wedges it if and only if halfOpenMax >= successThreshold or the threshold is at most 1 |
| `BreakerLiveness.OneDenialIsTooMany` | internal/service/delivery.go:58-62 | with 3 slots and 3 successes, one admitted call that is never recorded can leave the breaker refusing every later call |
| `BreakerLiveness.RefusesUntilRecord` | pkg/circuitbreaker/breaker.go:67-72 | a breaker out of slots changes under no number of further Allow calls |
| `BreakerLiveness.LimiterExitsWedge` | internal/service/delivery.go:107-131 | for every configuration, as many unrecorded calls as there are slots, and no other call unreported, leave it refusing every later call until a record |
| `Limiter.Limiter.constructor` | pkg/ratelimit/limiter.go:38-44 | the window is 1000 ms and every channel starts with an empty history |
| `Limiter.Limiter.Allow` | pkg/ratelimit/limiter.go:47-58 | accepted exactly when fewer than the limit of the channel's members are left of the last 1000 ms; the set is then those members, with this call if accepted; other channels are untouched; the window is the fold of its history |
| `Limiter.Limiter.DropExpired` | pkg/ratelimit/limiter.go:26 | an expired key disappears at any moment from its deadline on, as one more event of the history |
| `LimiterRefinement.StoreIsRecentHistory` | pkg/ratelimit/limiter.go:20-27 | the stored set is the full accept log cut off at some time no later than one window ago, through every trim and expiry |
| `LimiterRefinement.DecisionMatchesHistory` | pkg/ratelimit/limiter.go:20-29 | a request is accepted if and only if fewer than `limit` accepts of the whole history lie in the window ending now |
| `LimiterRate.LogIsSpaced` | pkg/ratelimit/limiter.go:20-29 | any two accepts that are `limit` apart in the log are at least a window apart in time |
| `LimiterRate.AcceptRate` | pkg/ratelimit/limiter.go:20-29 | no span of m windows holds more than limit * m accepted calls |
| `LimiterRate.AcceptRateCeil` | pkg/ratelimit/limiter.go:20-29 | no span of length L holds more than limit * ceil(L / window) accepted calls |
| `LimiterRate.PerSecond` | pkg/ratelimit/limiter.go:38-58 | for the limiter object: no second holds more than limitPerSec accepted calls of a channel |
| `Queue.ScoreIsLexicographic` | internal/adapter/queue/publisher.go:56-61 | below 1e13 ms, scores compare as (priority, time) pairs do, both for less and for equal |
| `Queue.OrderRefines` | internal/adapter/queue/publisher.go:56-61 | sorted-set order of two members is priority, then enqueue time, then text |
| `Queue.FirstExists` | internal/adapter/queue/consumer.go:18-19 | a non-empty set of one channel has a first member |
| `Queue.FirstPrecedes` | internal/adapter/queue/consumer.go:17-25 | the member popped precedes every other waiting message |
| `Queue.RedisQueue.Enqueue` | internal/adapter/queue/publisher.go:23-36 | the message is in its own channel's queue with score priority * 1e13 + ms; scores stay the encoding of arrival times; other channels keep theirs |
| `Queue.RedisQueue.EnqueueBatch` | internal/adapter/queue/publisher.go:38-54 | the pipeline is one enqueue after another, each with its own clock reading, of those messages that reach Redis |
| `Queue.PipelinedMembers` | internal/adapter/queue/publisher.go:38-54 | after a batch a queue holds exactly what it held before and the batch's messages for its channel that reached Redis |
| `Queue.PipelinedScore` | internal/adapter/queue/publisher.go:38-61 | each message of a pipeline that reaches Redis has the score of its own priority and clock reading |
| `Queue.RedisQueue.Dequeue` | internal/adapter/queue/consumer.go:35-53 | none if and only if the queue is empty; otherwise the first message leaves the queue and joins the processing set in one step |
| `Queue.RedisQueue.Acknowledge` | internal/adapter/queue/consumer.go:55-71 | exactly one entry of this notification leaves the processing set if there is one, otherwise nothing changes |
| `QueueOrder.ScoreOverflows` | internal/adapter/queue/publisher.go:59-61 | from 1e13 ms on, a message can tie with one of the next priority |
| `QueueOrder.DrainExists` | internal/adapter/queue/consumer.go:17-25 | popping empties every queue |
| `QueueOrder.DrainIsSortedPermutation` | internal/adapter/queue/consumer.go:17-25 | draining yields each waiting message once, sorted by priority and enqueue time |
| `QueueFairness.PopMovesUp` | internal/adapter/queue/consumer.go:17-25 | a pop of another message lowers a waiting message's rank by exactly one |
| `QueueFairness.LaterPutDoesNotPass` | internal/adapter/queue/publisher.go:56-61 | an enqueue raises the rank only if it has higher priority, or the same priority and no later time |
| `QueueFairness.BoundedWaiting` | internal/adapter/queue/consumer.go:17-25 | over any history, pops plus remaining rank never exceed the starting rank plus the overtaking enqueues |
| `QueueCreation.CreationOrderIff` | internal/adapter/queue/publisher.go:56-61 | messages of one priority are popped in creation order if and only if their last enqueues are in that order |
| `QueueCreation.CreationOrderWithoutReenqueues` | internal/adapter/queue/publisher.go:56-61 | any history of messages enqueued only at their creation drains in creation order within each priority |
| `QueueCreation.ReenqueuedBehindNewer` | internal/service/delivery.go:119-131 | for any two messages of one priority, a history in which the older is enqueued again and the newer is popped first |
| `Hub.EventHub.constructor` | internal/adapter/event/hub.go:41-51 | a new hub has no clients |
| `Hub.EventHub.Close` | internal/adapter/event/hub.go:62-67 | closes a channel that is open, which every caller proves |
| `Hub.EventHub.TrySend` | internal/adapter/event/hub.go:83-88 | sends on an open channel exactly when fewer than 256 are buffered |
| `Hub.EventHub.Register` | internal/adapter/event/hub.go:147-158 | a new client joins with an empty buffer; every other client's life is as before |
| `Hub.EventHub.Unregister` | internal/adapter/event/hub.go:62-69 | a registered client is removed and closed once; one already removed is left alone |
| `Hub.EventHub.Offer` | internal/adapter/event/hub.go:78-89 | one client's branch of a broadcast: filtered, buffered, or removed because its buffer is full |
| `Hub.EventHub.Deliver` | internal/adapter/event/hub.go:71-91 | the loop over clients, in any order, is one broadcast in every client's life |
| `Hub.EventHub.Take` | internal/adapter/event/hub.go:183-191 | the pump receives the oldest buffered event, also from a closed channel |
| `HubStream.NeverOverfull` | internal/adapter/event/hub.go:147-153 | never more than 256 events are buffered for a client |
| `HubStream.MatchingGrows` | internal/adapter/event/hub.go:78-84 | the stream of a batch, the broadcasts themselves for an empty one and those of that batch otherwise, grows by exactly the broadcasts without a filter or with an equal batch |
| `HubStream.GivenExactlyItsStream` | internal/adapter/event/hub.go:53-93 | over all event sequences a client without a batch was given every broadcast, and a client with one exactly the broadcasts of that batch, in order and without gaps, from joining to the one removal, which was its leaving or a matching broadcast on 256 buffered events |
| `Backoff.NextDelay` | internal/service/delivery.go:227-233 | the in-place computation is the wrapped, capped, jittered and truncated delay; without overflow it is min(base * 2^(r-1), cap) times the factor, cut to a whole nanosecond |
| `Backoff.WrapsNegative` | internal/service/delivery.go:228-231 | the first retry whose product exceeds int64 gets a negative delay |
| `Backoff.DelayIsIdealIffFits` | internal/service/delivery.go:227-231 | every reachable retry waits min(base * 2^(r-1), cap) if and only if base * 2^(limit-2) fits an int64 |
| `Backoff.DelaysDouble` | internal/service/delivery.go:227-231 | the documented delay starts at the base delay and doubles with each retry, up to the cap |
| `Backoff.DelaysGrow` | internal/service/delivery.go:227-231 | delays grow with the retry count and stay below the cap |
| `Backoff.JitterRange` | internal/service/delivery.go:232-233 | the jittered delay is within 20% of the delay, so up to 1.2 times the cap |
| `Backoff.JitterRangesDisjoint` | internal/service/delivery.go:227-233 | below the cap, the longest wait before a retry is shorter than the shortest before the next |
| `Backoff.TotalWaitBound` | internal/service/delivery.go:227-234 | all waits together are at most 1.2 * base * (2^n - 1), and at most 1.2 * cap each |
| `Lifecycle.AtomicRequeueIsTwoCalls` | internal/service/delivery.go:119-131 | the atomic requeue is the two calls of the code back to back |
| `Lifecycle.FaultsChangeNothing` | internal/service/delivery.go:81-246 | a failing call of any actor leaves the shared state as it is, and a crash is possible at any moment |
| `Timeliness.ClaimsWaitTheirTurn` | internal/adapter/repository/postgres/notification.go:260-306 | in every run, faults and crashes included, a scheduler poll takes only a scheduled row with scheduled_at <= now, and a retry poll only a failed row with retries left and next_retry_at <= now |
| `Timeliness.ScheduledWaits` | internal/service/scheduler.go:50-76 | a notification scheduled for T is in somebody's hands if and only if a poll at T or later took it; until then there is no message, no send and no attempt, and only a cancel changes its row |
| `Timeliness.RetryWaits` | internal/service/scheduler.go:117-143 | after any run that left the row failed, until a poll at its next retry or later takes it or a late Update overwrites it, row, queue, sends, failures and attempts stay as they are and nobody holds it |
| `AtMostOnce.MoveKeepsTokens` | internal/service/delivery.go:81-246 | no call of any actor creates an ownership token |
| `AtMostOnce.OneToken` | internal/service/delivery.go:81-191 | in every run with faults and crashes, tokens plus successful sends never exceed one |
| `AtMostOnce.SentAtMostOnce` | internal/service/delivery.go:133-171 | the provider reports success at most once, nobody is about to send after it did, and no two actors are about to send |
| `AtMostOnce.OnlyOwnersPark` | internal/service/delivery.go:193-246 | a row becomes scheduled or failed only by its insertion or by a write of the token's holder |
| `Ownership.Simulate` | internal/service/delivery.go:81-246 | every step of the many-actor system is a step of a system with a single owner |
| `Ownership.SingleOwner` | internal/service/delivery.go:81-246 | with the atomic requeue, every run, crashes included, has at most one owner at its end |
| `Absorbing.RunIsWitnessed` | internal/service/delivery.go:163-181 | every delivered row, and every worker about to write one, stands for a successful send, in every run with faults and crashes |
| `Absorbing.SettledIsQuiet` | internal/service/delivery.go:81-191 | once a row is delivered or failed at its limit, no message is queued and every actor is through or holds the late Update of line 129 |
| `Absorbing.SettledForEverIff` | internal/domain/notification.go:67-69 | after any run, faults and crashes included, such a row is never written again if and only if nobody holds that Update |
| `Absorbing.SettledForEver` | internal/domain/notification.go:67-69 | with the atomic requeue until then, such a row is never written again by anybody |
| `Books.TurnKeepsBalance` | internal/service/delivery.go:193-246 | every fault-free turn keeps copies, counters, dead letters and due times consistent with the row |
| `Books.RunIsBalanced` | internal/service/delivery.go:81-246 | every fault-free run with the atomic requeue ends in such a consistent state |
| `RetryLimits.NothingIsLost` | internal/service/delivery.go:193-246 | in fault-free runs with the atomic requeue and limits that agree, a notification is delivered, cancelled, dead-lettered, or has exactly one owner; a row parked for a poller will satisfy its guard |
| `RetryLimits.StrandedWhenLimitsDisagree` | internal/adapter/repository/postgres/notification.go:283-306 | otherwise a fault-free run with the atomic requeue leaves a failed row no poller ever selects |
| `RetryLimits.NothingIsLostIffLimitsAgree` | internal/service/delivery.go:193-246 | with the atomic requeue, nothing is lost in any fault-free run if and only if the limits agree |
| `Graves.RunHasOneGrave` | internal/adapter/repository/postgres/notification.go:283-306 | with such limits, in every run, dead letters, a row a poller may still take, the queued message and everybody who may yet bury it add up to at most one |
| `Graves.DeadLetteredOnceIff` | internal/adapter/repository/postgres/notification.go:283-306 | at the finest grain, at most one dead-letter entry per notification in every run, faults and crashes included, if and only if the service's limit is not below the row's, or is at most 1; the same for fault-free runs with the atomic requeue |
| `RetryCounts.AtMostOneHolder` | internal/service/delivery.go:81-191 | at the finest grain, faults and crashes included, the sorted set, a resting row and all hands hold the notification at most once |
| `RetryCounts.RetryCountNeverFallsIff` | internal/service/delivery.go:119-131 | in every run, no step lowers retry_count if and only if every successful Update of line 129 finds the row with the retries of its copy |
| `RetryCounts.RetryCountNeverFalls` | internal/service/delivery.go:193-198 | with the atomic requeue no step of any run lowers retry_count, whatever the limits and the faults |
| `Budget.RetryBudgetWhenMatched` | internal/service/delivery.go:133-246 | with equal limits, in every run in which retry_count never falls, faults and crashes included: it counts failures and refusals up to the one in hand or lost, attempt numbers strictly increase within 1..max_retries, failures, refusals and successes together stop at the limit, and there is at most one dead letter |
| `Budget.RetryBudget` | internal/service/delivery.go:133-246 | the same in every run with the atomic requeue, faults and crashes included |
| `BudgetRaces.AttemptNumberRepeats` | internal/service/delivery.go:119-131 | a fault-free finest-grain run that loses nothing and whose two attempts are both numbered 1 |
| `Races.StaleUpdateLosesRow` | internal/service/delivery.go:119-131 | for every pair of limits, a fault-free run at the finest grain whose last step loses an unsent notification and lowers its retry_count |
| `Races.DeliveredOverwritten` | internal/service/delivery.go:119-131 | a fault-free run at the finest grain whose last step turns a delivered row to queued |
| `Races.CancelOverwritten` | internal/service/delivery.go:87-101 | a fault-free run in which a cancel lands after a worker read the row, and the notification is sent |
| `Races.CreateOverwritesCancel` | internal/service/notification.go:110-127 | a fault-free run in which a cancel lands between INSERT and UpdateStatus, and the notification is sent |
| `Cancels.CancelHoldsIff` | internal/adapter/repository/postgres/notification.go:144-161 | at the finest grain, from any cancelled row: every fault-free continuation keeps it if and only if each actor is enqueuing, yet to read it, burying or done; then every continuation keeps it and sends nothing more |
| `Cancels.CancelWindows` | internal/service/notification.go:110-117 | with the atomic requeue, faults and crashes included: while a row can be cancelled, only a creator before UpdateStatus or a worker that has read it can overwrite the cancel |
| `FinestGrain.HousedRun` | internal/service/delivery.go:81-246 | at the finest grain, fault-free: if every late Update lands while the notification is queued or in a hand, each row is queued, in one hand, or rests accounted for |
| `FinestGrain.NothingIsLostIffLandsOwned` | internal/service/delivery.go:119-131 | with limits that agree, every prefix of a fault-free finest-grain run is accounted for if and only if every Update of line 129 lands while the notification is queued or in a hand |
| `FinestGrain.EveryNotificationRecovers` | internal/service/delivery.go:193-246 | from wherever such a run with agreeing limits leaves an unfinished notification, a fault-free continuation delivers it, or dead-letters it if somebody holds its last failure |
| `WholeCalls.ProcessIsItsCalls` | internal/service/delivery.go:81-246 | the calls of an uninterrupted Process add up to one settlement, for each of its outcomes |
| `WholeCalls.BlockRuns` | internal/service/delivery.go:81-246 | those calls are a run of the finest grain |
| `CoarseRuns.CreateIsItsCalls` | internal/service/notification.go:110-127 | insert, status update and enqueue of Create add up to its one step |
| `CoarseRuns.BigRunIsFineRun` | internal/service/delivery.go:81-191 | every run of whole calls is a fault-free run of the finest grain |
| `CoarseRuns.CancelledForEver` | internal/adapter/repository/postgres/notification.go:144-161 | with whole calls, a cancelled row never changes and its notification is never attempted or sent |
| `CoarseRuns.RowChangesLowerMeasure` | internal/service/delivery.go:97-246 | with whole calls, each step lowers a measure of retries left and phase by the writes it makes, counted as changes or as statements; a denial leaves row and measure as they are |
| `CoarseRuns.RowWritesBounded` | internal/service/scheduler.go:117-143 | with equal limits and d denials, a row changes at most 2 * max_retries + d times after insertion, by at most 3 * max_retries + 2 * d UPDATE statements |
| `System.ViewIsARun` | internal/adapter/repository/postgres/notification.go:260-306 | each notification's share of any history of multi-row statements is a run of its own |
| `System.ProviderSuccessesBounded` | internal/service/delivery.go:133-171 | over all notifications, faults included, the provider reports at most one success for each |
| `System.NoneIsLost` | internal/service/delivery.go:193-246 | with agreeing limits no notification of a fault-free history is lost if its late Updates land while it is queued or in a hand |
| `System.NoneIsLostWhenAtomic` | internal/service/delivery.go:193-246 | with the atomic requeue and agreeing limits no notification of any fault-free history is lost |
| `Delivery.AppliedIsSettle` | internal/service/delivery.go:81-246 | on the tables, one Process is the protocol's settlement of its notification and nothing for any other |
| `Delivery.AppliedIsLeft` | internal/service/delivery.go:104-246 | the settlement on the tables in terms of the answer: status, retry count, next retry, attempt, dead letter, and the re-enqueued message with its score |
| `Delivery.PoppedIsLinked` | internal/adapter/queue/consumer.go:17-25 | a pop takes the message off its own notification's books only |
| `Delivery.DeliveryService.constructor` | internal/service/delivery.go:46-79 | three distinct fresh breakers, each configured with 5 failures, 3 successes, 3 slots and 30 s and with an empty history; empty tables of attempts and dead letters, no events, all metrics zero |
| `Delivery.DeliveryService.Update` | internal/adapter/repository/postgres/notification.go:121-134 | overwrites status, retry count and next retry of one row and no other column or row |
| `Delivery.DeliveryService.HandleRetry` | internal/service/delivery.go:193-246 | the row fails with one more retry; a dead-letter entry at the limit; below it a next retry that lies the jittered delay after the clock reading; one failed event |
| `Delivery.DeliveryService.Send` | internal/service/delivery.go:133-171 | one send, one attempt row, one breaker record and one processed metric; delivered or failed rises, as the provider answered |
| `Delivery.DeliveryService.Attempted` | internal/service/delivery.go:133-190 | from the provider call on, tables, breaker history, events and error are those of its answer |
| `Delivery.DeliveryService.Deliver` | internal/service/delivery.go:113-190 | over the rate exactly when the last second holds limitPerSec calls of the channel, and then a re-enqueue, marked as queued, with nothing recorded; otherwise the provider decides; the other channels' windows stay |
| `Delivery.DeliveryService.Try` | internal/service/delivery.go:97-190 | from the processing mark on, tables, breaker history, events and answer are those of the breaker, the channel's window and the provider, asked in that order |
| `Delivery.DeliveryService.Process` | internal/service/delivery.go:81-191 | missing and final rows change nothing. Otherwise the breaker and the window of the notification's own channel are asked, and the other two channels' breakers, histories and windows stay: CircuitOpen exactly when its own breaker refuses, OverRate exactly when admitted with a full window, else as the provider answers; rows, attempts, dead letters, message, events and each metric follow from that answer; on the books it is the protocol's settlement; sends, attempt rows, breaker records, delivered plus failed, and processed stay equal |
| `Delivery.DeliveryService.Take` | cmd/worker/main.go:154-164 | nothing exactly when the queue is empty; otherwise the first message of the channel moves to the processing set, and the books follow |
| `Delivery.DeliveryService.WorkerRound` | cmd/worker/main.go:153-177 | nothing if the queue is empty; otherwise the first message is popped and processed, and one entry of its notification leaves the processing set |
| `Delivery.DeliveryService.RunWorker` | cmd/worker/main.go:149-178 | one such round for every tick up to the first stop, none when the dequeue fails; after any number of rounds the ledger balances and the books match the tables, and the other channels' breakers and windows are as before |
| `Delivery.DeliveryService.ChannelsAreIsolated` | internal/service/delivery.go:58-62 | over any number of rounds of a channel's worker, whatever it meets, the breakers, histories and rate windows of the other channels never change, as long as messages wait in their own channels' queues, which the rounds keep so |
| `Creation.InsertAllHolds` | internal/adapter/repository/postgres/notification.go:42-75 | a batch that went in holds each draft and every earlier row, and nothing else |
| `Creation.InsertableIff` | internal/adapter/repository/postgres/migrations/000001_create_notifications.up.sql:3-6 | a batch goes in if and only if no draft violates a key of the table or of another draft |
| `Creation.InsertAllKeepsUnique` | internal/adapter/repository/postgres/migrations/000001_create_notifications.up.sql:6 | idempotency keys stay unique |
| `Creation.NotificationRepo.Create` | internal/adapter/repository/postgres/notification.go:25-40 | inserts exactly when the id is new, no row has the key, and the storage works; a failed insert changes nothing |
| `Creation.NotificationRepo.CreateBatch` | internal/adapter/repository/postgres/notification.go:42-75 | all drafts go in or none does |
| `Creation.NotificationRepo.GetByIdempotencyKey` | internal/adapter/repository/postgres/notification.go:308-330 | finds a row with the key if and only if there is one |
| `Creation.NotificationRepo.UpdateStatus` | internal/adapter/repository/postgres/notification.go:136-142 | writes the status of one row whatever it was |
| `Creation.NotificationRepo.CancelByID` | internal/adapter/repository/postgres/notification.go:144-161 | cancels exactly a pending, scheduled or queued row; otherwise says whether the row is missing or past cancelling |
| `Creation.NotificationRepo.CancelByBatchID` | internal/adapter/repository/postgres/notification.go:163-171 | cancels the cancellable rows of the batch, touches no other row, and counts the rows it changed |
| `Creation.NotificationRepo.Claim` | internal/adapter/repository/postgres/notification.go:260-306 | takes unlocked rows only: scheduled with scheduled_at <= now, or failed with retries left and next_retry_at <= now; all of them if fewer than the limit, else the longest due; marks exactly those as queued and changes no other column |
| `Creation.ValidRequests` | internal/service/notification.go:239-258 | each channel with its content limit, and each reason for a refusal, if and only if |
| `NotificationApi.PositionsAreTheValidOnes` | internal/service/notification.go:153-165 | the accepted positions are the valid requests, in increasing order |
| `NotificationApi.DraftsFollowPositions` | internal/service/notification.go:167-193 | drafts and accepted ids follow the valid requests in input order |
| `NotificationApi.ErrorsAreTheInvalidOnes` | internal/service/notification.go:154-165 | error indices strictly increase and are exactly the invalid requests, each with its own reason |
| `NotificationApi.MessagesAreTheUnscheduled` | internal/service/notification.go:178-188 | there is a message for exactly the drafts that are not scheduled |
| `NotificationApi.BatchPartition` | internal/service/notification.go:139-208 | every request is accepted or rejected, never both, and the counts add up |
| `NotificationApi.BatchIsSent` | internal/service/notification.go:178-208 | after a successful batch every accepted request has its own row with its key, channel, priority and batch, and is scheduled with no message in any queue or queued with exactly one, or with none if that did not reach Redis |
| `NotificationApi.OneUsedKeyFailsTheBatch` | internal/service/notification.go:195-198 | one valid request with a used or repeated key fails the insert of all |
| `NotificationApi.NotificationService.Create` | internal/service/notification.go:50-137 | every exit in the code's order: invalid channel, template error, invalid content, failed look-up, known key, past schedule, storage error, created; what each changes and leaves alone; a new row carries the request's key, channel, priority and time, no batch, 0 of 3 retries |
| `NotificationApi.SecondCreateReturnsFirst` | internal/service/notification.go:79-87 | after a create with a key returned Ok, and whatever happened since if rows kept their keys, a valid create with the same key whose look-up works returns the same id and changes no row, queue or event |
| `NotificationApi.NotificationService.Put` | internal/service/notification.go:90-136 | the exits from the schedule check on, and the row, message and event of a created notification |
| `NotificationApi.NotificationService.Launch` | internal/service/notification.go:114-127 | the status update and the enqueue of a new pending row, each of which may fail on its own |
| `NotificationApi.NotificationService.CreateBatch` | internal/service/notification.go:139-208 | fails exactly when too large or not insertable, leaving no row and no message; otherwise the result, the rows and the queues are those of the partition, with whichever messages reached Redis |
| `NotificationApi.NotificationService.Submit` | internal/service/notification.go:195-205 | all rows go in or none; then the messages that reach Redis are queued |
| `NotificationApi.NotificationService.Cancel` | internal/service/notification.go:218-229 | cancels and publishes, or changes nothing and says why |
| `NotificationApi.NotificationService.CancelBatch` | internal/service/notification.go:231-233 | cancels the batch's cancellable rows and returns how many changed |
| `ProtocolSteps.CreateIsItsCalls` | internal/service/notification.go:110-127 | row and message after a create, failed status update or enqueue included, are those of the protocol's calls, and no other notification changes |
| `ProtocolSteps.CancelIsItsStep` | internal/adapter/repository/postgres/notification.go:144-171 | a cancelled row is that of the protocol's cancel |
| `ProtocolSteps.BatchIsItsCalls` | internal/service/notification.go:195-204 | row and message of each accepted batch request are those of the protocol's insert and enqueue, which fails if the message does not reach Redis |
| `ProtocolSteps.CreateKeepsHomed` | internal/service/notification.go:120-127 | a create with a new id leaves every message in the queue of its notification's channel |
| `ProtocolSteps.BatchKeepsHomed` | internal/service/notification.go:195-205 | so does a batch |
| `Idempotency.StepIsSound` | internal/service/notification.go:79-127 | every interleaved step keeps keys unique and owners and enqueues consistent with the rows |
| `Idempotency.IdempotentCreates` | internal/service/notification.go:79-127 | over every interleaving: one row per key, every returned create of the key names that row, at most one of them enqueues it, refused ones enqueue nothing |
| `Idempotency.RefusedIffOvertaken` | internal/service/notification.go:79-112 | a create that found no row is refused at its insert if and only if another action took its key in between |
| `Idempotency.RacingCreateIsRefused` | internal/service/notification.go:79-112 | two creates that look up before either inserts: the second is refused |
| `CreateCalls.CreateIsItsSteps` | internal/service/notification.go:79-127 | the service's own create, on a free key and a new id, is one call of that protocol run alone: the same row, answer and enqueue, failed calls included |
| `CreateCalls.CreateFindsKey` | internal/service/notification.go:79-87 | on a taken key its look-up returns a row with the key, and that is all |
| `Scheduler.PollingService.Poll` | internal/service/scheduler.go:50-76 | takes at most a hundred unlocked rows, only those scheduled with scheduled_at <= now, or failed with retries left and next_retry_at <= now, and all of them if fewer; marks exactly those as queued; each one's message that reaches Redis is in its channel's queue with its priority and clock reading |
| `PollingOrder.PollIsClaimThenEnqueue` | internal/service/scheduler.go:117-143 | for each row a poll is the protocol's claim and enqueue if picked, the enqueue failing if its message does not reach Redis, and nothing otherwise |
| `PollingOrder.PollKeepsHomed` | internal/service/scheduler.go:61-73 | a poll leaves every message in the queue of its notification's channel |
| `PollingOrder.BacklogShrinks` | internal/adapter/repository/postgres/notification.go:283-306 | a poll that leaves a due row behind takes a full hundred of the rows due by its own time |
| `PollingOrder.PickedInTurn` | internal/adapter/repository/postgres/notification.go:283-306 | a due row is picked within one poll for every started hundred of rows due by its own time |

## Left out

- HTTP handlers, validation tags, middleware, websocket pumps, tracing, logging, health, configuration, template CRUD and rendering, List and pagination: plumbing without protocol state.
- JSON, uuid generation, pgx and go-redis: a queue message is its fields, uuids and clock readings are inputs, each SQL statement and Lua script is one atomic step.
- Ids are naturals in the order of their text, so messages with one score are ordered by id, then priority.
- Columns that no decision reads (sent_at, provider_msg_id, error_message, metadata, updated_at), request columns copied through (recipient, subject, template fields), and SMALLINT and VARCHAR widths.
- Float rounding: scores are integers, exact below 2^53; the jitter factor is a real in [0.8, 1.2). Conversion of an oversized float to int64 follows amd64.
- Template look-up and rendering themselves: the outcome, an error or the content, is an input of Create.
- Clocks that run backwards, for the limiter's and the breaker's bounds.
- Recovery from the processing set: nothing in the repository reads it back.
- Publish's and SubscribeRedis's drop when the broadcast channel is full: the hub's theorems start at the broadcasts that Run receives.
- A panicking or hanging provider: it answers success or failure.
- Liveness under real time: replaced by the measure, the rank and the backlog bounds.
- Delivery.DeliveryService.Process: storage, queue and limiter errors are not among its outcomes, because the ledger and no-loss claims are about fault-free runs; the finest-grain model has them.
- Delivery.DeliveryService.RunWorker: the ticker and the shutdown are the sequence of ticks it is given; the time between them is left out.
- Budget.RetryBudget: states retry_count up to the one failure in hand or lost with its worker, because the code raises it in memory before it writes the row.
- Backoff.JitterRangesDisjoint: needs a base delay of at least 2 ns, because 1 ns and 2 ns truncate to the same wait.
- Scheduler.PollingService.Poll: SchedulerService.poll and RetryPoller.poll are one method with the claim as its setting, because their code differs in nothing else.
- PollingOrder.PickedInTurn: nobody else changes the table between the polls, and no row is locked.

# Flowforge: the protocols behind tasks, webhooks and sessions

A Dafny model of the four places in Flowforge where no single function carries
the guarantee: the road of a task event from its outbox row to the webhook
delivery rows, the rotation of refresh tokens, optimistic task updates with
their history and events, and the fixed-window rate limiter.

Each protocol is a state machine: a `State`, an `Action` per step that the
database, the broker or a process can take on its own, `Enabled` and `Apply`,
and `Runs`/`After` for whole runs. Requests, workers and consumers interleave
freely and may stop at any step.

Code that changes things in place is written as methods. The calls of the
webhook worker, one batch of the outbox worker, the session and task services
and the rate limiter's dispatch ensure that what they do is a run of their
machine, so what holds in every run holds of them. The smaller methods they are
built from (row updates, the delivery loop, topology declarations) are proved
against the functions that the machines' steps apply.

| file | what it models |
|---|---|
| Outbox, OutboxMachine, OutboxBatch | outbox rows, one publishing batch, any number of outbox workers with crashes |
| Topology, Retry | exchanges, queues, bindings, routing; the retry header and ladder |
| Delivery, Consumer, WebhookWorker | delivery rows of one event; consumers with open transactions, duplicates, rollbacks, crashes; `process_message` |
| Ladder, Accounting | how far a message can travel; what the counters say about the queues |
| Pipeline | workers, broker and consumers together |
| Sessions, AuthService | refresh sessions under concurrent transactions; the service's calls |
| Tasks, TaskService, TaskList | versioned updates, history and events under concurrency; the service's calls; paging |
| RateLimit | the request path, and all INCR/EXPIRE orders on one key |

## Assumptions

- PostgreSQL at READ COMMITTED: a row lock is held until commit or rollback,
  `FOR UPDATE SKIP LOCKED` passes over locked rows, an `UPDATE` waits for a
  locked row and looks at its condition again, and `INSERT ... ON CONFLICT DO
  NOTHING` waits for an uncommitted insert of the same key.
- RabbitMQ: a confirmed publish has stored the message, an unacknowledged
  message returns to its queue when its consumer stops or its connection drops,
  an ack over a connection that is gone settles nothing, and an expired or
  rejected message takes its queue's dead-letter route. The retry channel
  behaves as its protocol class says (src/messaging/retry.py:17-23).
- The topology is declared before the first publish: the publisher declares
  the events exchange only (src/messaging/publisher.py:24-34), so an event
  published before any webhook worker has started would be unroutable.
- The publisher sets no retry header (src/messaging/publisher.py:40-50).
- New UUIDs do not collide (fresh numbers here), and the token hash tells
  issued tokens apart, so the stored hash is represented by the token.
- Outbox workers read clocks that agree.

## Results worth knowing

- The rate limiter admits at most 2N - 1 requests in any window's length, one
  fewer than the usual 2N, whatever the order of INCR and EXPIRE; that number is
  reached.
- INCR and EXPIRE are two commands. Where EXPIREs may come up to d late, a client
  with at most N requests in every interval of some length is sure to be served
  if and only if that length is at least window + d. So keeping the limit in
  every window suffices only if no time at all passes between the two.
- The timeout covers both commands, so an EXPIRE can also be lost. A key that has
  counted to the limit stays shut, as long as no EXPIRE comes, if and only if it
  has no time to live, and then even a client that sends one request per window
  is refused from its (N + 1)-th request on.
- An update keeps the status history a chain in every continuation if and only
  if it sets no status or its version is not later than the one present when it
  starts. A client that guesses a later version can record a status the task no
  longer had, or undo a status change without any record.
- A message header that holds `True` counts as one retry, because a Python
  `bool` is an `int`.
- When publishing a retry raises, the consumer neither acks nor rejects: the
  message stays unacknowledged until its consumer stops. It is not lost.
- A committed family revocation is sure to end its family for good if and only if
  it comes from a refresh whose own session was live (a token that is not the one
  stored, or an inactive user), or the family had no live session when the
  revocation's UPDATE took its snapshot. A replayed token and a logout lock no
  live session, so a live one can be rotated before the commit and its successor
  stays alive. With one request at a time a replay always ends the family.

## Model

| member | source | states |
|---|---|---|
| Outbox.ClaimTakesTheOldest | src/outbox/repository.py:32-45 | a claim gets at most `limit` distinct rows, all unlocked, PENDING and without a next attempt or with one not after now; such a row is passed over only when the batch is full and holds nothing younger |
| Outbox.ClaimPending | src/outbox/repository.py:46-50 | every claimed event becomes PROCESSING and keeps its attempts, schedule, error and time |
| Outbox.MarkProcessed | src/outbox/repository.py:52-55 | the event becomes PROCESSED with its time and no error; attempts and schedule stay |
| Outbox.MarkFailedOrRetry | src/outbox/repository.py:57-71 | one attempt more, the first 2000 characters of the error, FAILED at the limit, else PENDING again after 2, 4, 8 ... 256 seconds, or 300 from the ninth on |
| Outbox.DelayTable | src/outbox/repository.py:69-71 | the delay in seconds for every number of attempts |
| Outbox.Backoff | src/outbox/repository.py:64-71 | below the fifth failure a row is due again exactly from 2, 4, 8 or 16 seconds later on; the fifth ends it |
| Outbox.RowIsSettled | src/worker.py:81-110 | every column of a row whose event was published, or raised and was handled |
| Outbox.MarkBatch | src/worker.py:70-117 | the loop marks each event by its own outcome, leaves those after a stop as they are and counts the published ones |
| Outbox.ProcessOutboxOnce | src/worker.py:57-119 | for any pattern of failures every event reached is settled by its own outcome; the result is the number marked PROCESSED, or the call raises and the rest of the batch stays PROCESSING |
| OutboxBatch.MarkAllAt | src/worker.py:72-110 | marking distinct events one after another gives each its own outcome and leaves every other row as it was |
| OutboxBatch.BatchIsARun | src/worker.py:57-119 | the steps of a call, with every exception where it arose and a stop at any point, are a run of the worker machine that settles exactly the rows reached, orphans the rest of the batch, touches no other row and counts every exception |
| OutboxBatch.BatchSettlesEverything | src/worker.py:70-119 | the call moves exactly as many rows to PROCESSED as it counts and raises the table's attempts by one per exception; a complete one leaves no event of the batch in PROCESSING |
| OutboxBatch.RunBatch | src/worker.py:57-119 | the objects of the whole table end up as the table of the run that the call's steps are, and the result is how many rows that run moved to PROCESSED |
| OutboxMachine.StepKeepsInv | src/worker.py:61-104 | every step of every worker keeps: no event held twice, locked events due, events of running batches PROCESSING, every PROCESSING event in a batch or orphaned |
| OutboxMachine.ClaimsAreExclusive | src/outbox/repository.py:30-50 | in every reachable state no event is held twice by claims or batches, and an event is PROCESSING if and only if exactly one running batch holds it or a stopped one left it |
| OutboxMachine.StepSpends | src/worker.py:81-104 | handing an event to the publisher uses up one of its remaining attempts, and no step gives any back |
| OutboxMachine.HandedWithinBudget | src/outbox/repository.py:64-68 | along any run an event is handed over no more often than its row, batch and phase allow |
| OutboxMachine.PublishedAtMostFiveTimes | src/outbox/repository.py:57-71 | from the start, with any workers and crashes, at most five times |
| OutboxMachine.NotClaimedEarly | src/outbox/repository.py:34-40 | a row put off stays unchanged and in nobody's hands until it is due |
| OutboxMachine.FailureDefersTheEvent | src/outbox/repository.py:69-71 | after its first, second, third and fourth failure an event is not claimed for 2, 4, 8 and 16 seconds in any continuation |
| OutboxMachine.RowsOnlyMoveForward | src/outbox/repository.py:46-71 | every step leaves a row as it is or lowers the pair (5 - attempts, status rank); PROCESSED and FAILED are final |
| OutboxMachine.FailureCounterLaw | src/worker.py:96-104 | the failure counter is never below the sum of attempts in the table, and equals it when no batch has stopped and no failure waits to be written |
| Topology.Broker.DeclareWebhookTopology | src/messaging/topology.py:25-124 | succeeds exactly when nothing declared earlier contradicts it, then the broker holds the old layout plus this one: one topic and two direct exchanges and the five queues; the channel is closed either way |
| Topology.DeclaringIsIdempotent | src/messaging/topology.py:25-124 | declaring again succeeds and changes nothing, so every worker may do it at start |
| Topology.EventsExchangeRoutes | src/messaging/topology.py:58-66 | the events exchange feeds the webhook queue only, with exactly the two-word `task.` keys and the key the retry queues hand back |
| Topology.RetryKeyReachesItsQueue | src/messaging/topology.py:98-111 | each retry key reaches exactly its own retry queue |
| Topology.RetryQueueReturnsToWebhooks | src/messaging/topology.py:68-96 | each retry queue has its TTL and dead-letters to the webhook queue alone, by a key that no `task.*` binding matches |
| Topology.RejectedMessagesAreKept | src/messaging/topology.py:49-56 | a message rejected from the webhook queue lands in the DLQ, which leads nowhere |
| Retry.RetryLaw | src/messaging/retry.py:26-57 | what every kind of retry header counts, which queue it leads to and which header the copy gets; any integer but 0, 1 and 2 leads nowhere |
| Retry.LadderWaitsAtMost | src/messaging/retry.py:26-34 | climbing the ladder from any count on it costs at most 370 seconds, and exactly that from the bottom to the top |
| Delivery.Session.DeliverWebhooks | src/webhooks/delivery.py:32-97 | without a task id or organization nothing is added, a malformed id raises, and otherwise it raises exactly when a subscriber makes it; one that returns adds a record of each call, in order, with status, up to 2000 characters of the body or the reason or error |
| Delivery.RowsRecordCalls | src/webhooks/delivery.py:65-97 | the rows record the calls to exactly the subscribers with a readable secret and a URL judged safe twice |
| Delivery.RaisesWhen | src/webhooks/delivery.py:40-68 | when a delivery raises: a malformed task id, an unreadable secret behind a safe URL, or a call that ends in no HTTP error |
| Delivery.OneRowPerEligibleSubscriber | src/webhooks/delivery.py:59-97 | delivery returns if and only if no subscriber raises, and then there is one row per subscriber that can be called, in order, whatever each call returned |
| Delivery.EligibleIdsAreHooks | src/webhooks/delivery.py:60-68 | the ids with a row are exactly those with a readable secret and a URL judged safe twice |
| Delivery.NoRepeatedSubscriber | src/webhooks/delivery.py:87-97 | no subscriber gets two rows for one event |
| Consumer.HoldersStaySingle | src/messaging/idempotency.py:15-32 | at no time do two open transactions hold an event's marker |
| Consumer.StepKeepsInv | src/webhook_worker.py:91-228 | every step, crashes, dropped connections and unknown commit results included, keeps: the marker with the complete rows for what the committing transaction found, or neither |
| Consumer.EffectsCommitOnce | src/webhook_worker.py:121-139 | for any duplicates, concurrency, rollbacks and crashes, the commits of an event's effects in a run are one if the run set its marker and none otherwise |
| Consumer.AllOrNothing | src/webhook_worker.py:121-139 | in every reachable state an event has its marker and exactly one row, recording its call column by column, for every eligible subscription the committing transaction found, or no marker and no rows |
| Consumer.ServedWasFound | src/webhooks/delivery.py:44-53 | what is recorded as found for an event is what a delivery step of the run for that event found |
| Consumer.CommittedEffectsAreFinal | src/webhook_worker.py:124-139 | later duplicates never add to or change the rows of a processed event |
| Consumer.StepKeepsSafe | src/webhook_worker.py:73-88 | an event that is marked or carried by some copy stays so through every step |
| Consumer.StepKeepsHandedOn | src/webhook_worker.py:67-75 | while a retried message awaits its ack, its event is safe without it |
| Ladder.StepKeepsLadder | src/messaging/retry.py:45-73 | every step keeps each message's count, waits and visits in step with one another |
| Ladder.VisitsAndWaitsAreBounded | src/messaging/retry.py:26-73 | a message reaches the consumer at most 4 times plus once per crash or dropped connection and waits at most 370 seconds; one published with a count outside 0..2 is never retried |
| Ladder.GivenUpAfterThreeRetries | src/messaging/retry.py:37-57 | of messages published without a retry header, one is given up only after exactly three retries, with header 3, and 370 seconds of waiting |
| Ladder.OffLadderGoesToDeadLetters | src/webhook_worker.py:83-88 | with any count outside 0..2, in every run after a retryable failure the message is being given up or dead, and dead where nothing more can happen, unless its consumer stops or loses its connection |
| Ladder.CrashFreeRunsAreFinite | src/webhook_worker.py:60-228 | every step of a crash-free run burns fuel, retry publishes that raise included, so such runs have a bounded length |
| Ladder.SomeStepIsEnabled | src/webhook_worker.py:60-228 | a message that is neither settled nor stuck always has a step to take, its own or that of the transaction its insert waits for |
| Ladder.EveryMessageComesToRest | src/webhook_worker.py:60-228 | a crash-free run that can go no further has every message acked, in the DLQ, or unacknowledged after a retry publish that raised; without such a publish no message becomes stuck |
| Accounting.CountersAgreeWithQueues | src/webhook_worker.py:83-228 | in crash-free runs DLQ depth, consumer invocations and retries sent equal their counters, up to what is in progress; in any run the counters err on one side only |
| Accounting.CountersCountSteps | src/webhook_worker.py:83-178 | each counter on its own: invocations, refused bodies, fatal failures and messages given up, confirmed retries |
| WebhookWorker.Worker.TryMarkProcessed | src/messaging/idempotency.py:9-32 | takes the insert step and reports true if and only if the marker was not there |
| WebhookWorker.Worker.WorkAndCommit | src/webhook_worker.py:132-139 | delivery and commit, with others going on meanwhile, are a run of the machine for each way they can fail |
| WebhookWorker.Worker.TakeMarker | src/webhook_worker.py:124-130 | the insert fails, waits only while another open transaction holds the marker, or wins if and only if the marker is not there at that step |
| WebhookWorker.Worker.RunTransaction | src/webhook_worker.py:121-194 | the transaction with its except clauses is a run of the machine, in any company, and leads to ack, retry or reject |
| WebhookWorker.Worker.TryPublishRetry | src/messaging/retry.py:45-73 | true unless the header holds an integer other than 0, 1 and 2; the copy keeps body and other headers, carries the raised count and waits 10, 60 or 300 seconds by it |
| WebhookWorker.Worker.Answer | src/webhook_worker.py:196-196 | an ack or reject settles the message, or raises and settles nothing when the connection has dropped meanwhile |
| WebhookWorker.Worker.StepRetry | src/webhook_worker.py:66-74 | the retry publish, with anything others do before the exchange has it, is the first step of its script and says what to answer |
| WebhookWorker.Worker.HandleRetry | src/webhook_worker.py:60-88 | off the ladder the message is given up and rejected; else its retry is published and it is acked, or left unacknowledged when publishing raises |
| WebhookWorker.Worker.ProcessMessage | src/webhook_worker.py:91-228 | from any state, with any steps of others at every wait, the call is a run of the machine: its insert wins if and only if the marker is not there at that step; it rejects exactly garbage, a delivery that raises, or a database failure off the ladder; a duplicate and a finished delivery commit and are acked |
| WebhookWorker.WhatTheStepsAre | src/webhook_worker.py:121-228 | when a call inserts, delivers, commits, fails, acks and rejects, by what the database and the delivery do |
| Pipeline.ConfirmedOnlyByPublishing | src/worker.py:81-86 | only a confirmed publish puts a worker past publishing an event |
| Pipeline.PublishedOnlyByPublishing | src/worker.py:81-86 | an event becomes published, or PROCESSED, only by a confirmed publish: publish comes before mark |
| Pipeline.StepKeepsInv | src/webhook_worker.py:60-196 | every step of workers and consumers together keeps each published event safe |
| Pipeline.NoEventIsLost | src/worker.py:81-86 | in every reachable state, with crashes on both sides, a PROCESSED event has its effects committed or a copy in the webhook queue, in a consumer's hands, in a retry queue or in the DLQ |
| Pipeline.RunsProject | src/webhook_worker.py:91-228 | a run of the whole is a run of either half, so the laws of both machines hold together |
| Pipeline.EffectsAtMostOnce | src/webhook_worker.py:121-139 | however often workers publish an event, its effects are committed once if marked and never otherwise |
| Pipeline.MovesFollowTheTopology | src/messaging/topology.py:49-121 | every move of a message between queues is the dead-letter route the declared topology gives, and a dropped connection leaves it in its queue |
| Pipeline.RetriesFollowTheTopology | src/messaging/retry.py:52-72 | a retry copy waits in exactly the queue its key is routed to |
| Sessions.RotationKeepsChains | src/auth/service.py:94-110 | a rotation puts the successor at the end of its family's chain and disturbs no other family |
| Sessions.RevokingKeepsChains | src/auth/repository.py:56-76 | revocations leave every chain as it was |
| Sessions.StepKeepsInv | src/auth/service.py:53-156 | every statement and commit of any concurrent requests keeps families chains and locks exclusive |
| Sessions.FamiliesAreChains | src/auth/service.py:86-110 | in every reachable state a family is one user's and one chain from its login session; no two sessions share a successor, and only the last can be live |
| Sessions.RevocationIsForGood | src/auth/service.py:65-110 | no step revives a session or takes a successor away, and only a rotation's commit gives one |
| Sessions.TokensAreSingleUse | src/auth/repository.py:26-30 | in every interleaving the successful refreshes of a session number one if it has a successor and none otherwise |
| Sessions.DeadFamiliesStayDead | src/auth/repository.py:56-64 | once all sessions of a family are revoked, no run has a live one or a successful refresh in it |
| Sessions.RunRevivesNobody | src/auth/service.py:94-110 | a run without a rotation in a family brings no new live session into it |
| Sessions.SweepRevokesItsSnapshot | src/auth/repository.py:56-76 | whatever happens between the snapshot of a revoking UPDATE and its commit, exactly the sessions of the snapshot are revoked by then |
| Sessions.SweepRevokesExactly | src/auth/repository.py:56-64 | a family revocation leaves live exactly the sessions of the family not yet live at its snapshot, and none if none was rotated in between |
| Sessions.LogoutAllRevokesExactly | src/auth/repository.py:66-76 | a logout from everywhere leaves live exactly the user's sessions not yet live at its snapshot |
| Sessions.LockedTailDies | src/auth/service.py:79-92 | a refresh with a token that is not the one stored, or of an inactive user, ends the family in every continuation |
| Sessions.RevocationDecides | src/auth/service.py:71-92 | a family revocation ends the family in every continuation if and only if it comes from such a refresh or finds no live session |
| Sessions.RotationRun | src/auth/service.py:65-110 | an undisturbed refresh of a good token goes through to the rotated table |
| Sessions.RotationWrites | src/auth/service.py:94-110 | the commit of a rotation, column by column: the used session retired with time and successor, the successor live with its own token and expiry, no other row touched |
| Sessions.RevokeAllWrites | src/auth/repository.py:56-76 | a revocation writes its time into the rows named and nothing else |
| Sessions.ReplayCanMissTheNewTail | src/auth/service.py:71-75 | from any state with a live session in the family, a replay or a logout has a continuation in which its revocation commits and the successor of that session stays live |
| AuthService.Service.RevokeFamily | src/auth/repository.py:56-64 | all live sessions of the family get the time, nothing else changes, none is left live |
| AuthService.Service.IssueTokenPair | src/auth/service.py:158-191 | a new jti, the given family or a fresh one, and a live session that holds the token, the user and the expiry given |
| AuthService.Service.Rotate | src/auth/service.py:94-110 | the used row is revoked, stamped and linked to the one successor, which has the token's family and the new expiry; no other row changes |
| AuthService.Service.Login | src/auth/service.py:31-51 | succeeds exactly for an active account with a valid password, and then adds one live session with the new expiry in a family of its own; otherwise nothing changes |
| AuthService.Service.Refresh | src/auth/service.py:53-115 | succeeds if and only if the session is there, the token's user's, unrevoked, unexpired, holds this token, and the user is active; every row afterwards is stated for success and for each failure; the call is a run of the session machine |
| AuthService.Service.Logout | src/auth/service.py:117-139 | the session is not live afterwards; a token other than the stored one costs the family; a revoked one is left as it is |
| AuthService.Service.LogoutAll | src/auth/service.py:141-144 | exactly the user's unrevoked sessions get the time, in no other column and no other row |
| AuthService.Service.RevokeSession | src/auth/service.py:149-156 | true if and only if the session was live and the user's own, and then exactly it is revoked |
| AuthService.ReplayKillsTheFamily | src/auth/service.py:71-92 | after an undisturbed family revocation no run of any number of requests ever has a live session or a successful refresh in that family |
| Tasks.StepKeepsAgreement | src/tasks/service.py:113-185 | every step keeps events, versions and history rows of every live task in agreement |
| Tasks.StepKeepsInv | src/tasks/repository.py:87-99 | a written row stays locked, and its compare-and-set stays true, until its commit |
| Tasks.OutboxAgreesWithTable | src/tasks/service.py:121-185 | for every live task in every reachable state the last created or updated event agrees with the row field by field, there are version - 1 updated events, and one status event fewer than history rows |
| Tasks.UpdateWrites | src/tasks/service.py:121-185 | an update writes the fields it names and no others, raises the version by one, records a change of status with the old one first, and appends its events with the new row field by field |
| Tasks.CommitWritesUpdate | src/tasks/repository.py:87-99 | the commit of any interleaved update is such a write on the row of that moment |
| Tasks.StepKeepsChain | src/tasks/service.py:137-154 | with status updates of versions no later than the one present, every recorded old status is the status at the moment of the update |
| Tasks.HistoryIsAChain | src/tasks/service.py:113-154 | the history links from nothing over TODO to the present status, each row changing it |
| Tasks.GuessedVersionBreaksTheChain | src/tasks/service.py:137-154 | for every update that sets a status under a later version there is an interleaving in which the history is no chain |
| Tasks.HonestyDecides | src/tasks/service.py:137-154 | for any update in any state, every continuation keeps the history a chain if and only if it sets no status or its version is not later than the one present |
| TaskService.Service.CreateTask | src/tasks/service.py:42-86 | errors leave no trace; success adds the row in TODO at version 1, its first history row and its event, as a run of the machine |
| TaskService.Service.UpdateOptimistic | src/tasks/repository.py:87-99 | if and only if the version is the expected one, the row gets the values named, keeps the others, and its version goes up by one |
| TaskService.Service.UpdateTask | src/tasks/service.py:113-185 | every error by its cause and without a trace; on success every field of the row and of the events, the history row, and nothing else; a run of the machine |
| TaskService.Service.DeleteTask | src/tasks/service.py:187-218 | only a task of the given accessible project goes, with its history, and leaves its event |
| TaskService.EveryEventReachesTheWebhooks | src/tasks/service.py:74-218 | each of the four event types the service writes is routed to the webhook queue and nowhere else |
| TaskList.MatchesOnce | src/organizations/models.py:22-25 | with one membership row per user and organization the join gives each accessible task once |
| TaskList.ArrangementIsUnique | src/tasks/repository.py:51-55 | position, creation time and id leave one possible order, of each accessible task once |
| TaskList.EveryPageHasAnAnswer | src/tasks/repository.py:43-58 | the page query has an answer for every offset and limit |
| TaskList.PageFits | src/tasks/repository.py:56-57 | no page is longer than its limit |
| TaskList.PagesTileTheList | src/tasks/repository.py:30-75 | the pages at offsets 0, limit, 2 * limit, ... put together are every accessible task of the project exactly once, strictly ordered by position, creation and id, and `total` is their number |
| RateLimit.Dispatch | src/infrastructure/rate_limit.py:14-34 | which paths are exempt, the count, the time to live and the decision for every cell, path and store failure; no other key changes; the call is a run of its key's trace and refused exactly when its number there exceeds the limit |
| RateLimit.RequestIsARun | src/infrastructure/rate_limit.py:25-31 | the commands of one request are a run of the trace the bounds are about, for each way the store can fail, and the request is judged by its logged number |
| RateLimit.StepKeepsInv | src/infrastructure/rate_limit.py:25-29 | whatever the order of INCR and EXPIRE, lifetimes start at least a window apart and number their requests without repetition |
| RateLimit.WindowMeetsTwoLifetimes | src/infrastructure/rate_limit.py:25-30 | an interval as long as the window meets at most two lifetimes and misses the first request of the earlier one |
| RateLimit.FixedWindowBound | src/infrastructure/rate_limit.py:25-31 | at most 2N - 1 requests are admitted in any half-open interval of the window's length |
| RateLimit.BoundIsReached | src/infrastructure/rate_limit.py:25-31 | for every limit and window of two units or more there is a run that admits 2N - 1 |
| RateLimit.CounterCountsTheWindow | src/infrastructure/rate_limit.py:27-30 | if every EXPIRE comes within d, each request's number is how many requests came since its lifetime began, whatever comes between |
| RateLimit.ModestClientsAreServed | src/infrastructure/rate_limit.py:27-34 | if every EXPIRE comes within d, a client with at most N requests in every interval of length window + d is never refused |
| RateLimit.LateExpireRefuses | src/infrastructure/rate_limit.py:27-31 | for every shorter length there is a run in which a client with at most N requests in every interval of that length is refused |
| RateLimit.ServedExactly | src/infrastructure/rate_limit.py:27-34 | if EXPIREs may come up to d late, keeping the limit in every interval of a length is enough if and only if the length is at least window + d |
| RateLimit.LostExpireLocksOut | src/infrastructure/rate_limit.py:26-31 | if the EXPIRE never runs, nobody is admitted again once N requests are counted |
| RateLimit.ShutExactlyWithoutExpiry | src/infrastructure/rate_limit.py:26-31 | a key counted to the limit refuses every continuation of INCRs if and only if it has no time to live |
| RateLimit.ModestClientIsRefused | src/infrastructure/rate_limit.py:26-31 | for every limit and window, one lost EXPIRE lets a client be refused that never sends two requests within a window |

## Left out

- WebhookWorker.Worker.ProcessMessage: a process that stops during the call is the machine's Crash step, not an ending of the method.
- AuthService.Service.Refresh: speaks of one request at a time, as do the other methods of the two service classes; requests that overlap are runs of Sessions and Tasks.
- Outbox.ProcessOutboxOnce: takes the answer of the claim query as given; OutboxBatch.RunBatch starts from the query.
- Tasks.HonestyDecides: supposes that at least two transactions can be open, since with one nothing comes between a read and its write.
- OutboxMachine.FailureCounterLaw: counts a failure that a stopping worker never wrote as lost, so equality needs a run without such a stop.
- Sessions.RevocationDecides: supposes that at least two transactions can be open, and does not compare the clocks of different requests.
- Liveness under crashes: PROCESSING rows of a stopped worker are never reclaimed, and a failed HTTP call is recorded but not repeated. The code provides neither.
- The order in which the events of one task are published.
- A marking transaction whose commit was reported as failed but was durable, and what the ORM session holds after a rollback.
- HTTP, RabbitMQ, PostgreSQL and Redis clients beyond the steps listed under Assumptions; an HTTP call is an arbitrary outcome.
- JWT encoding, password hashing, signatures, secret decryption, URL and DNS checks: their answers are inputs.
- Queue names and routing keys as strings: queues are constructors, keys are lists of words.
- `build_outbox_message`, message properties, correlation and causation ids, spans and log records, duration histograms.
- `count_pending` and the pending gauge; the polling loop `run_outbox_loop`, which only repeats the batch.
- `list_sessions`, `list_history`, comments, and the request schemas beyond the at-least-one-field rule.
- Deleting users, organizations, projects or subscriptions, which removes dependent rows by cascade.
- Organization, project, user and webhook CRUD, audit records and idempotency keys, which no modelled workflow uses.

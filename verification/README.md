# SignalDesk delivery protocol in Dafny

SignalDesk accepts notifications over HTTP, stores them in MySQL, moves them through RabbitMQ and delivers them
with worker threads that retry through a ladder of delay queues. This project models that pipeline and proves what
it guarantees, and exactly when it does not.

The centre is a transition system (`Protocol.dfy`) in which every SQL statement, every AMQP call and every broker
event is an atomic step, and any number of workers, notifications, duplicate POSTs and crashes interleave freely.
Each guarantee is an invariant or a theorem about all runs of that system, in a file of its own.

| file | content |
|---|---|
| `Domain.dfy` | channels, statuses, configuration, table rows, message bodies |
| `Protocol.dfy` | state, actions, `onMessage` statement by statement, runs |
| `History.dfy` | the tallies in the theorems are counts of the run's actions |
| `Agreement.dfy` | messages agree with rows; handlers' unsent frames agree with their program counters |
| `Convergence.dfy` | no published notification is lost; what a system at rest looks like |
| `AuditTrail.dfy` | recorded attempts are 1..r; attempt_count against the trail |
| `Sums.dfy`, `Budget.dfy` | what one message pays for: handler calls, and one acceptance or dead-letter copy |
| `BoundedWork.dfy` | a bound on all work of brokers and workers; progress |
| `DuplicateDelivery.dfy` | how often the provider accepts a notification; single submissions |
| `RetryLoop.dfy` | the pipeline refines a sequential retry loop, under every configuration |
| `RecordedOnce.dfy` | when a recorded attempt can be rewritten |
| `Submission.dfy` | idempotency keys and the outbox |
| `Backoff.dfy` | delays on the ladder, order in the retry queues |
| `LosingRuns.dfy` | losing and stranding runs, with the exact configuration condition; why DEAD_LETTERED is retried |
| `Wire.dfy` | per-connection FIFO sockets, prefetch of ten, one thread per worker, death of a worker's process |
| `SharedChannel.dfy` | when SENT is final in `Wire`: the exact condition on the worker pool |
| `Survivors.dfy` | calls that outlive their connection: what survives, and the exact condition for a loss |
| `SurvivorBounds.dfy` | how many calls, acceptances and dead-letter copies they can add |
| `WedgedChannel.dfy` | delivery and breaker together: what a wedged breaker does to a channel |
| `Topology.dfy` | queue names, `declareAll`, AMQP routing |
| `PriorityOrder.dfy` | weights against the order of priorities |
| `CircuitBreaking.dfy` | the breaker as a class, and all interleavings of its callers |
| `ConnectionPooling.dfy` | the session pool as classes, and all schedules of its threads |
| `Service.dfy` | repositories, router, `onMessage`, worker pool and POST as imperative code on mutable objects |
| `Routing.dfy` | the frames of that code on the declared broker, against the places of `Protocol` |

## How the model is built

- A message copy is never forgotten: `copies` lists every copy the broker ever received, and its `place` says where
  it is (main queue, rung, unacknowledged, dead-letter queue, acknowledged, dropped as unroutable). A delivered copy
  carries the program counter of the `onMessage` call that handles it and the frames that call has issued and the
  socket has not sent.
- In `Protocol` a crash is the return of one delivery (`Requeue`) at any program counter. In `Wire` a crash is the
  death and restart of a worker's process: all its deliveries return, its running call ends, and the unsent part of
  its FIFO is gone. Every run of `Wire` is a run of `Protocol`, so the guarantees carry over, and `Wire` itself does
  not block.
- In `Survivors` a connection can also die while the process lives: the broker takes the deliveries back, the thread
  goes on with the calls it has, their frames go nowhere, and the worker takes nothing more until it is restarted.
  Runs of `Wire` are runs of `Survivors`.
- The provider's answer, the clock, fresh ids and the choice among matching deliveries are parameters of actions.
  `Tally` is history: no action reads it.
- SQL statements and transactions are atomic, queues durable, frames of one channel arrive in order, and the broker
  requeues unacknowledged deliveries when a connection ends.
- `Service.dfy` holds the imperative code on mutable repositories, breakers and sockets. The objects of a thread share
  a journal (history only) in which each statement leaves an entry. `WorkerThread.OnMessage` leaves the objects and
  the journal as a function of their old values says, and `CallIsRun` shows that this is a run of `Protocol`, step by
  step in the journal's order.

## Where the code differs from its comments

The model follows the code.

- The breaker's step from Open to HalfOpen admits a call without setting the probe flag, so two probes can be out,
  not "exactly one" (include/notification/CircuitBreaker.hpp:28-36): `TwoProbesAdmitted`.
- A permanent rejection reports nothing to the breaker (src/ProviderRouter.cpp:30-34). Two of them during HalfOpen
  leave it refusing for ever, and the channel's notifications end DEAD_LETTERED: `StuckIffWedged`, `WedgeIsReachable`,
  `WedgedChannelDeadLetters`.
- `record` overwrites an existing row (src/DeliveryAttemptRepository.cpp:11-12); its header calls that a no-op. It is
  one for a notification with a single message and no crash, and from two messages on a recorded outcome can change:
  `RewritesIffTwoMessages`.
- DEAD_LETTERED is not in the status test (src/Worker.cpp:95), so a redelivered message of a dead-lettered
  notification is attempted again. It has to be: a crash can leave that message as all there is of the notification,
  with nothing in the dead-letter queue: `DeadLetteredLeftInQueue`.
- A repeated idempotency key publishes again (src/HttpServer.cpp:142-153). With two workers on a channel SENT can then
  be overwritten, and only then: `SentOverwrittenIffShared`.
- Publish-before-ack does not protect a call whose connection has died: another worker can finish the notification,
  and the surviving call then overwrites SENT with PROCESSING or DEAD_LETTERED and no message is left anywhere.
  This too needs two workers on a channel, and nothing else: `SurvivorForgets`, `ForgetsIffShared`.
- "Accepted" does not mean "will be delivered": with no outbox poller a crash before the publish strands the row in
  PENDING: `CrashBeforePublishStrands`, `SettledIffPublished`.
- Nothing checks maxRetries against the number of retry delays: `LosesIffLadderShort`, `LadderClosedIff`.
- Nothing checks dbPoolSize against httpThreads: `StuckIffTooFewSessions`.

## Model

| member | source | states |
|---|---|---|
| Agreement.AgreedRun | src/Worker.cpp:69-160 | in every reachable state every queued, retrying, in-flight or dead-lettered message sits on its row's channel and carries the priority weight of its row in body and envelope (the envelope of a dead-lettered copy has none), attempt numbers stay within maxRetries + 1 and, unless the broker dropped the message, within the ladder, recorded attempts have the row's channel, and a handler's unsent frames are its publish followed by its ack |
| Submission.RunKeepsRows | src/NotificationRepository.cpp:126-144 | however a run goes on, no row is deleted, changes its key, channel or priority, or loses attempt_count |
| History.TallyIsHistory | src/Worker.cpp:69-160 | the publishes, crash returns, calls, lost successes and send results that the bounds below speak of are exactly those of the run's actions |
| Convergence.NothingLostRun | src/Worker.cpp:87-158 | if maxRetries does not exceed the number of delays: invariant over all runs: a published notification is SENT, or a copy still owes it an attempt, or it is DEAD_LETTERED and held for the operator |
| Convergence.UndecidedHasObligatedCopy | src/Worker.cpp:95-158 | if maxRetries does not exceed the number of delays: a published PENDING or PROCESSING notification always has a message in a main queue, on the ladder, or with a handler not yet committed to a bare ack |
| Convergence.SettledIffPublished | src/HttpServer.cpp:142-153 | if maxRetries does not exceed the number of delays: in a state at rest a notification is SENT or DEAD_LETTERED if and only if a message of it was published; DEAD_LETTERED means a copy is in the dead-letter queue; otherwise it is PENDING with no attempt |
| Convergence.UntouchedRun | src/NotificationRepository.cpp:50-70 | a notification none of whose messages was published is exactly as inserted: PENDING, count 0, no attempt, no message |
| AuditTrail.GapFreeTrail | src/DeliveryAttemptRepository.cpp:5-17 | under all crashes and redeliveries the recorded attempts of a notification are exactly 1..r with r at most maxRetries + 1 and at most attempt_count + 1; a message at attempt k has rows 1..k-1 and attempt_count at least k-1; a dead-lettered message has its own row |
| AuditTrail.FinalIsRecorded | src/Worker.cpp:112-155 | record before mark: in every reachable state a notification that is SENT or DEAD_LETTERED has a recorded attempt 1 |
| Budget.ExecutionsAtMost | src/Worker.cpp:123-139 | with P published messages and C deliveries returned by crashes, onMessage begins at most (P + C) * (maxRetries + 1) times for a notification |
| BoundedWork.InternalActionsAtMost | src/Worker.cpp:69-160 | brokers and workers take at most 12 * (maxRetries + 1) actions per message that enters a main queue from outside the ladder, so every run with finitely many of those terminates |
| BoundedWork.MotionNeverBlocks | src/RabbitMQTopology.cpp:52-58 | a message in motion can always be moved on, after at most its rung's delay, if its channel has a worker |
| DuplicateDelivery.SuccessesAtMost | src/Worker.cpp:95-120 | if handlings of a notification never overlap, the provider accepts it at most once plus once per crash between a successful send and markSent |
| DuplicateDelivery.SentIsAbsorbing | src/Worker.cpp:95-102 | if handlings never overlap, a row that is SENT stays SENT whatever follows |
| RetryLoop.PipelineRefinesLoop | src/Worker.cpp:102-158 | under every configuration, for one submission without crashes, beside any other traffic, the system at rest has exactly the status, attempt rows with their statuses, attempt_count and at most one dead-lettered message that a sequential retry loop computes from the results of the sends, and as many sends as attempts; a ladder that is too short ends loop and pipeline in PROCESSING |
| DuplicateDelivery.SingleSubmissionNeverOverlaps | src/Worker.cpp:95-139 | under every configuration the handlings of a single crash-free submission never overlap at any moment of the run |
| DuplicateDelivery.SingleSubmissionSentOnce | src/Worker.cpp:109-120 | under every configuration a single crash-free submission is accepted by the provider at most once, and at rest exactly when its row is SENT |
| Budget.EndsAtMostMessages | src/Worker.cpp:95-158 | in every run, overlapping or not, acceptances by the provider and copies in the dead-letter queue of a notification are together at most its messages published or returned by a crash |
| RecordedOnce.SingleMessageRecordsOnce | src/DeliveryAttemptRepository.cpp:5-17 | under every configuration no action ever changes a recorded attempt of a notification with one published message and no crash, whatever runs beside it |
| RecordedOnce.CrashRewrites | src/DeliveryAttemptRepository.cpp:11-12 | a run with one message and one crash, between record and markSent, whose next statement turns a recorded SUCCESS into TRANSIENT_FAILURE |
| RecordedOnce.RewritesIffTwoMessages | src/DeliveryAttemptRepository.cpp:11-12 | for a pool that has a worker: a run with at most p published and r returned messages of a notification can rewrite its trail if and only if p is at least one and p + r at least two |
| Submission.IdempotentSubmission | src/NotificationRepository.cpp:34-76 | under concurrent POSTs cut off anywhere: at most one row per key, exactly one outbox event per row with the row's id as payload, and the same id for all saved submissions of a key |
| Submission.AnswerNeverChanges | src/HttpServer.cpp:132-155 | a saved submission and any later saved submission of the same key return the same id, across the whole continuation of the run |
| Submission.RowsAskedFor | src/NotificationRepository.cpp:50-70 | every row of a reachable state has the key, channel and priority of one request |
| Submission.SavedByOwnInsert | src/NotificationRepository.cpp:60-76 | over runs: a request that found its key free is saved only if its own insert created the row; otherwise it is rolled back and never publishes |
| Submission.OneWinnerPerKey | src/NotificationRepository.cpp:60-76 | of all requests of a key that ever found it free at most one is ever saved |
| Backoff.NeverAskedEarly | src/Worker.cpp:132-139 | whenever the provider is about to be asked for attempt k, at least the sum of the first k-1 retry delays has passed since a moment at which the run published a message of a POST for this notification |
| Backoff.SubmittedIsHistory | src/HttpServer.cpp:142-153 | the age of any message is that of a publish of a POST for its notification in the run |
| Backoff.ExpiredIsPrefix | src/RabbitMQTopology.cpp:52-58 | in a retry queue every message ahead of a due one is due, so expiry at the head holds nothing back |
| LosingRuns.LosesIffLadderShort | src/Worker.cpp:125-139 | for a pool that has a worker: some run leaves a published notification undecided at rest if and only if maxRetries exceeds the number of retry delays |
| LosingRuns.ShortLadderLoses | src/Worker.cpp:134-139 | constructs that run for every such configuration with a worker |
| LosingRuns.CrashBeforePublishStrands | src/HttpServer.cpp:142-153 | a run in which the row is committed, the message is never published and nothing is left to do |
| LosingRuns.DeadLetteredLeftInQueue | src/Worker.cpp:95-158 | a run after which a DEAD_LETTERED notification has nothing in the dead-letter queue and one message, in its main queue, whose ack without an attempt would leave nothing; the code attempts it again |
| SharedChannel.SentOverwrittenIffShared | src/Worker.cpp:95-102 | some run of Wire has an event that ends SENT if and only if two workers consume the same channel |
| SharedChannel.UnexplainedDeliveryIffShared | src/Worker.cpp:95-120 | some run of Wire, where a call ends with its connection, has more provider successes for a notification than one plus the deliveries lost between a success and markSent if and only if two workers consume the same channel |
| SharedChannel.UnsharedSuccessesAtMost | src/Worker.cpp:95-120 | with one worker per channel that bound holds in every run of Wire, with no condition on the run |
| SharedChannel.SentOverwrittenIffTwoPerChannel | src/Worker.cpp:162-169 | in terms of the configuration: in Wire both happen exactly when workersPerChannel is at least two |
| Survivors.TrailSurvives | src/DeliveryAttemptRepository.cpp:5-17 | with calls that outlive their connections too, messages agree with rows and the recorded attempts are 1..r with the bounds of GapFreeTrail |
| Survivors.SubmissionSurvives | src/NotificationRepository.cpp:34-76 | with such calls too there is one row per key, one outbox event per row and one answer per key |
| Survivors.SurvivorForgets | src/Worker.cpp:95-158 | the failing run, for any two workers of a channel and either failure: the row ends PROCESSING or DEAD_LETTERED after SENT, its only message acknowledged, nothing in the dead-letter queue |
| Survivors.ForgetsIffShared | src/Worker.cpp:41-67 | if maxRetries does not exceed the number of delays: some run leaves a published notification neither SENT nor kept anywhere if and only if two workers consume the same channel |
| Survivors.UnsharedLosesNothing | src/Worker.cpp:41-67 | with such a ladder and one worker per channel a published notification is always SENT, owed an attempt by a copy, or DEAD_LETTERED and held for the operator, whatever surviving calls write |
| Survivors.SentEndsIffShared | src/Worker.cpp:95-102 | surviving calls do not change when SENT is final: a run that ends it exists if and only if two workers consume the same channel |
| SurvivorBounds.SurvivingExecutionsAtMost | src/Worker.cpp:123-139 | the bound on onMessage calls holds with surviving calls, a delivery taken back from one counting as returned |
| SurvivorBounds.SurvivingEndsAtMostMessages | src/Worker.cpp:95-158 | so does the bound on acceptances and dead-letter copies |
| SurvivorBounds.UnsharedSurvivingSuccesses | src/Worker.cpp:95-120 | with one worker per channel and calls that outlive their connections, the provider accepts a notification at most once plus once per handler that dies between a successful send and markSent, with its connection or after it |
| SurvivorBounds.UnaccountedIffShared | src/Worker.cpp:95-120 | some run goes beyond that bound if and only if two workers consume the same channel |
| SurvivorBounds.LostSuccessesNotEnough | src/Worker.cpp:41-67 | with any worker, alone or not, there is a run with two acceptances and no delivery lost in its window, because the call that died there had lost its delivery before: the bound of Wire does not carry over as it is counted there |
| WedgedChannel.WedgedChannelDeadLetters | src/ProviderRouter.cpp:18-36 | protocol and breaker side by side: from a wedged breaker on, no notification of the channel that is not already won, submitted before or after, becomes SENT, none is accepted any more, and with a covering ladder each published one is DEAD_LETTERED, in the queue, at rest |
| WedgedChannel.WedgeBesideUndecided | src/ProviderRouter.cpp:18-36 | for every configuration with a worker for the channel and every breaker setting a run from the start wedges the breaker beside a published PENDING notification |
| Wire.WireRefinesProtocol | src/Worker.cpp:41-67 | every run with FIFO sockets, one thread per worker, prefetch and whole-connection loss is a run of Protocol with the same database, queues and history |
| Wire.HeadIsNext | src/Worker.cpp:134-158 | the frame at the head of a connection's socket is the next frame of its delivery, so publishes reach the broker before their acks |
| Wire.NoLossWithBufferedFrames | src/Worker.cpp:139-158 | if maxRetries does not exceed the number of delays: whatever suffix of a socket the death of a worker's process drops, a published notification that is not SENT has a copy queued, on the ladder, unacknowledged or dead-lettered |
| Wire.IdleSystemIsSettled | src/Worker.cpp:41-67 | if every channel has a worker and maxRetries does not exceed the number of delays: once brokers, sockets and workers have nothing left to do even by waiting, a notification is SENT or DEAD_LETTERED (with a copy in the queue) if and only if it was published |
| Wire.SystemRunsDry | src/Worker.cpp:51-54 | broker and worker steps are at most 12 * (maxRetries + 1) times the published POSTs plus ten times the lost connections, ten being the prefetch |
| Topology.NamesInjective | src/RabbitMQTopology.cpp:29-35 | main, retry and dead-letter queue names of all channels and all rungs are pairwise different, decimal rendering included |
| Topology.DecimalRoundTrip | src/RabbitMQTopology.cpp:32 | the decimal rendering of a rung determines the rung |
| Topology.DeclareAll | src/RabbitMQTopology.cpp:37-71 | the nested loops add exactly the exchange, the queues of the topology and three bindings, and change nothing else the broker has; ArgumentsDeclared and ExpiryReturnsHome say what the queues' arguments are |
| Topology.ArgumentsDeclared | src/RabbitMQTopology.cpp:43-65 | a declared queue has a TTL and a dead-letter target if and only if it is a rung, and priority levels if and only if it is a main queue, as many as the weight of HIGH |
| Topology.NamesSpelled | src/RabbitMQTopology.cpp:5-35 | the exchange, queue names and routing keys as operators see them |
| PriorityOrder.WeightsFollowPriorities | include/notification/Enums.hpp:45-52 | with LOW before NORMAL before HIGH the weights are strictly increasing, and each is a level of a declared main queue |
| PriorityOrder.QueueFollowsPriorities | src/RabbitMQTopology.cpp:43-45 | in every reachable state, of two messages in one main queue the one whose row has the higher priority, and only it, has the larger envelope, within the queue's levels |
| Topology.AloneIsTopology | src/RabbitMQTopology.cpp:37-71 | on a broker with nothing of its own, fresh or declared on before, the result is the topology alone |
| Topology.DeclaredIffRouted | src/Worker.cpp:134-151 | a publish to rung k through the default exchange reaches that queue if k is between 1 and the number of delays and nothing otherwise; a publish to the dead-letter queue always arrives |
| Topology.LadderClosedIff | src/Worker.cpp:125-139 | every retry a worker may publish is routed if and only if maxRetries does not exceed the number of delays |
| Topology.TopicMatchesItselfOnly | src/RabbitMQTopology.cpp:9-16 | by the topic rules of section 3.1.3.3 of AMQP 0-9-1 a pattern without wildcard characters matches exactly itself |
| Topology.RoutedToOwnMainQueue | src/RabbitMQTopology.cpp:45-46 | a message published with a channel's routing key reaches that channel's main queue and no other |
| Topology.ExpiryReturnsHome | src/RabbitMQTopology.cpp:52-58 | a message that expires on any declared rung, after that rung's delay, is routed to its own channel's main queue and no other |
| Topology.ProtocolAgreesWithBroker | src/RabbitMQTopology.cpp:52-58 | the protocol keeps or drops a retry exactly as the declared broker routes or drops it |
| CircuitBreaking.CounterRefinesHistory | include/notification/CircuitBreaker.hpp:41-58 | in every interleaving failureCount_ is the number of failures since the last success or trip and stays below the threshold; outside HalfOpen a failure trips exactly when it brings that number to the threshold, in HalfOpen always |
| CircuitBreaking.HalfOpenDiscipline | include/notification/CircuitBreaker.hpp:22-58 | with calls told apart: the probe flag implies HalfOpen; a half-open episode admits one or two calls; while none of its calls ended in a permanent rejection each of them is outstanding, whatever calls admitted earlier did |
| CircuitBreaking.RunFollows | include/notification/CircuitBreaker.hpp:22-58 | telling calls apart restricts nothing: every run of the breaker is one of the machine with named calls |
| CircuitBreaking.TwoProbesAdmitted | include/notification/CircuitBreaker.hpp:28-36 | in every reachable open state whose window is over, two requests in a row are admitted and the third is refused |
| CircuitBreaking.StuckIffWedged | include/notification/CircuitBreaker.hpp:22-58 | no continuation whatsoever admits another call if and only if the breaker is half-open with its probe flag set and no admitted call is outstanding |
| CircuitBreaking.WedgeIsReachable | src/ProviderRouter.cpp:27-35 | for every threshold and duration some run from the start reaches that state through two permanent rejections |
| CircuitBreaking.FailFast | include/notification/CircuitBreaker.hpp:48-72 | after a trip at time t nothing is admitted before t + openDuration and the breaker does not close, whatever requests, failures and rejections follow, until an earlier call succeeds |
| CircuitBreaking.WindowStands | include/notification/CircuitBreaker.hpp:26-33 | after any run of early requests, rejections and failures short of a trip the breaker is open with the same window, and the next request is admitted exactly from the window's end on |
| CircuitBreaking.SuccessRecovers | include/notification/CircuitBreaker.hpp:41-46 | from every state with an outstanding call, open and half-open alike, a success closes the breaker, and every continuation with fewer failures than the threshold keeps it closed and admits every request |
| CircuitBreaking.CircuitBreaker.AllowRequest | include/notification/CircuitBreaker.hpp:22-39 | the imperative method makes the machine's request step and reports its answer |
| CircuitBreaking.CircuitBreaker.OnSuccess | include/notification/CircuitBreaker.hpp:41-46 | a success in any state leaves the breaker closed with no failure counted and no probe flag, and is the machine's success step |
| CircuitBreaking.CircuitBreaker.OnFailure | include/notification/CircuitBreaker.hpp:48-58 | the imperative method makes the machine's failure step |
| ConnectionPooling.NoLostWakeUp | src/Database.cpp:20-36 | with barging, spurious wakes and notify_one outside the lock: while any thread sleeps, available sessions do not outnumber the threads that are woken or about to notify |
| ConnectionPooling.NeverHeldTwice | src/Database.cpp:20-36 | in every schedule each session is in exactly one place, once, and none is lost |
| ConnectionPooling.NeverStuck | src/NotificationRepository.cpp:34-43 | with more sessions than HTTP threads, no schedule of nested and single acquisitions leaves a sleeper nobody can wake |
| ConnectionPooling.StuckIffTooFewSessions | src/NotificationRepository.cpp:34-43 | with at least one thread: some schedule gets stuck if and only if there are no more sessions than HTTP threads |
| ConnectionPooling.StuckForever | src/Database.cpp:20-36 | a stuck pool stays stuck: no continuation, spurious wakes included, moves a session or makes one available |
| ConnectionPooling.ConnectionPool.constructor | src/Database.cpp:7-18 | the pool starts with its sessions available in order, as the thread machine does |
| ConnectionPooling.ConnectionPool.TryAcquire | src/Database.cpp:20-28 | one pass through the locked section is the thread machine's step: it pops the front session into a fresh handle of the thread, or finds none and the thread sleeps |
| ConnectionPooling.ConnectionPool.ReleaseSession | src/Database.cpp:30-36 | a release is the thread machine's two steps, push at the back and notify one sleeper if there is one |
| ConnectionPooling.PooledSession.MoveFrom | include/notification/Database.hpp:28 | moving leaves the old handle empty and the new one owning the session |
| ConnectionPooling.PooledSession.Destroy | include/notification/Database.hpp:22-24 | a handle returns what it owns, once, as a release of the machine; a moved-from handle returns nothing |
| ConnectionPooling.LookUpWhileHolding | src/NotificationRepository.cpp:34-43 | if no other thread moves between the two acquisitions: the nested acquisition goes through exactly when two sessions are available, returns both, inner first, and leaves the thread with empty hands; otherwise the machine shows it asleep on an empty pool with what it holds |
| Service.WorkerThread.OnMessage | src/Worker.cpp:69-160 | one crash-free call leaves database, socket, breakers and journal exactly as AfterMessage says; a malformed body, an unknown id and a row that is SENT or CANCELLED are only acked, with tables and breakers untouched; any other message is counted, recorded and asked of the row's channel alone, and acked last; the breakers stay valid, so calls chain |
| Service.WorkerThread.CallIsRun | src/Worker.cpp:69-160 | that outcome is a run of Protocol: same tables, the journal's statements are the handler's steps one by one in order, the socket's frames are the run's, the results of its sends are the router's one answer (none if skipped), and it ends returned on the branch of that answer, touching no other delivery |
| Service.WorkerThread.StatementIsStep | src/Worker.cpp:87-158 | the statement that the journal has for a handler's step does what the step does, to both tables, the socket and the provider |
| Service.WorkerThread.Attempt | src/Worker.cpp:102-159 | past the status test the call marks PROCESSING, asks the row's channel's provider through its breaker, which changes as one send changes it, and takes the branch of the answer |
| Service.WorkerThread.Reschedule | src/Worker.cpp:127-142 | the retry branch records the transient failure, publishes attempt k+1 and acks, in that order by the journal; RetryReachesItsRung says which queue receives it |
| Service.WorkerThread.Park | src/Worker.cpp:143-158 | the final branch records the failure, publishes the original body to the dead-letter queue, marks DEAD_LETTERED and acks, in that order by the journal |
| Service.WorkerThread.FinishDelivered | src/Worker.cpp:112-120 | the success branch records, marks SENT, counts and acks, in that order by the journal |
| Routing.RetryReachesItsRung | src/Worker.cpp:132-142 | on the declared broker, a call whose transient failure is not the last issues attempt k+1 with its priority to exactly the queue of rung k of its channel, if the ladder has it and to no queue otherwise, and then its ack |
| Routing.FailureReachesDeadLetters | src/Worker.cpp:143-158 | a call that fails permanently or for the last time issues the original body to exactly its channel's dead-letter queue, and then its ack |
| Routing.AcceptedIsOnlyAcked | src/Worker.cpp:112-120 | a call whose message is accepted issues its ack alone |
| Routing.FrameArrives | src/Worker.cpp:134-158 | when a frame arrives, the protocol's new copy has its body and waits in exactly the queues that receive the AMQP frame |
| Routing.PostArrives | src/HttpServer.cpp:142-153 | so has the copy of a POST: HandlePost's frame is received by exactly the main queue in which the protocol has it |
| Routing.UnreadLeavesAsDeclared | src/RabbitMQTopology.cpp:43-65 | in every reachable state a waiting message is in one declared queue and can leave it unread exactly when that queue has a TTL and it is over, to exactly the queue the broker dead-letters it to |
| Service.EncodeInjective | src/Worker.cpp:134-158 | different protocol frames are different AMQP frames, by the uniqueness of queue names |
| Service.ProviderRouter.Send | src/ProviderRouter.cpp:18-36 | the breaker's history gains the request and what was reported: an accepted call a success, and the breaker is closed with no failure; a transient failure a failure at its end; a permanent rejection nothing; a refused call is a transient error that changes no field; the other channels' breakers stay as they are |
| Service.ProviderRouter.constructor | src/ProviderRouter.cpp:7-16 | each channel gets a closed breaker of its own |
| Service.ProviderRouter.BreakersDistinct | src/ProviderRouter.cpp:7-16 | two channels share a breaker only if they are the same channel |
| Service.NotificationRepository.InsertWithOutbox | src/NotificationRepository.cpp:34-76 | a known key returns its row and changes nothing; a new key adds exactly one PENDING row and its outbox event |
| Service.NotificationRepository.FindByIdempotencyKey | src/NotificationRepository.cpp:90-100 | finds a row of the key or knows there is none |
| Service.DeliveryAttemptRepository.RecordAttempt | src/DeliveryAttemptRepository.cpp:5-17 | one row per notification and attempt: the latest status wins, the channel of an existing row stays |
| Service.BuildPool | src/Worker.cpp:162-169 | the nested loops make workersPerChannel workers for each of the three channels, none for a non-positive number |
| Service.PoolStaffedIff | src/Worker.cpp:162-169 | every channel has a worker if and only if workersPerChannel is positive |
| Service.HttpServer.HandlePost | src/HttpServer.cpp:130-155 | one POST is a run of Protocol that returns the key's row, new or old, saved before the publish, and puts attempt 1 with the weight of the stored row on the publisher's socket in a frame that every declared broker puts on exactly the row's channel's main queue |

## Left out

- HTTP parsing, responses, the accept loop and JSON text: a POST is a step, a message body a record.
- AMQP-CPP, MySQL Connector and RabbitMQ internals, publisher confirms, connection set-up, and the order in which a
  priority queue picks messages: any queued message may be delivered next.
- Mock provider randomness and latency: the answer of a send is a parameter, chosen at the moment the send returns.
- A SQL error inside `onMessage` ends the process in the code; the model treats it as a crash at that statement.
- `findByNotificationId`, `list`, enum strings and row conversion: reads that would only add easy members.
- FAILED, CANCELLED and an outbox poller: no code performs them; CANCELLED is only read by the status test.
- Numbers are unbounded: no 32-bit wrap of attempt numbers or counters; retry delays and the breaker's open duration are not negative.
- Redeclaring a queue with other arguments: RabbitMQ refuses it; `DeclareAll` starts from a broker none of whose queues
  has a name of the topology and other arguments.
- Workers of one process die together in the code; here each can die alone, which only adds runs.
- A queue's order is not a step of the protocol: `QueueFollowsPriorities` says which of two messages a priority queue
  prefers.
- Wire: a worker may start any of its undelivered prefetched messages next, which includes the broker's order.
- Blocking in `acquire` is a state of the thread machine; the class method models one pass through the locked section.

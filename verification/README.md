# Verification of the RabbitMQ plugin

A Dafny model of the stateful cores of the Lynx RabbitMQ plugin, and proofs of what they promise
over every run.

The concurrent parts are systems of interleaved atomic steps. A state holds the shared fields and
the position of every goroutine; a run is a sequence of steps, each enabled in the state before
it; the theorems speak of the state after every run. A class beside each system has the Go
object's fields, and each of its methods is one atomic step, proved equal to the step of the
system. Panics of the Go runtime (send on or close of a closed channel, negative wait group) are
a flag of the state that is proved never to be set. The `Traces` modules tie every record of a state
to the steps of the run that made it: what was submitted, delivered, returned, registered or answered.

- `Pool`, `PoolInvariant`, `PoolProperties`, `PoolTraces`, `GoroutinePool`: the goroutine pool. The lock is
  Go's writer-preferring RWMutex: an announced writer keeps new readers out. A task may call back
  into the pool, and then ends only after its call has returned.
- `Watcher`, `WatcherProperties`, `WatcherTraces`, `ConnectionManager`: the connection manager and
  its watchers;
  `Backoff`: the back-off arithmetic with explicit 64-bit wrap-around.
- `Delivery`, `DeliveryInvariant`, `DeliveryProperties`, `DeliveryTraces`, `Shutdown`, `Draining`,
  `Connections`, `Dispatching`: broker, dispatch loops, cleanup and the connections they use. The broker follows the explicit acknowledgement model in section 3.1.8 of the AMQP
  0-9-1 specification. A session is one call of startDispatchLoop with the channel and the
  goroutine that only it uses.
- `Rebuild`: registered channels, subscriptions and the rebuild after a reconnect, sequential,
  with a network oracle that may fail at any operation; `Histories`: the loops of a subscription over
  any calls and dropped connections; `Overlap`: Subscribe calls interleaved with a rebuild.
- `Config`: in-place normalisation of possibly repeated and nil records; `Retry`: the retry loop;
  `Publish`: publish accounting; `Lifecycle`: the readiness contract; `Names`, `Errors`, `Options`, `Sums`:
  shared definitions.

The Go client object appears as one class per concern (`Dispatching`, `Rebuild`, `Publish`,
`Lifecycle`), each with the fields that concern uses.

Where a property of the code fails, a concrete run shows it and a two-way statement says exactly
when it holds: calls that wait for their own task (`Doomed`), flag writes of ForceReconnect
(`ForceFits`), loops registered during a shutdown (`Harmful`), deliveries whose channel was lost
before they were settled (`Lost`), loops that nothing lets out of their select (`CanLeave`),
cleanups called by a handler (`NoHandlerWaits`), ready clients that are not connected (`LostSince`),
back-offs of 2^62 ns and more.

Where comments and code disagree the model follows the code: the comment on Subscribe
(client.go:884-886) speaks of a goroutine for each message, while the loop (client.go:998-1011)
handles the messages of a subscription one after the other.

## Model

| member | source | states |
|---|---|---|
| PoolInvariant.RunsKeepInv | pool.go:16-90 | The lock, closing, worker, queue, place, run and caller invariants hold after every interleaving of Submit, Wait, Close, IsClosed, workers and tasks that call back |
| PoolProperties.ChannelSafety | pool.go:18-68 | After every run: no send on a closed task channel, no second close, no negative wait group, the queue is within its size, and sends equal receives followed by the queue, so tasks start first-in first-out |
| PoolProperties.Conservation | pool.go:43-59 | The task of a Submit is in at most one of queued, inline and dropped, in exactly one once the call returned; dropped only if the pool is closed; started at most once, never if nil or dropped; finished at most as often as started |
| PoolProperties.TurnedAway | pool.go:47-58 | A step that turns a task inline found the queue full; a step that drops one found the pool closed |
| PoolProperties.Drain | pool.go:61-83 | When any Wait or Close has returned, the queue is empty, all workers are gone, no inline task runs, and every accepted non-nil task has started once and finished once |
| PoolProperties.Progress | pool.go:34-90 | Deadlock freedom: as long as no call is doomed, some call or worker can move whenever a call has not returned; for a pending Submit or IsClosed some call can |
| PoolProperties.DoomedForGood | pool.go:43-90 | A doomed call never returns in any continuation: the Wait or Close a task makes, or the Submit or IsClosed an inline task makes while a closer is announced |
| PoolProperties.CarefulNeverDoomed | pool.go:43-90 | No call is ever doomed when tasks do not call Wait or Close and make their other calls only from workers; nor when nobody closes, however deep the inline runs nest |
| PoolProperties.InlineTaskMustNotSubmit | pool.go:44-57 | A run, on a pool with one worker, that dooms a call: a task running inline submits while a closer is announced |
| PoolProperties.InlineTaskMustNotAsk | pool.go:86-90 | The same for IsClosed: it takes the read lock too |
| PoolProperties.AnswersHold | pool.go:86-90 | IsClosed answers true only for a pool that is closed from then on, and false only to a call that held the read lock on an open pool |
| PoolProperties.MeasureDecreases | pool.go:31-83 | Every step of a call or worker strictly decreases a measure over calls, queue and workers |
| PoolProperties.InternalRunsAreBounded | pool.go:31-83 | Without new calls every run is finite, its length bounded by the measure |
| PoolProperties.QuietMeansReturned | pool.go:43-90 | In a run that cannot be continued every Submit, Wait, Close and IsClosed has returned if and only if no call is doomed |
| PoolProperties.RunsOnceOrDropped | pool.go:34-59 | In such a run without doomed calls, closed or not, every non-nil task was dropped by a closed pool and never started, or has started once and finished once |
| PoolTraces.CallsTrace | pool.go:43-90 | The calls of every run are those that were made, in order, each of its kind and with the argument and the caller of its step |
| PoolTraces.SubmittedRunsOnce | pool.go:34-59 | In a run that cannot be continued, without doomed calls, every function that was submitted was dropped by a closed pool and never started, or has started once and finished once |
| PoolTraces.SubmittedDrained | pool.go:61-83 | When any Wait or Close has returned, every function submitted by a call that has returned was dropped by the closed pool, or has started once and finished once |
| PoolTraces.OnlySubmittedRuns | pool.go:34-57 | Whatever starts is a function that some Submit call was given |
| PoolProperties.WorkersDrainAfterClose | pool.go:34-38 | After closing no step adds work for the workers and every worker step removes some; while any is left a worker can move or all remaining ones wait for calls of their own tasks; none is left exactly when the wait group is zero |
| GoroutinePools.GoroutinePool.constructor | pool.go:16-28 | The new pool has the given queue size, one receiving worker and one wait-group unit per slot |
| GoroutinePools.GoroutinePool.CallSubmit | pool.go:43 | A Submit call arrives with its own identity; everything else is unchanged |
| GoroutinePools.GoroutinePool.RLock | pool.go:44 | The read lock is taken only when no writer is announced or holds the lock |
| GoroutinePools.GoroutinePool.TestClosed | pool.go:47-49 | On a closed pool the task is dropped, otherwise the call goes on to the select |
| GoroutinePools.GoroutinePool.SendOrRun | pool.go:51-58 | The channel is open at the select; the task is queued if there is room, else it starts inline, a nil task being skipped |
| GoroutinePools.GoroutinePool.FinishInline | pool.go:55-57 | An inline task ends under the read lock |
| GoroutinePools.GoroutinePool.RUnlock | pool.go:45 | The read lock is released when Submit returns |
| GoroutinePools.GoroutinePool.CallClose | pool.go:62 | A Wait or Close call arrives |
| GoroutinePools.GoroutinePool.Announce | pool.go:63 | A writer announces itself, so that new readers wait |
| GoroutinePools.GoroutinePool.Lock | pool.go:63 | The write lock is held only after all earlier readers left |
| GoroutinePools.GoroutinePool.CloseChannel | pool.go:64-65 | The task channel is closed unless that was done, and never twice |
| GoroutinePools.GoroutinePool.SetClosed | pool.go:66 | The closed flag is set under the write lock |
| GoroutinePools.GoroutinePool.Unlock | pool.go:68 | The write lock is released and the call waits for the workers |
| GoroutinePools.GoroutinePool.WaitReturns | pool.go:70 | Wait returns only when the wait group is zero |
| GoroutinePools.GoroutinePool.Receive | pool.go:34-37 | A worker receives the oldest task and starts it unless it is nil, or leaves when the channel is closed and empty |
| GoroutinePools.GoroutinePool.FinishTask | pool.go:36 | A worker ends its task and receives again |
| GoroutinePools.GoroutinePool.Leave | pool.go:32 | A worker that left its loop releases the wait group, which stays non-negative |
| GoroutinePools.GoroutinePool.CallQuery | pool.go:86 | An IsClosed call arrives |
| GoroutinePools.GoroutinePool.QueryLock | pool.go:87 | It takes the read lock only when no writer is announced or holds the lock |
| GoroutinePools.GoroutinePool.Answer | pool.go:88-89 | It answers with the flag and releases the read lock |
| Backoff.ClosedForm | managers.go:251-254 | For a first wait 0 < b < 2^62 ns the k-th wait, k >= 1, is min(b * 2^k, 30s) |
| Backoff.ClosedFormExactly | managers.go:380-383 | For 0 < b < 2^63 every later wait has the closed form if and only if b < 2^62; from there the doubling wraps to a negative wait |
| Backoff.NoOverflow | managers.go:251-254 | No doubling of any wait exceeds 64 bits, and every wait after the first is at most 30s |
| Backoff.TotalBound | managers.go:372-383 | n waits together are at most b + 30s * (n - 1), for every first wait b, wrap-around included |
| Backoff.ReconnectWait | managers.go:223-254 | The k-th reconnect wait is min(500ms * 2^k, 30s) |
| Backoff.ReconnectTable | managers.go:223-254 | The reconnect waits in nanoseconds: 0.5s, 1s, 2s, 4s, 8s, 16s and from then on 30s |
| Backoff.ReconnectTotal | managers.go:223-254 | n reconnect waits together are 500ms * (2^n - 1) for n <= 6 and 31.5s + 30s * (n - 6) for n >= 6 |
| Watcher.RunsKeepInv | managers.go:189-320 | The stop, lineage and wait invariants hold after every run of Start, Stop, ForceReconnect and watchers |
| WatcherProperties.Population | managers.go:198-274 | A lineage never has two active watchers, active watchers never outnumber Start calls, and stopChan is closed at most once, never twice, under any number of Stop calls |
| WatcherProperties.BackoffSchedule | managers.go:223-255 | In every run the waits of every watcher, and their total, follow the closed form |
| WatcherProperties.FlagAgreesIff | managers.go:189-320 | With one Start and before any Stop, connected is true exactly when the lineage is not in its reconnect loop, after every prefix of the run, if and only if every flag write of a ForceReconnect fits: it clears only while the flag should be false and sets only while it should be true |
| WatcherProperties.ForceWrites | managers.go:300-320 | From any state, a flag write of ForceReconnect leaves agreement exactly when it fits; its callback in between changes nothing |
| WatcherProperties.FlagAgrees | managers.go:189-241 | In particular the flag agrees as long as ForceReconnect is not called |
| WatcherProperties.ForceReconnectBreaksAgreement | managers.go:309-320 | ForceReconnect breaks that agreement: a run in which the flag is false while the watcher is watching |
| WatcherProperties.WatchersTerminate | managers.go:205-256 | Once stopChan is closed the watchers take at most as many steps as their ranks add up to, plus three per watcher still launched |
| WatcherProperties.WatcherNotStuck | managers.go:205-256 | After stopChan is closed an active watcher can always move, whatever its callback answers |
| WatcherProperties.AtMostOneMoreReconnect | managers.go:224-231 | After stopChan is closed a lineage begins at most one more reconnect call, and only if its watcher had already passed the stop check |
| WatcherProperties.FlagAfterStop | managers.go:231-266 | After stopChan is closed, without Start and ForceReconnect, connected can turn true only through a reconnect that was in flight and whose callback succeeded |
| WatcherTraces.LineageGoesOn | managers.go:205-256 | Until stopChan is closed a lineage has exactly one active watcher from its launch on, through errors, failed and successful reconnects, unless its notify channel was closed without an error, and then none |
| WatcherTraces.WatcherTrace | managers.go:205-256 | Each watcher is where the broker and the callback sent it: it reconnects after a reported error, leaves the loop after a success, exits after a clean close, a success or stopChan; it has requested one wait for each of its failed callbacks |
| WatcherTraces.ErrorLeadsToReconnect | managers.go:207-241 | A watcher that was told of an error does not exit, while stopChan is open, before a callback of its own has succeeded; no watcher reconnects without an error |
| WatcherTraces.RegistrationTrace | managers.go:173-185 | Channel and callback are those registered last |
| WatcherTraces.StartTrace | managers.go:189-200 | A Start launches a watcher if and only if channel and callback were both registered when it was called, and has done so if and only if its go statement was reached |
| WatcherTraces.ForceTrace | managers.go:293-320 | A ForceReconnect calls back if and only if a callback was registered when it was called, and is about to set the flag if and only if that callback answered with success |
| WatcherTraces.FlagTable | managers.go:189-320 | Every write of the flag: Start and a success set it, Stop and an error clear it, ForceReconnect clears it before the callback and sets it without one or after success; nothing else writes it |
| WatcherTraces.StopTrace | managers.go:259-274 | stopChan is closed exactly when the first Stop call has returned |
| ConnectionManagers.ConnectionManager.constructor | managers.go:164-169 | A new manager is not connected, not stopped and has no watcher |
| ConnectionManagers.ConnectionManager.SetConnectionNotify | managers.go:181-185 | A notify channel is registered, or nil again |
| ConnectionManagers.ConnectionManager.SetReconnectFunc | managers.go:173-177 | A reconnect callback is registered, or nil again |
| ConnectionManagers.ConnectionManager.Start | managers.go:189-194 | The flag is set and whether to launch is decided in one critical section |
| ConnectionManagers.ConnectionManager.Launch | managers.go:198-200 | A watcher of a new lineage starts exactly when both channel and callback were registered |
| ConnectionManagers.ConnectionManager.Stop | managers.go:259-268 | The flag is cleared; only the first Stop goes on to the close |
| ConnectionManagers.ConnectionManager.StopSelects | managers.go:269-271 | Stop looks whether stopChan is closed |
| ConnectionManagers.ConnectionManager.StopCloses | managers.go:272-274 | stopChan is open when Stop closes it |
| ConnectionManagers.ConnectionManager.ForceReconnect | managers.go:293-296 | ForceReconnect fetches the callback |
| ConnectionManagers.ConnectionManager.ForceMoves | managers.go:300-320 | Without a callback the flag ends true; with one it is cleared, the callback runs, and success sets it again; no notify channel is registered |
| ConnectionManagers.ConnectionManager.NotifyReceives | managers.go:207-212 | A broker error starts the reconnect; a channel closed without error ends the watcher |
| ConnectionManagers.ConnectionManager.SeesStop | managers.go:213-214 | A watcher that sees stopChan closed in a select exits |
| ConnectionManagers.ConnectionManager.MarkDisconnected | managers.go:217-223 | The flag is cleared before the reconnect loop, which starts with 500ms |
| ConnectionManagers.ConnectionManager.CheckStop | managers.go:225-229 | The loop exits when stopChan is closed, else it may call back |
| ConnectionManagers.ConnectionManager.BeginReconnect | managers.go:231 | The callback is called only after the stop check passed |
| ConnectionManagers.ConnectionManager.ReconnectReturns | managers.go:231-244 | Success leads out of the loop; failure requests a timer of the current back-off |
| ConnectionManagers.ConnectionManager.MarkConnected | managers.go:232-235 | The flag is set after a successful callback |
| ConnectionManagers.ConnectionManager.Respawn | managers.go:237-240 | The watcher hands over to exactly one successor of its lineage and exits |
| ConnectionManagers.ConnectionManager.TimerFires | managers.go:249-254 | The back-off is doubled and capped, stays positive and does not overflow |
| DeliveryInvariant.RunsKeepInv | client.go:950-1055 | Partition of messages, evidence for settlements, their effect at the broker, per-session bookkeeping and counters hold after every run |
| DeliveryProperties.ExactlyOnePlace | client.go:998-1055 | Every published message is in exactly one place after every run: ready, unsettled under one tag of one channel, acknowledged, rejected, or auto-acknowledged |
| DeliveryProperties.SettledOnlyAfterHandling | client.go:1019-1055 | A message is acknowledged only under a delivery of it whose recorded outcome is success, rejected only under one whose outcome is failure, and no settlement carries a tag the broker does not expect |
| DeliveryTraces.SettledForItsResult | client.go:1019-1055 | A message is acknowledged only if a step of the run is the return of nil by the handler for that very delivery, and rejected only if it is the return of an error or a panic |
| DeliveryTraces.OutcomesReturned | client.go:1023-1031 | Every recorded outcome is what the handler returned for that delivery, a panic counting as failure |
| DeliveryTraces.SessionTrace | client.go:950-1031 | A session has exactly the deliveries and handler results of the run, in order; its context and consumer have ended exactly if a step says so; it was opened over the connection, queue and acknowledgement mode it has |
| DeliveryTraces.MetricsCountReturns | client.go:1033-1040 | received counts the handler calls of the run that returned nil, failed those that returned an error or panicked, less those not counted yet |
| DeliveryTraces.StartTrace | client.go:976-989 | A start goes on to consume if and only if QoS and Consume succeeded, and gives up if and only if one of them failed |
| DeliveryTraces.LiveTrace | client.go:990-1013 | The broker has the channel of a session exactly until the first step that cuts it: its loss, the loss of its connection, the close by its own goroutine or of its connection |
| DeliveryTraces.PublishedTrace | client.go:998-1055 | The published messages are those of the publish steps |
| DeliveryProperties.HeldByLiveLoop | client.go:989-1013 | An unsettled message lies in the inbox or the hand of a session that still has to close its live channel |
| DeliveryProperties.NoLoopHoldsNothing | client.go:989-1013 | When the wait group is zero and no start is under way every message is settled or back in its queue |
| DeliveryProperties.OneSettlementPerDelivery | client.go:1042-1054 | Deliveries are settled once each, in order, with the result of their handler; only the one in hand may owe its settlement; with autoAck there is none |
| DeliveryProperties.SettlesIffLive | client.go:1045-1054 | An Ack or Nack settles its message if and only if the broker still had the channel when it was sent; on a channel still alive all of them did |
| DeliveryProperties.ReadyIff | client.go:998-1055 | A published message is ready if and only if every delivery of it so far was lost: its channel went before it was settled; so only then is it delivered again |
| DeliveryProperties.KeptOnce | client.go:998-1055 | At most one delivery of a message is not lost |
| DeliveryProperties.HandledStaysUnlessLost | client.go:1045-1053 | A message whose handler returned nil is ready or kept by another delivery only if its channel was lost before the Ack; an Ack over a live channel acknowledges it |
| DeliveryProperties.MetricsConserved | client.go:1033-1054 | received + failed is the number of deliveries taken less those not yet counted; received splits into Acks sent, Acks due and automatic ones, failed in the same way |
| Shutdown.ShutdownOrder | client.go:351-402 | Without harmful starts cleanup closes channels and connection only while no loop is registered, no loop settles on a channel or over a connection the client closed, and closeChan is closed at most once |
| Shutdown.ShutdownOrderIff | client.go:351-402 | The condition is exact: a run has no harmful start, that is none between the drain and the closes of a cleanup and none on a channel the client closed that owes settlements, if and only if from no prefix of it the order can be broken without registering another loop |
| Shutdown.DrainedLeavesNothingHeld | client.go:365-367 | From the drain of a cleanup until another loop is registered no message is left unsettled |
| Shutdown.HandlerCleanupNeverReturns | client.go:365-367 | A cleanup called by a handler never returns in any continuation: it waits for the loop that waits for it, and the wait group stays above zero for every other cleanup too |
| Draining.DrainIff | client.go:998-1013 | The wait group can reach zero by steps of the loops alone if and only if no handler waits for a cleanup and every registered loop is leaving, or closeChan is closed, its context has ended, its channel is lost or the broker has cancelled its consumer |
| Draining.IdleIff | client.go:999-1009 | A registered loop cannot move if and only if its handler waits for a cleanup, or it waits with nothing to take and neither closeChan, its context nor the end of the deliveries lets it leave |
| Draining.LoopsLeave | client.go:998-1013 | Where every loop can leave, they drain the wait group in at most as many steps as they have left |
| Draining.SessionStepsBounded | client.go:950-1055 | In every run the sessions take at most five steps for each start and four for each delivery |
| Draining.RestingMeansDrained | client.go:999-1013 | Once closeChan is closed, loops that can take no step have all released the wait group if and only if no handler waits for a cleanup, in whatever order they were scheduled |
| Draining.ClosedForGood | client.go:353-355 | A cleanup past its signal has closed closeChan, nothing opens it again, and from then on every registered loop, of whichever start, can leave if and only if no handler waits for a cleanup |
| Draining.CleanupCanGoOnIff | client.go:365-367 | A cleanup that waits for the loops can still go on, by whatever steps, if and only if no handler waits for a cleanup; then steps of the loops are enough |
| Draining.HandlerMustNotCleanUp | client.go:365-367 | A run in which it cannot: a handler calls a cleanup |
| Connections.OpenIff | client.go:393-436 | After every run a dialed connection is open if and only if the broker has not dropped it and no cleanup closed it while it was the current one |
| Connections.OpenAfterCleanup | client.go:393-401 | The step that finishes a cleanup leaves open exactly the connections that were open and not current |
| Connections.ReplacedNeverClosed | client.go:423-429 | A connection that is not current any more is never closed by the client in any continuation; it stays open exactly as long as the broker does not drop it |
| Connections.CleanupLeavesReplacedOpen | client.go:393-401 | A run that leaves a replaced connection open after a finished cleanup |
| DeliveryProperties.HandledMessageCanReturn | client.go:1045-1053 | Exactly-once does not hold: a run in which a message whose handler returned nil is ready again |
| Shutdown.LateStartBreaksShutdown | client.go:942-989 | A run with a harmful start: cleanup closes the connection under the loop, which settles on its closed channel |
| Dispatching.RabbitMQClient.constructor | client.go:72-91 | A new client has no connection, session or message |
| Dispatching.RabbitMQClient.ReleaseChannel | client.go:992 | A closed channel gives its unsettled messages back |
| Dispatching.RabbitMQClient.ReleaseChannels | client.go:393-401 | A closed connection closes every channel opened on it |
| Dispatching.RabbitMQClient.Connect | client.go:411-418 | A fresh live connection becomes the current one |
| Dispatching.RabbitMQClient.OpenChannel | client.go:964-974 | A start opens a dedicated channel on the live connection, with the caller's context or, for a restart, the background one |
| Dispatching.RabbitMQClient.ConsumeReturns | client.go:976-987 | QoS and consume succeed or the start is refused |
| Dispatching.RabbitMQClient.StartGoroutine | client.go:989-990 | The wait group counts the loop before it runs |
| Dispatching.RabbitMQClient.GiveUp | client.go:977-987 | A refused start closes its channel |
| Dispatching.RabbitMQClient.Take | client.go:1006-1010 | The loop takes the next delivery in order |
| Dispatching.RabbitMQClient.HandlerReturns | client.go:1023-1031 | The handler result is recorded, a panic as an error; a handler that called a cleanup returns after it |
| Dispatching.RabbitMQClient.RecordMetrics | client.go:1033-1044 | Success counts as received and failure as failed; with autoAck the dispatch ends |
| Dispatching.RabbitMQClient.AckOrNack | client.go:1045-1054 | The delivery in hand is acknowledged or rejected, single and without requeue; on a dead channel the broker is unchanged |
| Dispatching.RabbitMQClient.Exit | client.go:999-1009 | The loop leaves its select only when closeChan is closed, its context has ended, its channel is lost, or its cancelled consumer has no delivery left |
| Dispatching.RabbitMQClient.CloseLoopChannel | client.go:992 | The leaving loop closes its channel |
| Dispatching.RabbitMQClient.Done | client.go:991 | The loop releases the wait group last |
| Dispatching.RabbitMQClient.CallCleanup | client.go:344-349 | A cleanup call arrives, from outside or from a handler |
| Dispatching.RabbitMQClient.SignalClose | client.go:351-355 | closeChan is closed once over all cleanups |
| Dispatching.RabbitMQClient.Drain | client.go:365-367 | Cleanup goes on only when no loop is registered |
| Dispatching.RabbitMQClient.CloseRegistered | client.go:373-391 | The registered channels are closed |
| Dispatching.RabbitMQClient.CloseConnection | client.go:393-402 | The current connection is closed and forgotten; one that was lost already stays as it is |
| Config.SucceedsIff | client.go:156-235 | Normalisation succeeds exactly when URLs are non-empty, entries are present, enabled ones are named, exchange types are known or empty and retries are not negative |
| Config.FixedPoint | client.go:156-235 | The normalised configuration is accepted again and normalises to itself |
| Config.Sufficient | client.go:604-611 | After success the exchange-type check of createProducer passes, retries are at least one, the back-off is positive, queues and limits are usable |
| Config.CommonDefaults | client.go:160-179 | The default of every common field, spelled out; present fields stay |
| Config.ProducerDefaults | client.go:181-211 | The default of every producer field, spelled out; present fields stay |
| Config.ConsumerDefaults | client.go:213-232 | The default of every consumer field, spelled out; present fields stay |
| Config.NormalEntries | client.go:156-235 | Every entry is normalised, enabled or not, and nil entries stay nil |
| Config.FirstOffence | client.go:160-232 | A configuration is refused for its first empty URL, else for its first offending producer, else for its first offending consumer, and accepted otherwise |
| Config.ProducerOffence | client.go:181-205 | The offences of a producer entry in their order: nil, enabled without a name, unknown exchange type, negative retries |
| Config.ConsumerOffence | client.go:213-219 | The offences of a consumer entry: nil, enabled without a name |
| Config.ProducerFacts | client.go:181-211 | For one producer record: normalising only fills absent or out-of-range fields, is idempotent and does not change the verdict |
| Config.ConsumerFacts | client.go:213-232 | The same for one consumer record |
| Config.Producer.Normalize | client.go:181-211 | A record is normalised in place or the first offence is reported; in either case only absent or out-of-range fields change |
| Config.Producer.FillExchange | client.go:188-193 | Exchange and exchange type default when empty |
| Config.Producer.FillLimits | client.go:199-210 | Timeout, retries and back-off default; negative retries are an error reported before the back-off is touched |
| Config.Producer.Visit | client.go:181-211 | A record met again in the list keeps its normal form and its verdict |
| Config.Consumer.Normalize | client.go:213-232 | A consumer record is normalised in place or reported |
| Config.Consumer.FillNames | client.go:220-225 | Queue and tag default when empty |
| Config.Consumer.FillLimits | client.go:226-231 | Concurrency and prefetch default when not positive |
| Config.Consumer.Visit | client.go:213-232 | A consumer record met again keeps its normal form and its verdict |
| Config.NormalizeProducers | client.go:181-211 | A list with repeated and nil references: the error is the first offence of the original values; on success every entry shows its normal form; otherwise only absent fields changed |
| Config.NormalizeConsumers | client.go:213-232 | The same for the consumer list |
| Config.RabbitMQ.CheckUrls | client.go:160-167 | An empty URL list gets the default; the first empty URL is reported |
| Config.RabbitMQ.FillCommon | client.go:168-179 | The common fields default when absent or not positive |
| Config.RabbitMQ.Normalize | client.go:160-234 | The whole configuration: first offence in the order URLs, producers, consumers, or the normal form of every field |
| Config.NormalizeConfig | client.go:156-235 | A nil configuration is its own error; otherwise the first offence or the normal form, and in either case only absent or out-of-range fields change |
| Config.NormalizeTwice | client.go:156-235 | A second call on the result succeeds and leaves every field as it is, also with aliased entries |
| Retry.SpecifiedIsUnique | managers.go:341-387 | The specification determines result, calls and waits |
| Retry.Promises | managers.go:337-387 | At most maxRetries + 1 calls, none after a success or a seen cancellation; nil exactly when the last call succeeded; else the context error or one that unwraps to the last error |
| Retry.WaitsClosedForm | managers.go:353-383 | The first wait is uncapped, the k-th is min(b * 2^k, 30s) |
| Retry.WaitBound | managers.go:372-383 | There are at most maxRetries waits, together at most b + 30s * (maxRetries - 1), for every back-off and retry count |
| Retry.DoubleBackoff | managers.go:380-383 | Doubling with 64-bit wrap-around, then the cap |
| Retry.RetryLoop | managers.go:352-387 | The loop meets the specification for every operation, cancellation and retry count, negative ones included |
| Retry.RetryHandler.Settings | managers.go:342-350 | Retries and back-off come from the first producer, else the defaults |
| Retry.RetryHandler.SettingsAfterNormalisation | managers.go:345-350 | With a normalised configuration the loop has at least one retry and a positive back-off |
| Retry.RetryHandler.DoWithRetry | managers.go:341-387 | The call meets the specification with the configured settings |
| Names.ValidateExchange | utils.go:15-28 | Nil exactly for a non-empty name of at most 255 octets without a banned character; the empty and the invalid name have their own errors; never a publish failure |
| Names.ValidateQueue | utils.go:32-45 | Nil exactly for a usable queue name; the empty and the invalid name have their own errors |
| Names.ValidateExchangeType | utils.go:49-56 | Nil exactly for one of the four exchange types |
| Names.BannedExactly | utils.go:11 | The twelve banned characters |
| Names.UsableExactly | utils.go:11-28 | Usable names: not empty, at most 255 octets, none of the twelve characters |
| Names.OctetsExactly | utils.go:19 | The octets of a character in UTF-8 |
| Rebuild.GetEnabledProducers | client.go:726-734 | Exactly the enabled producers, in order |
| Rebuild.GetEnabledConsumers | client.go:737-745 | Exactly the enabled consumers, in order |
| Rebuild.RabbitMQClient.constructor | client.go:72-91 | A new client has no connection, subscription or loop |
| Rebuild.RabbitMQClient.OpenChannel | client.go:613-638 | A channel stays open, with the given operations run on it in order, exactly when every network operation succeeded; after a failing one none is left open |
| Rebuild.RabbitMQClient.CreateProducer | client.go:602-646 | Succeeds exactly when names pass and the network holds, and then registers a fresh open channel of the connection on which the exchange was declared and confirms were enabled; otherwise registers nothing and leaves no open channel |
| Rebuild.RabbitMQClient.CreateConsumer | client.go:655-723 | The same for a consumer, with its prefetch count and its queue with the dead-letter arguments |
| Rebuild.RabbitMQClient.CreateProducers | client.go:579-583 | One channel per entry in order, stopping at the first failure |
| Rebuild.RabbitMQClient.CreateConsumers | client.go:589-593 | The same for consumers |
| Rebuild.RabbitMQClient.InitializeProducers | client.go:578-585 | The map gains nothing but enabled names with open channels of the connection, and all of them on success; fails exactly on a network fault or a bad name |
| Rebuild.RabbitMQClient.InitializeConsumers | client.go:588-595 | The same for consumers |
| Rebuild.RabbitMQClient.FindConsumer | client.go:952-962 | The settings of the first consumer with the name, or the zero values |
| Rebuild.SettingsOfFirst | client.go:952-962 | The settings are those of the first entry with the name, and the zero values without one |
| Rebuild.RabbitMQClient.StartDispatchLoop | client.go:950-1014 | Starts one loop with the configured autoAck on a fresh channel of the connection, after its prefetch count and a consume of the queue, exactly when there is a connection and the network holds; else no loop and no open channel |
| Rebuild.RabbitMQClient.SubscribeWithChannel | client.go:932-943 | The subscription is recorded even when its loop does not start; it returns nil exactly when there is a connection and the network holds, and then one loop has started |
| Rebuild.RabbitMQClient.SubscribeWith | client.go:907-923 | Returns nil exactly for a usable queue name, a registered consumer, a connection and a network that holds; a bad queue name or an unknown consumer has its own error and records and starts nothing |
| Rebuild.RabbitMQClient.RestartSubscriptions | client.go:470-486 | One more loop for each recorded subscription whose consumer is registered, in order, or for a prefix of them when a start fails |
| Rebuild.RabbitMQClient.RebuildChannels | client.go:453-468 | Both maps are replaced: only enabled names on open channels of the connection, exactly those on success; fails exactly on a network fault or a bad name |
| Rebuild.RabbitMQClient.RebuildAfterReconnect | client.go:452-490 | Success exactly when the network holds and all names pass; then the maps hold exactly the enabled names on open channels of the connection and one more loop per recorded subscription is bound to it |
| Rebuild.RabbitMQClient.Reconnect | client.go:422-438 | On a freshly dialed connection, whatever earlier rebuilds left: success gives the same maps and exactly one loop per recorded subscription on it; a partial failure keeps the loops it started, one more for each of the first subscriptions |
| Rebuild.RabbitMQClient.ReconnectRepeatedly | managers.go:224-241 | The first success after any number of failed attempts leaves the same picture |
| Histories.RunCalls | client.go:422-486 | Over any Subscribe and Reconnect calls on a new client, with connections dropped in between: every event is explained by its call and the network, both ways; the loops started for a subscription, on any set of connections, are one for its own start if that succeeded and one for every later reconnect that got as far as restarting it; right after a reconnect exactly one of them is on a live connection if and only if every earlier connection it was started on was dropped |
| Histories.ExactlyOneLoop | client.go:427-436 | The two-way statement about the loops after a reconnect, for any accounted history; a forced reconnect over a healthy connection leaves two |
| Histories.AliveIff | client.go:422-438 | A connection of a history is alive if and only if some reconnect dialed it and no event dropped it |
| Overlap.RunsKeepInv | client.go:427-486 | Counts, identities and what each Subscribe has read hold after every interleaving of Subscribe calls with a rebuild |
| Overlap.OneLoopOrTwo | client.go:471-486 | Beside a rebuild that succeeds, a Subscribe that returned nil has one loop on the new connection or two, never none; two if and only if it was recorded before the copy of the subscriptions and read the connection after it was stored; one that returned an error has a loop if and only if it was recorded before the copy |
| Overlap.TwoLoopsIff | client.go:471-486 | The same in terms of the order of events: two loops exactly when the step that records precedes the copy and the step that reads the connection follows its store |
| Overlap.CopiedIff | client.go:471-474 | A subscription is among those copied if and only if it was recorded before the copy |
| Overlap.RenewedIff | client.go:965-967 | A start uses the new connection if and only if it read it after it was stored |
| Overlap.LoopsOfCall | client.go:934-970 | At any moment its loops on the new connection are one if the rebuild has restarted it and one if its own start went there |
| Overlap.EarlierSubscriptions | client.go:470-486 | Whatever subscribes meanwhile, a subscription from before has exactly one loop on the new connection |
| Overlap.TwoLoops | client.go:427-486 | A run with two loops |
| Publish.Accounting | client.go:784-858 | Over any sequence of calls sent grows by the nil results, failed by the results matching ErrPublishMessageFailed, and the channels see one message for each of those |
| Publish.OneCall | client.go:817-858 | A lookup or validation error leaves counters and broker untouched; nil and publish failures exclude each other |
| Publish.HandsOver | client.go:817-858 | A request that reaches the network hands exactly its exchange, routing key and body to the channel of its producer and returns nil if it was accepted, else a publish failure; any other hands over nothing |
| Publish.RefusalExactly | client.go:784-826 | Every refusal with its condition and its error |
| Publish.HandedInOrder | client.go:784-858 | Over any sequence the channels see the requests that reach the network, in order |
| Publish.RefusalIsNotFailure | errors.go:67-82 | No lookup or validation error matches ErrPublishMessageFailed |
| Publish.RabbitMQClient.PublishToChannel | client.go:817-858 | Validates, hands the message to the channel and counts the answer |
| Publish.RabbitMQClient.PublishMessage | client.go:784-797 | Uses any registered producer; not ready when there is none |
| Publish.RabbitMQClient.PublishMessageWith | client.go:801-813 | Uses the named producer; not found or not ready otherwise |
| Lifecycle.LatestIsLatest | client.go:249-251 | The latest event of a kind |
| Lifecycle.RabbitMQClient.constructor | client.go:72-91 | Nothing is ready before the first call |
| Lifecycle.RabbitMQClient.PublishRuntimeContract | runtime_contract.go:22-43 | Shared and private values are set together; without a runtime nothing is published |
| Lifecycle.ReturnsNilExactly | client.go:247-342 | Startup returns nil for exactly one environment: nothing is seen cancelled and every stage succeeds |
| Lifecycle.RabbitMQClient.StartupWithContext | client.go:247-342 | Returns nil exactly when every stage succeeds, and then publishes true; every later failure publishes false and keeps the connection it stored; a rejected call changes nothing |
| Lifecycle.RabbitMQClient.CleanupWithContext | client.go:344-402 | Publishes false, closes closeChan and stopChan and sets the closed flag, unless it is rejected; it returns nil and forgets the connection, except one that is dead already, which it reports and keeps |
| Lifecycle.RabbitMQClient.Run | client.go:247-445 | After any sequence of startups, cleanups, losses and reconnects the four values agree and are true exactly when the latest effective call was a startup that returned nil; the client is connected exactly when it was never cleaned up and the latest event that touches the connection stored one |
| Lifecycle.RabbitMQClient.LoseConnection | client.go:760-768 | The broker drops the connection and nothing is published |
| Lifecycle.RabbitMQClient.StoreConnection | client.go:427-429 | The reconnect callback stores a fresh connection and nothing is published |
| Lifecycle.Life | client.go:247-445 | A new client that is published as ready is connected if and only if there was no cleanup and the connection was not dropped since the latest connect; closeChan and stopChan are closed exactly after a cleanup |
| Lifecycle.ReadyAfterCleanup | client.go:760-768 | A run: started, cleaned up and started again, the client is published as ready while IsConnected is false |
| Lifecycle.ReadyAfterLoss | client.go:760-768 | A run: started, then dropped by the broker, the client is published as ready while IsConnected is false |

## Left out

- The amqp091 library, dialling, TLS, heartbeats and URL building: the network and the broker are the environment.
- Real time and fairness: timers and tickers may fire at any step, and only the requested durations are recorded; termination is stated through measures and the absence of stuck states.
- Tasks that panic in the pool: the Go program ends there.
- Goroutines that a task starts: their calls are calls from outside, for which the task does not wait.
- Bounds on how many deliveries a loop handles after closeChan closes, beyond those it gets: Go's select may keep choosing the delivery.
- Handlers that never return for reasons of their own: a handler returns at some point unless it waits for a cleanup.
- Prefetch limits and consumer tags in the broker: they restrict when the broker delivers, which the model leaves open.
- Overflow of the 64-bit message counters.
- HealthChecker's ticker loop, metrics text and statistics maps, and the client's getters are not modelled.
- Subscribe without a consumer name: it is SubscribeWith for the name the map iteration yields, without the queue check.
- Rebuild.RabbitMQClient.Reconnect: the rebuild is sequential here; Subscribe calls beside it are covered by module Overlap, deliveries by module Delivery, where sessions start at any time; two rebuilds beside each other are not covered.
- Dispatching.RabbitMQClient.CloseRegistered: the shared consumer and producer channels carry no deliveries, so closing them changes only the position of the cleanup.
- Lifecycle.RabbitMQClient.StartupWithContext: each stage, CheckHealth included, is a boolean of the environment.
- Dispatching.RabbitMQClient.CloseConnection: Close of a live connection is taken to succeed; the code keeps the reference when it reports an error.
- Lifecycle.RabbitMQClient.PublishRuntimeContract: a registration that fails is not shown.
- Publishing options and timestamps of a message.
- Names.ValidateExchange: the error does not name the banned character.

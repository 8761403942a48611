# Zel, modelled and verified

Zel is an RPC framework over peer-to-peer connections: services are declared as Rust traits, compiled by a
macro into a client and a server half, and protected by graceful shutdown, per-peer circuit breakers and
client-side retries.  This project models those parts in Dafny and proves what their documentation and
tests promise - and, where a promise fails, exactly when.

| file | what it models |
|---|---|
| `TaskTracking.dfy` | the counter and wake-up protocol of the task tracker, as interleaved atomic actions |
| `GracefulShutdown.dfy` | accept loops, stream tasks and callers of `shutdown` around one tracker |
| `ServerLoops.dfy` | the code of the accept loop, `shutdown` and `wait_for_completion`, proved to take those steps |
| `Notification.dfy` | client-to-server streaming with an acknowledgment per item |
| `NotificationLoops.dfy` | the code of `send`, `complete` and the generated `next`, proved to take those steps |
| `Completion.dfy` | how a notification session ends |
| `Subscription.dfy` | concurrent `subscribe` calls - or `notify` and `open_stream` calls - that share the connection's incoming streams |
| `SubscriptionData.dfy` | server-to-client streaming: sink, network, polled stream |
| `ErrorClassification.dfy` | resource errors, error chains, marks and classifiers |
| `CircuitBreaker.dfy` | per-peer breakers around an arbitrary breaker |
| `BreakerStates.dfy` | the documented Closed / Open / Half-Open machine |
| `RpcHandler.dfy` | an RPC handler behind its peer's breaker |
| `Backoff.dfy`, `Retry.dfy` | delays, the retry loop, its metrics |
| `RetryBreaker.dfy` | retries against a breaker |
| `ServiceDescription.dfy`, `ServiceCompiler.dfy` | the trait parser, the generated halves, the registration maps and the router |
| `ChunkFraming.dfy` | the chunk protocol of the raw stream example: bytes, sender and receiver |
| `ChunkLockstep.dfy` | both its sides at once, an acknowledgment after each chunk |
| `Sums.dfy` | sums over maps, for the measures of whole runs |

Concurrent parts are step systems: an event is one atomic action, a run any sequence of possible events, and
theorems speak about all runs.  The code behind the events - loops and methods of `ServerLoops`,
`NotificationLoops`, `TaskTracker` and `Subscriber` - is proved to take these steps and no others, whatever
other parties do in between.  Sequential code that updates state is a class or a loop proved against the
functions the theorems are about.

Where the code does not do what its description says, the code is modelled:

- `TaskTracker::wait_for_completion` can miss the last notification and then times out with no task left
  (`LostWakeupExactly`, `TimeoutWithNoTaskLeft`).
- `shutdown` can return Ok before the last stream task starts (`ZeroIsFinalExactly`, `TaskAfterOk`).
- An item that the receiver cannot decode is never acknowledged.  If the handler leaves on the error, `send`
  returns an error; if it calls `next` again, both sides wait for ever (`EndsExactly`).
- `subscribe` can fail without any error (`Crosswise`): exactly when a stream held was opened for other names
  than its holder's, or one that can still be accepted was opened for other names than those of a call that can
  accept it, or a refusal is still to be read (`NoCallFailsExactly`; while no call has failed: `NoneFailsExactly`).
- A call can get another call's stream (`OrphanedStream`): exactly when some other stream is neither held nor
  refused (`GetsItsOwnExactly`; for a call that overlaps with none: `LoneCallGetsItsOwnExactly`).
- `open_stream` compares no names, so that of two overlapping calls for different resources both can return Ok
  with each other's stream (`Crosswise`, where both streams start alike; `OkOnlyWithExactly`).
- `failed_after_max_retries` never counts a call that exhausted its retries
  (`FailureCounterMissesExhaustion`).
- The receiver takes an empty chunk for the end and returns Ok (`EmptyChunkEnds`); the client, which waits for an
  acknowledgment of each chunk, then fails (`ChunkLockstep.EndsExactly`).  The receiver takes a stream cut anywhere
  but inside the bytes of a chunk for a complete transfer (`CutAnywhere`).

Assumptions: atomics are sequentially consistent; `notify_waiters` wakes exactly the `notified()` futures that
exist, and stores no permit; frames arrive whole and in order; the breaker library is any state machine with
admission and recording; the retry library makes up to `max_attempts` retries after the first attempt, as the
repository's tests fix it.

## Model

| member | source | states |
|---|---|---|
| `TaskTracking.RunKeepsInv` | zel_core/src/protocol/shutdown.rs:29-39 | in every interleaving of any number of guards and waiters the counter equals the number of live guards |
| `TaskTracking.LostWakeupExactly` | zel_core/src/protocol/shutdown.rs:52-55 | in a drained tracker with no notification owed, a waiter lies asleep iff (it has not timed out and) the last drop and the last notification both fell between its load and its registration |
| `TaskTracking.DrainRun` | zel_core/src/protocol/shutdown.rs:46-60 | a tracker that takes no new guard drains: each owed notification is given once, each waiter takes at most `Rank` events, and the whole run is no longer than the notifications owed plus the ranks of all waiters |
| `TaskTracking.DrainBound` | zel_core/src/protocol/shutdown.rs:46-60 | in numbers: at most one event for each notification owed and four for each waiter |
| `TaskTracking.DrainedTrackerWakesEveryWaiter` | zel_core/src/protocol/shutdown.rs:46-60 | while no new guard is taken, whatever other waiters do or suffer: once nothing is owed and it has no event of its own left, every waiter outside the load-registration window returned Ok, unless it timed out; one asleep with nothing owed stays asleep |
| `TaskTracking.LosingTheRace` | zel_core/src/protocol/shutdown.rs:52-55 | any waiter caught between load and registration can be left asleep: a draining run that does it |
| `TaskTracking.AsleepUntilTimeout` | zel_core/src/protocol/shutdown.rs:50-59 | until a new guard is taken, such a waiter can only time out, with no task left |
| `TaskTracking.LostWakeupRun` | zel_core/src/protocol/shutdown.rs:77-85 | the exceptional run, event by event |
| `TaskTracking.TaskTracker.TakeGuard` | zel_core/src/protocol/shutdown.rs:29-34 | taking a guard is exactly the Increment event |
| `TaskTracking.TaskTracker.Count` | zel_core/src/protocol/shutdown.rs:37-39 | the count loaded is the number of live guards |
| `TaskTracking.TaskTracker.FetchSub` | zel_core/src/protocol/shutdown.rs:77-80 | the decrement is exactly the FetchSub event, and reports "last" iff no live guard remains |
| `TaskTracking.TaskTracker.NotifyWaiters` | zel_core/src/protocol/shutdown.rs:80-83 | `notify_waiters` wakes exactly the registered waiters |
| `TaskTracking.TaskTracker.ReadCount` | zel_core/src/protocol/shutdown.rs:47-54 | one load in `wait_for_completion`: return on 0, otherwise go on to register |
| `GracefulShutdown.RunProjects` | zel_core/src/protocol/server.rs:107-142 | every run of the server, seen from its tracker, is a run of the tracker, so that all of the above holds for it |
| `GracefulShutdown.CountIsRunningTasks` | zel_core/src/protocol/server.rs:118-142 | in every reachable server state the count equals the number of running stream tasks |
| `GracefulShutdown.HandlersWindDown` | zel_core/src/protocol/server.rs:93-154 | after the flag is stored a handler takes at most five more loop events, signalled or not, and spawns at most one task, and that only if its flag check came first; none for a later connection |
| `GracefulShutdown.SignalStopsExactly` | zel_core/src/protocol/server.rs:93-112 | with no news from its peer a handler stops after the signal iff the signal found it in `select!` or past `accept_bi` on its way out; any other ends up waiting for its peer |
| `GracefulShutdown.OkMeansReadZeroAfterStore` | zel_core/src/protocol/builder.rs:104-121 | `shutdown` returns Ok only if the caller stored the flag and later loaded a count of 0 |
| `GracefulShutdown.ZeroIsFinalExactly` | zel_core/src/protocol/builder.rs:96-121 | with the flag set and the count 0, the count stays 0 in every later state iff no handler is between its flag check and its increment |
| `GracefulShutdown.ShutdownReturnsOk` | zel_core/src/protocol/builder.rs:115-121 | once the flag is set, the tasks have ended and no handler can spawn: in every run, other callers coming and timing out included, the wait of a `shutdown` call that does not time out itself returns Ok, unless it was caught between load and registration |
| `GracefulShutdown.WaitEndsInOk` | zel_core/src/protocol/shutdown.rs:46-60 | the same in any state without live tasks, for every run that spawns none |
| `GracefulShutdown.TaskAfterOk` | zel_core/src/protocol/server.rs:107-118 | a run in which `shutdown` returned Ok and a stream task starts afterwards |
| `GracefulShutdown.TimeoutWithNoTaskLeft` | zel_core/src/protocol/builder.rs:122-134 | a run in which `shutdown` reports a time-out with 0 remaining tasks |
| `ServerLoops.RpcServer.ConnectionHandler` | zel_core/src/protocol/server.rs:93-154 | the accept loop, whatever others do between its atomic actions: all that happens is a run of the step system; every iteration but the last spawns exactly one task; it ends only on an accept error or after shutdown began, and after that spawns nothing |
| `ServerLoops.RpcServer.HandleAccepted` | zel_core/src/protocol/server.rs:107-149 | after `accept_bi`: the flag first, then the guard and the task, or the end of the loop |
| `ServerLoops.RpcServer.Shutdown` | zel_core/src/protocol/builder.rs:96-134 | `shutdown` under any interference: its answer and the state it leaves, given what the others do between its actions; Ok only with the store of the flag and, last, a load of 0; an error only when the time of some turn of the wait is up, with the count then loaded |
| `ServerLoops.RpcServer.WaitForCompletion` | zel_core/src/protocol/shutdown.rs:46-60 | the wait loop, turn by turn: Ok only on a load of 0, out of time only in a turn reached whose time is up, otherwise asleep or at the top of the loop with one load per turn |
| `ServerLoops.RpcServer.Sleep` | zel_core/src/protocol/shutdown.rs:51-59 | one sleep: out of time iff the time is up; otherwise round again iff it was woken, and still asleep if not |
| `ServerLoops.RpcServer.Interfere` | zel_core/src/protocol/server.rs:93-154 | what other parties do between two actions is exactly the possible ones of their events, in order, and leaves a handler or caller where it is, or wakes it |
| `NotificationLoops.Exchange.Next` | zel_macros/src/render/types.rs:98-140 | `next` under any interference, turn by turn: a failed read, the end, or the frame that is there decides; a frame that is there is taken; an item is acknowledged and returned, or the failed acknowledgment reported; other frames are skipped |
| `NotificationLoops.NextFailsWithCause` | zel_macros/src/render/types.rs:101-131 | a receive error means a failed read, a send error an acknowledgment that could not be written, a deserialization error a frame that was read |
| `NotificationLoops.Exchange.Send` | zel_core/src/protocol/client.rs:653-682 | `send` under any interference: what is there when it reads decides - a failed read: connection error; a frame: taken, and Ok, the server's error, or an error for anything else; the end: no acknowledgment; nothing: it waits |
| `Notification.RunIsSafe` | zel_core/src/protocol/streaming.rs:184-195 | in every run, with any failures: sent payloads are in flight or consumed, in order; acknowledgments and Ok sends balance the items returned |
| `Notification.StopAndWait` | zel_core/src/protocol/client.rs:653-682 | over every run: items delivered come from a prefix of the items sent; Ok sends <= delivered <= Ok sends + failed sends + 1; at most 1 + failed sends items and acknowledgments in flight |
| `Notification.SenderOnlyIfAccepted` | zel_core/src/protocol/handlers/notification.rs:47-84 | in every run the client gets a sender only if the server announced the stream and then said so; a refused request never does |
| `Notification.Mishaps` | zel_core/src/protocol/client.rs:405-432 | which failures each stage of the handshake is open to |
| `Completion.ScriptRunBounded` | zel_macros/src/render/types.rs:101-138 | handshake, n items, their end and k stray frames take at most 4n + 8 + 2k events: each decreases an explicit measure, also those of the loop that skips frames |
| `Completion.SomeEventPossible` | zel_core/src/protocol/handlers/notification.rs:47-84 | no other deadlock: short of one of the three ends some event is possible |
| `Completion.NoEventAtTheEnd` | zel_macros/src/render/types.rs:115-118 | at each of the three ends neither side has an event left |
| `Completion.EndsExactly` | zel_core/src/protocol/client.rs:653-697 | without transport errors: both sides finish iff every item can be decoded; a `send` fails iff some item cannot and the handler leaves on the error; both wait for ever iff some item cannot and the handler goes on; in each case exactly the items before the first bad one are delivered, in order, and acknowledged |
| `NotificationLoops.Exchange.Complete` | zel_core/src/protocol/client.rs:687-697 | `complete` is the Complete event, or drops the sender when the stream takes no write |
| `NotificationLoops.Exchange.HandleFrame` | zel_macros/src/render/types.rs:112-137 | what the loop does with one frame is the ReadFrame event |
| `Subscription.OkMeansMatchingStream` | zel_core/src/protocol/client.rs:340-361 | in every run a successful subscriber holds a stream opened for its service and resource, and no two hold the same |
| `Subscription.AllOkIsBijection` | zel_core/src/protocol/client.rs:278-361 | when all calls have returned Ok, calls and server tasks are matched one to one with equal names |
| `Subscription.OneResourceNeverMismatches` | zel_core/src/protocol/client.rs:341-351 | among calls for one resource the check of Established never fails |
| `Subscription.NoCallFailsExactly` | zel_core/src/protocol/client.rs:322-351 | in any reachable state, while nothing goes wrong and no new call is made: no continuation makes a call fail that has not failed iff every stream held and unchecked has its holder's names, no refusal is still to be read, and every stream that may be accepted has the names of every call that may accept it |
| `Subscription.NoneFailsExactly` | zel_core/src/protocol/client.rs:322-351 | while no call has failed and no handler has given up: the same iff every accepted stream has its holder's names and all calls that hold none ask for the same names |
| `Subscription.NoCallStarves` | zel_core/src/protocol/handlers/subscription.rs:46-84 | in every reachable state, whatever failed before: a call that has not returned has an error-free event of its own, unless its response was lost; an accepting call always finds a stream |
| `Subscription.RunsEnd` | zel_core/src/protocol/handlers/subscription.rs:28-84 | any run, with any failures, is no longer than the ranks of its calls at the start and seven for each new call |
| `Subscription.SevenEventsPerCall` | zel_core/src/protocol/client.rs:278-361 | from the start, n calls take at most 7n events, whatever fails |
| `Subscription.SixEventsPerCall` | zel_core/src/protocol/client.rs:278-361 | n calls joined by no other are through within 6n events |
| `Subscription.SettledMeansAllOk` | zel_core/src/protocol/client.rs:278-361 | when no error-free event is left and no call has failed, all have returned Ok, matched one to one with the server tasks |
| `Subscription.OneResourceAllSucceed` | zel_core/src/protocol/client.rs:278-361 | any number of calls for one resource, in any interleaving: if nothing fails, then when no event is left all have returned Ok, matched one to one with the server tasks |
| `Subscription.GetsItsOwnExactly` | zel_core/src/protocol/client.rs:322-329 | a call that can still accept a stream, overlapping with any others: as long as no new call is made, whatever it accepts is the stream of its own request in every continuation iff every other stream is held or was refused unannounced |
| `Subscription.LoneCallGetsItsOwnExactly` | zel_core/src/protocol/client.rs:322-329 | in particular for a call made when all earlier ones have returned: iff every earlier stream is held or was refused unannounced |
| `Subscription.AllOkLeavesNothing` | zel_core/src/protocol/client.rs:322-329 | calls that have all returned Ok leave no stream to a later call |
| `Subscription.OkOnlyWithExactly` | zel_core/src/protocol/client.rs:513-531 | as long as no new call is made, an Ok comes only with a stream that has a given property iff every stream that can still be accepted and starts alike has it: for `open_stream`, which compares two constant bytes, every raw stream not yet accepted |
| `Subscription.SequentialCallsGetTheirOwn` | zel_core/src/protocol/client.rs:322-329 | in a run in which every call is made under that condition, every call gets the stream of its own request |
| `Subscription.Crosswise` | zel_core/src/protocol/client.rs:322-351 | two overlapping calls, streams crossed: both Ok with each other's stream for one resource, both failed for two |
| `Subscription.OrphanedStream` | zel_core/src/protocol/client.rs:322-351 | a failed call leaves its stream to the next call, which then fails although it overlaps with none |
| `Subscription.RefusalEndsCall` | zel_core/src/protocol/handlers/subscription.rs:29-56 | a refused request ends its call with an error and never has a stream |
| `Subscription.ErrorsEndCalls` | zel_core/src/protocol/client.rs:307-339 | a call can fail as long as it has not returned, and only then |
| `Subscription.LostResponseLeavesStream` | zel_core/src/protocol/handlers/subscription.rs:58-68 | a response that gets lost leaves a stream that any call may accept, and its own call nothing but an error |
| `SubscriptionData.TypedStream.PollNext` | zel_macros/src/render/types.rs:198-231 | one poll takes at most one frame: an item, an error or the end; a skipped frame asks for another poll, an empty stream leaves a waker |
| `SubscriptionData.Subscriber.Poll` | zel_macros/src/render/types.rs:198-231 | one turn of the consuming task is exactly the poll of the step system, and a task that sleeps has left a waker |
| `SubscriptionData.YieldsArePrefix` | zel_core/src/protocol/client.rs:594-608 | in every run the consumer has an initial part of what the frames written yield, and sleeps only while no frame waits for it |
| `SubscriptionData.Winding` | zel_core/src/protocol/client.rs:594-608 | once the server has finished, a run has at most as many more events as an explicit measure says |
| `SubscriptionData.ConsumerGetsEverything` | zel_macros/src/render/types.rs:198-231 | however writing, arriving and polling interleave, in the end the consumer has exactly what the frames yield, and then None |
| `SubscriptionData.SinkReachesSubscriber` | zel_core/src/protocol/streaming.rs:62-93 | one result per item sent, in order, decodable or not; closing the sink or dropping it looks the same |
| `SubscriptionData.SubscriptionSink.Publish` | zel_core/src/protocol/streaming.rs:62-93 | a handler that sends items until the stream breaks, and then closes: which frames are written, whether it returns Ok, and that the subscriber gets one result for each item written |
| `ErrorClassification.LastSevereMarkDecides` | zel_core/src/protocol/error_classification.rs:182-195 | after any sequence of marks and context layers the default classifier follows the last severe mark, or else the original error |
| `ErrorClassification.ContextKeepsInfrastructure` | zel_core/src/protocol/error_classification.rs:198-210 | context layers never change whether an infrastructure error is detected |
| `ErrorClassification.DefaultClassifiesExactly` | zel_core/src/protocol/error_classification.rs:182-210 | the default classifier over every error chain: which values and causes make it a system failure, an infrastructure or an application error |
| `ErrorClassification.SeverityOf` | zel_types/src/lib.rs:126-138 | the severity of each resource error |
| `CircuitBreaker.PeersAreIsolated` | zel_core/src/protocol/circuit_breaker.rs:281-287 | for any breaker, classifier and interleaving, a peer's breaker, calls and results equal those of the run restricted to that peer |
| `CircuitBreaker.OneBreakerPerPeer` | zel_core/src/protocol/circuit_breaker.rs:281-287 | a breaker is created once per peer, by its first call, and kept |
| `CircuitBreaker.PeerCircuitBreakers.CallAsync` | zel_core/src/protocol/circuit_breaker.rs:272-329 | one call is look-up, admission and, if admitted, one recorded outcome; the operation runs only if admitted |
| `BreakerStates.OpensExactlyOnConsecutiveFailures` | zel_core/src/protocol/circuit_breaker.rs:17-25 | from Closed the breaker opens exactly at the first moment the last k outcomes are failures |
| `BreakerStates.HalfOpenClosesExactlyOnSuccesses` | zel_core/src/protocol/circuit_breaker.rs:38-49 | from Half-Open it closes exactly after s successes; any failure before reopens it |
| `BreakerStates.ClosedWithoutConsecutiveFailures` | zel_core/src/protocol/circuit_breaker.rs:296-326 | through the wrapper, in any interleaving: without k severe outcomes in a row a peer's breaker is closed and has rejected nothing |
| `BreakerStates.HalfOpenClosesExactly` | zel_core/src/protocol/circuit_breaker.rs:38-49 | through the wrapper, in any interleaving, stragglers included: a half-open breaker closes exactly when s outcomes, all successes, have been recorded since it began to probe, and reopens exactly at a failure |
| `BreakerStates.ClosedCountsFailures` | zel_core/src/protocol/circuit_breaker.rs:17-25 | at any time, after any recoveries: a closed breaker counts the trailing failures recorded since it last closed, fewer than k |
| `BreakerStates.ClosedOpensExactly` | zel_core/src/protocol/circuit_breaker.rs:17-25 | and it opens exactly at the event that makes them k |
| `BreakerStates.OpensOnKthFailure` | zel_core/src/protocol/circuit_breaker.rs:453-454 | through the wrapper: the outcome that completes the first k severe ones in a row opens the breaker, then and there |
| `BreakerStates.MildRunsNeverTrip` | zel_core/src/protocol/circuit_breaker.rs:304-309 | successes and application errors never leave Closed |
| `BreakerStates.OpenRejectsUntilTimeout` | zel_core/src/protocol/circuit_breaker.rs:27-36 | from opening until the timeout no call of the peer is admitted |
| `BreakerStates.AdmitsExactly` | zel_core/src/protocol/circuit_breaker.rs:32-49 | a call is let through iff the breaker is not open or its timeout has passed, and is told it is open otherwise |
| `BreakerStates.RecoversAfterTimeout` | zel_core/src/protocol/circuit_breaker.rs:32-49 | in any run, after the timeout: any s calls in a row with mild outcomes all run, get their own results and leave the breaker closed |
| `RpcHandler.ExecuteIsOneCall` | zel_core/src/protocol/handlers/rpc.rs:64-89 | a request behind the breaker is look-up, admission and, if admitted, one recorded outcome of the wrapper, for any breaker and any state of the pool |
| `RpcHandler.SeveritySurvives` | zel_core/src/protocol/handlers/rpc.rs:64-89 | under the default classifier the reply has the severity of the handler's error, for every `ResourceError` |
| `RpcHandler.AllErrorsLosesSeverity` | zel_core/src/protocol/error_classification.rs:173-178 | the all-errors classifier keeps the severity iff it was SystemFailure |
| `RpcHandler.SeveritySurvivesForwarding` | zel_types/src/lib.rs:128-138 | severity survives any number of forwarding servers, and the message still ends with the first error's text |
| `Retry.Build` | zel_core/src/protocol/retry.rs:440-462 | a configuration is accepted iff it is valid, and otherwise the first check it fails is reported |
| `Retry.RetriesExactly` | zel_core/src/protocol/retry.rs:263-274 | which errors the two built-in predicates retry |
| `Retry.CallWithRetry` | zel_core/src/protocol/client.rs:200-267 | at least one and at most max_attempts + 1 attempts, all but the last ended retryably, the last one's result is returned, delays follow the policy, metrics grow by the tally of the call |
| `Retry.MadeIsUnique` | zel_core/src/protocol/client.rs:263-266 | that contract determines the number of attempts |
| `Retry.MetricsAddUp` | zel_core/src/protocol/retry_metrics.rs:33-46 | over any sequence of calls, modulo 2^64: total_retries = attempts - calls + exhausted calls; the other two count late successes and late refusals |
| `Retry.FailureCounterMissesExhaustion` | zel_core/src/protocol/client.rs:252-259 | failed_after_max_retries counts a call iff a non-retryable error ended it late, and never an exhausted call, contrary to its description |
| `Retry.ExhaustedCallUncounted` | zel_core/src/protocol/retry_metrics.rs:42-42 | such a call: four connection errors with three retries, not counted |
| `Retry.RetryMetrics.Reset` | zel_core/src/protocol/retry_metrics.rs:66-70 | `reset` sets the three counters to 0 |
| `Retry.SleepBounded` | zel_core/src/protocol/retry.rs:27-35 | a call sleeps at most retries * max and at most the geometric series |
| `Backoff.DelayClosedForm` | zel_core/src/protocol/retry.rs:27-35 | the i-th delay is min(initial * multiplier^i, max) |
| `Backoff.DelaysGrow` | zel_core/src/protocol/client.rs:207-211 | delays never decrease nor exceed the maximum, and grow strictly until they reach it |
| `Backoff.TotalBounded` | zel_core/src/protocol/retry.rs:27-35 | n delays sum to at most n * max and to at most initial * (m^n - 1) / (m - 1) |
| `RetryBreaker.AttemptsAreARun` | zel_core/src/protocol/handlers/rpc.rs:59-95 | the first n attempts of the following theorems, made at non-decreasing times, are a run of the wrapper, with its states and replies |
| `RetryBreaker.OpenCallsFailFast` | zel_core/src/protocol/client.rs:263-266 | from the opening until its cooldown ends every call makes one attempt and returns CircuitBreakerOpen, whatever the handler would do |
| `RetryBreaker.MadeUnderSevereErrors` | zel_core/src/protocol/client.rs:226-266 | how many attempts a call makes against a handler that fails severely, if its attempts come before the cooldown after the k-th failure ends |
| `RetryBreaker.RetriesAgainstBreaker` | zel_core/src/protocol/handlers/rpc.rs:59-95 | any number of calls whose attempts after the k-th come before the cooldown ends - however far apart the first k are - run the handler exactly min(k, attempts) times, and the next call then fails fast |
| `ServiceDescription.FromItem` | zel_macros/src/service.rs:50-121 | `from_item`: which error, for which item; otherwise the four lists are the endpoints of each kind in trait order |
| `ServiceDescription.EachItemInOneList` | zel_macros/src/service.rs:76-99 | each trait item is in exactly one list, in order |
| `ServiceDescription.AttributeDecides` | zel_macros/src/service.rs:92-99 | over the attributes themselves: the first attribute of the path that takes precedence gives kind and name, the inputs the parameters; which error otherwise, in which order |
| `ServiceDescription.Undescribable` | zel_macros/src/service.rs:85-107 | an item is refused as no method, or for want of an attribute, exactly when it is none or has none of the four |
| `ServiceDescription.ExtractsParams` | zel_macros/src/helpers.rs:4-30 | parameters are the typed inputs, in order, unless one of them is a pattern |
| `ServiceCompiler.ArgumentsSurvive` | zel_macros/src/render/codegen.rs:21-103 | for all four kinds and any number of parameters, the closure of an endpoint unpacks exactly the arguments its client method packed |
| `ServiceCompiler.RequestBodies` | zel_macros/src/render/client.rs:82-186 | which body each kind of call sends |
| `ServiceCompiler.ForeignBodies` | zel_macros/src/render/server.rs:204-406 | what each kind of closure makes of a body of another kind |
| `ServiceCompiler.RouterFindsTheLast` | zel_core/src/protocol/server.rs:181-197 | routing finds the last endpoint registered under the names, or reports which name is unknown |
| `ServiceCompiler.ReachesExactlyTheLast` | zel_core/src/protocol/builder.rs:442-547 | an endpoint is reached iff no later service and no later endpoint of the service, of any kind, has its name |
| `ServiceCompiler.CompilationPreservesMeaning` | zel_macros/src/render/server.rs:154-202 | with distinct names, a client call invokes the right method of the right service with exactly the arguments given |
| `ServiceCompiler.ClientMethodCallsItsFunction` | zel_macros/src/service.rs:76-99 | from the traits themselves: with distinct names, the client method generated from the n-th function of a trait invokes that function, of that service, with exactly the arguments given |
| `ServiceCompiler.RemoteCallIsLocalCall` | zel_macros/src/render/client.rs:97-108 | a remote RPC returns what the method returns, value or error |
| `ServiceCompiler.RpcServerBuilder.RegisterService` | zel_macros/src/render/server.rs:154-202 | the generated registration builds the maps the router model is proved about |
| `ChunkFraming.SendFile` | zel_core/examples/raw_stream_example.rs:166-182 | the client writes frame after frame, stops where three bytes of acknowledgment do not come, and otherwise writes the terminator and returns Ok |
| `ChunkFraming.TransferFile` | zel_core/examples/raw_stream_example.rs:70-113 | the handler takes the chunks, counts their bytes, sends one ACK each; it fails iff the stream ends inside a chunk, an ACK cannot be written or the stream cannot be closed |
| `ChunkFraming.HeaderRoundTrip` | zel_core/examples/raw_stream_example.rs:81-81 | every four bytes are the header of exactly one length |
| `ChunkFraming.RoundTripExactly` | zel_core/examples/raw_stream_example.rs:73-104 | the receiver recovers exactly the chunks sent iff each is non-empty and shorter than 2^32 |
| `ChunkFraming.EmptyChunkEnds` | zel_core/examples/raw_stream_example.rs:83-86 | the receiver takes an empty chunk for the end and returns Ok, whatever follows; for the client see `ChunkLockstep.EndsExactly` |
| `ChunkFraming.CutYieldsPrefix` | zel_core/examples/raw_stream_example.rs:76-79 | a stream cut anywhere yields a prefix of the chunks |
| `ChunkFraming.CutAfterFrames` | zel_core/examples/raw_stream_example.rs:76-92 | a cut between frames or inside a header passes for a complete transfer; only a cut inside a chunk is an error |
| `ChunkFraming.CutAnywhere` | zel_core/examples/raw_stream_example.rs:73-104 | a transfer cut at any position, the terminator included: the chunks whose frames are whole arrive, and it is an error exactly if the cut is inside the bytes of a chunk |
| `ChunkLockstep.RunBounded` | zel_core/examples/raw_stream_example.rs:166-182 | both sides at once, every write and read an event: n chunks take at most 6n + 2 events |
| `ChunkLockstep.OneAhead` | zel_core/examples/raw_stream_example.rs:174-176 | at any time the handler has taken, in order, the chunks whose acknowledgment the client has, and at most one more |
| `ChunkLockstep.SomeEventPossible` | zel_core/examples/raw_stream_example.rs:70-113 | short of the end some event is possible |
| `ChunkLockstep.EndsExactly` | zel_core/examples/raw_stream_example.rs:166-176 | for chunks shorter than 2^32, in any interleaving: the client returns Ok iff no chunk is empty, and then the handler took exactly the chunks; otherwise the handler returns Ok with the chunks before the first empty one and the client fails at the acknowledgment of that one |

## Left out

- Endpoints, connections, discovery, connection statistics and the shutdown of the bundle: foreign I/O. Streams are FIFO channels.
- Serialization and length-delimited framing: parameters, assumed to round-trip where a theorem says so; errors while serializing arguments are not modelled.
- Cancelling a future half-way through `send`, `next` or `subscribe`: outside the step systems.
- Tasks spawned for subscriptions, notifications and raw streams: they hold no guard, so nothing is claimed about them at shutdown.
- The connection hook, request contexts, middleware and extensions: they do not touch the modelled state.
- The load of the count before waiting in `shutdown`: only logged.
- The failure-rate rule, the number of probes in Half-Open and a breaker built without a number of consecutive failures: behaviour of the breaker library; the builder of the configuration cannot leave that number out.
- Jitter, rounding of the multiplier and wall-clock time: delays are exact real numbers, time-outs are events.
- A `notify` call that accepts a raw stream is taken to fail on its first bytes; it may as well wait for more of them than the raw protocol sends.
- The injected parameters, typed sinks and receivers in the generated trait, and the text of generated code: the renderers are modelled by what their output does.
- The text of serialization errors: not modelled.
- ChunkLockstep.EndsExactly: does not cover chunks of 2^32 bytes and more, whose truncated length makes the handler read the rest of the chunk as further frames; `RoundTripExactly` says that they are not recovered.

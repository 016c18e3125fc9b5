# Verification model of the aionetx transports

This project states in Dafny what the coordinating parts of aionetx do and proves
properties of it over every input, every run or every reachable state.

Everything here runs on one event loop: the code between two awaits is atomic and
everything else interleaves. Each coordinating component is therefore a state machine
whose actions are those atomic segments, chosen in any order by callers, user handlers,
the peer, cancellation and the loop. A run is an arbitrary sequence of actions (an action
that is not enabled does nothing), and a theorem about `Run(acts)` for all `acts` is a
theorem about all interleavings. Beside each state machine stands the class that the code
has, with its fields, and one in-place method per segment. Such a method requires the
invariant and that its action is enabled, and ensures that the new state is the action's
and the invariant again: a run of the class is a run of the state machine, and what is
proved about all reachable states holds of the object.

| files | component |
|---|---|
| TcpConnection*.dfy | close protocol of one TCP connection |
| EventQueue.dfy, Dispatcher*.dfy | event dispatcher: queue, policies, worker, stop, futures |
| ConnectionEvents*.dfy | connection and dispatcher together |
| HandlerBarrier.dfy, HandlerOrigins.dfy | handler-origin tokens and the tasks that wait for them |
| Lifecycle.dfy, Datagram*.dfy | lifecycle table, start and stop of the datagram receiver |
| ClientLifecycle.dfy, ClientStops.dfy | start, stop and supervision of the TCP client |
| Supervisor.dfy, SupervisorCourse.dfy, Backoff.dfy | reconnect supervision and backoff |
| Framing.dfy | length-prefix framing of the example |
| ServerTables.dfy, ServerTracking.dfy, ServerStops.dfy, ConnectionIds.dfy | server admission tables, stop and identifiers |
| RateLimiter.dfy | warning rate limiter |

In the larger components `...Spec` holds the state machine, `...Proofs` and `...Invariant`
what every action keeps, and the other files what follows for runs.

A promise that the code keeps only under a condition is stated with that condition, a guard
on single actions, in up to three parts: it fails after a run in which the guard never held and
one more action if and only if the guard holds for that action; it holds over all runs
unless the guard held somewhere; and a run from the initial state reaches the guard.

## How the model reads the code

- No code suspends while it holds one of the modelled locks, so taking a lock never
  suspends either, and a locked section with the code around it is one segment.
- A task slot is shown as the place where its task will continue. An empty slot and a slot
  with a finished task are one value, since the code only tests for `None or done()`.
- Facts that the dispatcher reads from context variables (does the caller carry a handler's
  origin, would it deliver inline) are parameters that the environment chooses.
- `EnsureWaiter` in the connection is enabled as its two callers use it: after a `close()`
  they awaited has come back (a lifecycle task has ended, or the call came from the emitting
  task or from behind a deferred close), with a handler of the connection active, nothing
  published and no waiter pending.
- The tasks that wait for room in the dispatcher are woken as `asyncio.Condition` does it,
  in their order; whether a cancelled wait wakes the next one depends on the interpreter
  and is a setting.
- History (what was emitted, accepted, handed over, closed, and where each event ended up)
  is recorded for the statements only. One count in it also decides: `EnsureWaiter` reads
  `livesEnded` to know that a `close()` has come back.
- A `start()` call of the datagram receiver clears its slot and creates the look for a
  deferred close without a suspension in between, and the look runs in the next turn of the
  loop. A later life cannot publish its opened event in that time, so a stop that finds the
  slot taken does not come to its close event while such a look is outstanding.
- The dispatcher's answers are parameters of the close decision. `TcpConnectionHandlers` is
  about the runs in which they are true of the state, as `OriginsAreOpenContexts` says of the
  tables, in which the mode does not change (INLINE or without a worker, or with one), and in
  which code that does not suspend goes on.
- Any ready task may be delayed as long as the scheduler likes.
  `DeferredAfterThePublication` needs that: the second close's lifecycle task takes its first
  step several turns of the loop after it was created.
- A failing call is possible wherever the code handles one. For the bypass of the dispatcher
  in a handler-side datagram stop the code gives no cause, since `stop_from_handler_origin`
  does not suspend; the second half of `StopsGiveUp` is about that case only.
- A lifecycle transition counts as applied when the locked section applies it, and an event
  as published when its emission begins, because nothing runs in between.

## Where the code does less than it seems to promise

Each of these is proved, with the exact condition where there is one.

- A close can wait for ever. If delivery of the opened event fails, `start()` lets its
  publisher look for a deferred close before it clears the opening slot; a close that
  decides in between is deferred to a publisher that has already looked
  (`DeferredAfterTheLook`), also after the close event was published
  (`DeferredAfterThePublication`). `WaitsForEverExactly` gives all such guards. The
  datagram receiver has the same gap (`StopStalls`, `DatagramStops.WaitsForEverExactly`).
- A close event can be emitted while the opened event is in delivery, exactly after a
  lifecycle task died without deferring (`OverlapExactlyAfterExposure`, `ExposingRun`). In
  the datagram receiver only a handler-side publisher left over from an earlier life does
  it, one whose handler began beside an ordinary stop of that life and still runs in the
  next one (`CloseOvertakesExactly`, `CloseOvertakes`).
- A close event that is delivered inline can begin in the middle of a handler, exactly if the
  handler begins between the creation of the publication task and its first step, or beside
  a `start()` call that publishes the deferred one (`IntrudesExactlyByCollision`,
  `CollisionOccurs`).
- A deferral can be left with nobody to publish it, also when no `close()` waits for it
  (`UnservedExactly`).
- A payload event can follow the close event (`TrailsExactlyAfterLeak`). The teardown
  preserves the read task when a handler is active and delivery would be inline, also when
  that task is reading, or is blocked in `_enqueue` with a payload, which neither sweep
  sees (`PayloadFollowsClose`); a lifecycle task cancelled before its first step tears
  nothing down; and one that dies before it dropped the queued payloads leaves them to a
  close event that a stop asks for.
- A producer that was notified of room before the worker died queues its event with nobody
  to deliver it (`MaroonsExactly`, `DyingWorkerMaroons`), and `stop()` finds no worker and
  returns (`WithoutWorkerNothingMoves`). The claims about draining and waiters are
  therefore about exits through the stop path.
- A datagram stop does not close the detached socket if the receive task ends with its own
  exception (`TornDownExactlyOnce`, `SocketLeaks`).
- A handler-side datagram stop whose teardown or dispatcher bypass fails leaves the
  receiver at STOPPING and loses its STOPPING event (`StoppingLostExactly`,
  `StopsGiveUp`); the retry reports CLOSED as the previous state
  (`GivingUpLosesStopping`).
- A TCP client can stay RUNNING with no supervisor: its last supervisor ends while the stop
  of an earlier life still holds the waiter (`AbandonedExactly`, `ClientIsAbandoned`).
- A returned `stop()` does not always mean a stopped component. STOPPED is applied before
  the owner releases its waiter, and `start()` does not look at the waiter; a stop of the
  new life joins the owner of the old one and returns with the component RUNNING. It happens
  exactly if a life begins beside the waiter, in the client (`ClientStops`), the server
  (`ServerStops`) and the datagram receiver (`DatagramStops.ReturnsActiveExactly`).
- FAIL_FAST with reconnect enabled takes a backoff step it does not use
  (`FailFastConsumesAStep`); neither attempt counter nor backoff restarts with `start()`.
- The rate limiter's comment promises eviction by last update; an update keeps a key's old
  place, so eviction is by first insertion (`EvictsByLastUpdateExactly`,
  `FreshlyUpdatedKeyIsEvicted`).
- The framing encoder does not check the receiver's payload limit (`FrameArrivesExactly`),
  and the rest of a chunk that completes an oversize header is discarded
  (`OversizeDiscardsItsChunk`, `CutsMatterAfterOversize`).
- A server start that is rolled back out of RUNNING leaves the connections accepted
  meanwhile in the table (`TrackingEndsWithRunning`, `RollbackLeavesConnection`).

## Model

| member | source | states |
|---|---|---|
| TcpConnectionTheorems.EverythingHappensAtMostOnce | src/aionetx/implementations/asyncio_impl/asyncio_tcp_connection.py:230-404 | in every run at most one close lifecycle and one publication run at a time; socket teardown, closed callback, opened emission and successful close emission happen at most once; published means exactly one report |
| TcpConnectionTheorems.CompletedCloseIsPublished | src/aionetx/implementations/asyncio_impl/asyncio_tcp_connection.py:300-309 | a close lifecycle that completes normally with its publication has a published close event and state CLOSED behind it |
| TcpConnectionTheorems.EachDeferralClaimedOnce | src/aionetx/implementations/asyncio_impl/asyncio_tcp_connection.py:631-638 | the number of raised deferrals is the number of claims plus the one still up: each is taken by exactly one publisher |
| TcpConnectionTheorems.RunNeverMovesBack | src/aionetx/implementations/asyncio_impl/asyncio_tcp_connection.py:124-176 | over any run the connection state never loses rank, and once a close began neither its first pre-close state nor the number of opened emissions changes |
| TcpConnectionTheorems.CloseEventReportsFirstState | src/aionetx/implementations/asyncio_impl/asyncio_tcp_connection.py:247-252 | whatever precedes and follows the action that begins the first close, the only close report is the state just before that action, and no opened event is emitted after it |
| TcpConnectionTheorems.CloseEventFollowsTeardown | src/aionetx/implementations/asyncio_impl/asyncio_tcp_connection.py:349-404 | in every run: while the close event is due, being emitted or published, socket teardown and close callback are over |
| TcpConnectionTheorems.OverlapExactlyAfterExposure | src/aionetx/implementations/asyncio_impl/asyncio_tcp_connection.py:564-587 | after any run without such a death: an action makes it possible that the close event is emitted while the opened event is in delivery if and only if it is the death of a lifecycle task that deferred nothing while the opened event is queued |
| TcpConnectionTheorems.CloseEventOverlapsNothing | src/aionetx/implementations/asyncio_impl/asyncio_tcp_connection.py:490-562 | in every run the close event and the delivery of the opened event do not overlap, unless a lifecycle task died that way before |
| TcpConnectionTheorems.ExposingRun | src/aionetx/implementations/asyncio_impl/asyncio_tcp_connection.py:264-326 | such a death is reachable: the lifecycle task of a close is cancelled before its first step while the opened event is queued |
| TcpConnectionHandlers.IntrudesExactlyByCollision | src/aionetx/implementations/asyncio_impl/asyncio_tcp_connection.py:490-523 | when the dispatcher's answers are true of the state: after any run without a collision, an action makes the close event about to be emitted inline in the middle of a handler if and only if a handler begins between the creation of the publication task and its first step, or start() publishes a deferred close event while another handler runs |
| TcpConnectionHandlers.CloseEventWaitsForHandlers | src/aionetx/implementations/asyncio_impl/asyncio_tcp_connection.py:511-523 | over all such runs: when the close event begins to be emitted inline no handler of the connection is running, unless there was such a collision |
| TcpConnectionHandlers.CollisionOccurs | src/aionetx/implementations/asyncio_impl/asyncio_tcp_connection.py:656-666 | a run from the start in INLINE mode reaches a collision |
| TcpConnectionHandlers.PublicationTakesDeferral | src/aionetx/implementations/asyncio_impl/asyncio_tcp_connection.py:516-523 | over all runs: nobody creates the publication task while a deferral is up |
| TcpConnectionHandlers.ReturnsUnpublishedExactly | src/aionetx/implementations/asyncio_impl/asyncio_tcp_connection.py:549-562 | in every reachable state before publication: a close lifecycle comes to its end if and only if its task dies, it is told that a publication failed, or it decides for a close called by a handler, a task of one, in the inline context or by start() in its opening slot |
| TcpConnectionHandlers.CloseBeginsExactly | src/aionetx/implementations/asyncio_impl/asyncio_tcp_connection.py:230-283 | in every reachable state without a lifecycle: one begins if and only if close() is called, the close event is not published and it is not the deferred one that the calling start() will publish |
| TcpConnectionProgress.TasksCanEndExactly | src/aionetx/implementations/asyncio_impl/asyncio_tcp_connection.py:131-404 | in every reachable state, whatever has failed on the way: the start() call and the handler-side publisher can still come to their ends, and the close lifecycle can if and only if it does not wait with nobody left to tell it |
| TcpConnectionProgress.CompletesExactly | src/aionetx/implementations/asyncio_impl/asyncio_tcp_connection.py:381-404 | in every reachable state: a close lifecycle completes normally if and only if it finds the close event published, or is told so, and was not cancelled in its teardown |
| TcpConnectionHandlers.LifeIsToldTruly | src/aionetx/implementations/asyncio_impl/asyncio_tcp_connection.py:589-674 | in every state a waiting lifecycle is told of success if and only if the publication itself succeeded, the publisher it succeeded for tells it, or a publisher finds the event published |
| TcpConnectionHandlers.StartEndsExactly | src/aionetx/implementations/asyncio_impl/asyncio_tcp_connection.py:131-176 | in every reachable state: reading begins if and only if start() comes back from a delivered opened event with nothing to publish, not cancelled and still CONNECTED; start() is over exactly then, after each of its failures, or when a close came before its opened event |
| TcpConnectionHandlers.UnservedExactly | src/aionetx/implementations/asyncio_impl/asyncio_tcp_connection.py:524-548 | after any run in which that did not happen: an action leaves a deferral up with nobody who will take it if and only if it raises it behind a slot whose start() has looked, or with the handler-side publisher busy, or cancels the publisher that was to take it |
| TcpConnectionHandlers.DeferralIsServed | src/aionetx/implementations/asyncio_impl/asyncio_tcp_connection.py:524-587 | over all runs: a deferral that is up has somebody who will take it, unless one of those actions was taken before |
| TcpConnectionWaiters.ToldExactlyIfHelped | src/aionetx/implementations/asyncio_impl/asyncio_tcp_connection.py:553-562 | in every reachable state a close lifecycle awaiting its waiter can still be told if and only if one of the two publishers holds that waiter, will claim it, or works for an earlier one and may fail |
| TcpConnectionWaiters.WaitsForEverExactly | src/aionetx/implementations/asyncio_impl/asyncio_tcp_connection.py:506-562 | over all runs: a lifecycle waits with nobody left to tell it if and only if it once decided alone, or the one publication that might have failed for it succeeded for others, and since then no task of the wait was cancelled from outside |
| TcpConnectionWaiters.RunStaysStranded | src/aionetx/implementations/asyncio_impl/asyncio_tcp_connection.py:306-326 | a lifecycle with nobody left to tell it stays so over every continuation, before and after publication |
| TcpConnectionWaiters.SettledIsNotAwaited | src/aionetx/implementations/asyncio_impl/asyncio_tcp_connection.py:528-536 | over all runs: no lifecycle awaits a waiter whose outcome was set before |
| TcpConnectionWaiters.DeferredAfterTheLook | src/aionetx/implementations/asyncio_impl/asyncio_tcp_connection.py:150-162 | a concrete run gets there before publication: the opened event fails, the starter's publisher looks, and the close then defers to it |
| TcpConnectionWaiters.DeferredAfterThePublication | src/aionetx/implementations/asyncio_impl/asyncio_tcp_connection.py:589-654 | a concrete run gets there after publication: a second close, whose lifecycle task is slow to run, decides when the starter's publisher has settled the first and the slot is still set |
| TcpConnectionTheorems.DeferredCloseReachesItsWaiter | src/aionetx/implementations/asyncio_impl/asyncio_tcp_connection.py:589-654 | after the handlers unwind a waiting publisher brings a deferred close to its end: one report of the first state, flag and waiter cleared, the awaiting lifecycle told of success |
| TcpConnectionTheorems.OpenedHandlerReleasesClose | src/aionetx/implementations/asyncio_impl/asyncio_tcp_connection.py:137-170 | a close deferred behind the opened event is published by start() once its handler has returned: one report of the first state, slot and flag clear, the waiting lifecycle told of success |
| TcpConnectionTheorems.OrdinaryCloseCompletes | src/aionetx/implementations/asyncio_impl/asyncio_tcp_connection.py:203-229 | closing a connection at rest stops the reader, tears down once, runs the callback once, reports CONNECTED once and completes |
| TcpConnectionTheorems.RetryPublishes | src/aionetx/implementations/asyncio_impl/asyncio_tcp_connection.py:656-674 | after any failed publication a further close publishes, with the same first state |
| TcpConnectionProofs.StepKeepsInv | src/aionetx/implementations/asyncio_impl/asyncio_tcp_connection.py:203-674 | every action keeps the whole invariant: what will be reported, who may publish, slots and waiter, opening slot, teardown |
| TcpConnection.AsyncioTcpConnection.constructor | src/aionetx/implementations/asyncio_impl/asyncio_tcp_connection.py:48-98 | a new connection is the initial state of the protocol and satisfies its invariant |
| TcpConnection.AsyncioTcpConnection.Start | src/aionetx/implementations/asyncio_impl/asyncio_tcp_connection.py:131-139 | startable states reach the ready hook, CONNECTED returns, every other state raises and changes nothing |
| TcpConnection.AsyncioTcpConnection.ReadyHookReturns | src/aionetx/implementations/asyncio_impl/asyncio_tcp_connection.py:140-154 | the opened event is emitted, with the opening slot set, exactly if the state is still CONNECTED |
| TcpConnection.AsyncioTcpConnection.OpenedEventDone | src/aionetx/implementations/asyncio_impl/asyncio_tcp_connection.py:155-166 | the success path clears the opening slot before the deferred close is looked for, the failure path does not |
| TcpConnection.AsyncioTcpConnection.FinishStart | src/aionetx/implementations/asyncio_impl/asyncio_tcp_connection.py:160-176 | the slot is cleared late on the failure path; reading starts only without deferred close, cancellation or close |
| TcpConnection.AsyncioTcpConnection.Close | src/aionetx/implementations/asyncio_impl/asyncio_tcp_connection.py:230-283 | the locked part of close(): joins, starts or skips the one lifecycle task, keeps the first pre-close state, detaches the reader on the first close only |
| TcpConnection.AsyncioTcpConnection.CloseWriter | src/aionetx/implementations/asyncio_impl/asyncio_tcp_connection.py:353-380 | the writer is closed for the first and only time, before the callback and before any close event; the invariant is kept |
| TcpConnection.AsyncioTcpConnection.RunClosedCallback | src/aionetx/implementations/asyncio_impl/asyncio_tcp_connection.py:381-391 | the callback runs for the first and only time, after the one teardown and before any close event; the invariant is kept |
| TcpConnection.AsyncioTcpConnection.DecideDeferral | src/aionetx/implementations/asyncio_impl/asyncio_tcp_connection.py:490-562 | defers exactly under the six conditions of the code, whose meaning over runs `CloseEventWaitsForHandlers`, `PublicationTakesDeferral` and `ReturnsUnpublishedExactly` give, and returns the waiter only to callers without a handler side |
| TcpConnection.AsyncioTcpConnection.FinalizeOwnClose | src/aionetx/implementations/asyncio_impl/asyncio_tcp_connection.py:395-404 | the lifecycle either ends at once or awaits the publication |
| TcpConnection.AsyncioTcpConnection.EmitClosedEvent | src/aionetx/implementations/asyncio_impl/asyncio_tcp_connection.py:656-664 | what is emitted is the state before the first close(), the state is CLOSED and no close event went out before |
| TcpConnection.AsyncioTcpConnection.ClosedEventEmitted | src/aionetx/implementations/asyncio_impl/asyncio_tcp_connection.py:663-666 | after a successful emission the reports are exactly the one first pre-close state, after a failed one none |
| TcpConnection.AsyncioTcpConnection.FinishPublication | src/aionetx/implementations/asyncio_impl/asyncio_tcp_connection.py:666-674 | the close counts as published exactly if this emission succeeded, and every task awaiting it is told; the invariant is kept |
| TcpConnection.AsyncioTcpConnection.EnsureDeferredWaiter | src/aionetx/implementations/asyncio_impl/asyncio_tcp_connection.py:564-587 | called as the stop paths call it, after an ended close: a waiter is pending and a handler-side publisher is on its way; the invariant is kept |
| TcpConnection.AsyncioTcpConnection.ClaimDeferral | src/aionetx/implementations/asyncio_impl/asyncio_tcp_connection.py:631-638 | takes the deferral if it is up, with the current waiter, for either publisher |
| TcpConnection.AsyncioTcpConnection.FinalizeForHandlers | src/aionetx/implementations/asyncio_impl/asyncio_tcp_connection.py:639-653 | the handler-side publisher awaits the shared publication, or settles its waiter if already published |
| TcpConnection.AsyncioTcpConnection.FinalizeForStarter | src/aionetx/implementations/asyncio_impl/asyncio_tcp_connection.py:609-654 | the same for the publisher that start() awaits |
| TcpConnection.AsyncioTcpConnection.SettleForHandlers | src/aionetx/implementations/asyncio_impl/asyncio_tcp_connection.py:589-607 | after a failure the handler-side publisher also fails whatever waiter is then pending |
| TcpConnection.AsyncioTcpConnection.SettleForStarter | src/aionetx/implementations/asyncio_impl/asyncio_tcp_connection.py:609-629 | start() learns whether its publisher published or raised |
| EventQueue.DropOldestKeepsNewest | src/aionetx/implementations/asyncio_impl/event_dispatcher.py:361-409 | DROP_OLDEST without pops and with barriers that fit keeps exactly all barriers and the last min(c - b, droppable) other events, in order |
| EventQueue.DropOldestMeans | src/aionetx/implementations/asyncio_impl/event_dispatcher.py:361-409 | the same for every series: what counts is the longest prefix whose barriers fit, after which the queue is full of barriers and does not change |
| EventQueue.OthersKeepFirst | src/aionetx/implementations/asyncio_impl/event_dispatcher.py:361-409 | BLOCK and DROP_NEWEST keep exactly the first c events |
| EventQueue.SurvivesExactly | src/aionetx/implementations/asyncio_impl/event_dispatcher.py:373-396 | membership in the survivors, both ways: a barrier, or fewer than k droppable events behind it |
| EventQueue.WaitsExactly | src/aionetx/implementations/asyncio_impl/event_dispatcher.py:361-409 | a full queue makes the producer wait if and only if the policy is BLOCK or its event must not be dropped and nothing can go instead; it is turned away if and only if its event may be dropped and, under DROP_OLDEST, nothing older can go instead |
| DispatcherBackpressure.OffersFillQueue | src/aionetx/implementations/asyncio_impl/event_dispatcher.py:229-264 | the queue of the running dispatcher after any series of emissions it does not drain is the declarative series of offers |
| DispatcherBackpressure.QueueAfterOverload | src/aionetx/implementations/asyncio_impl/event_dispatcher.py:361-409 | hence its contents under each policy, in terms of the emitted events alone |
| DispatcherTheorems.Conservation | src/aionetx/implementations/asyncio_impl/event_dispatcher.py:245-264 | emit calls and accepted events are fully accounted for in every reachable state, and depth <= peak <= max_pending_events |
| DispatcherTheorems.DeliveryFollowsAcceptance | src/aionetx/implementations/asyncio_impl/event_dispatcher.py:681-705 | handed and queued events are an order-preserving subsequence of the accepted ones, and all of them if and only if nothing accepted was discarded |
| DispatcherTheorems.BlockDeliversEverything | src/aionetx/implementations/asyncio_impl/event_dispatcher.py:354-412 | under BLOCK and DROP_NEWEST with no resource close, handler-origin stop or dying worker, handed plus queued equals accepted |
| DispatcherTheorems.RunResolvesOnce | src/aionetx/implementations/asyncio_impl/_event_dispatcher_queue.py:25-43 | a future, once resolved, keeps its outcome over every continuation, and none disappears |
| DispatcherTheorems.WaiterLearnsFate | src/aionetx/implementations/asyncio_impl/event_dispatcher.py:303-329 | success iff delivery returned, a drop error iff the event was discarded, the worker's error iff delivery failed or the worker died |
| DispatcherTheorems.BarrierSurvivesBackpressure | src/aionetx/implementations/asyncio_impl/event_dispatcher.py:373-409 | an event with drop_on_backpressure=False is never discarded by backpressure |
| DispatcherArrivals.ArrivalDecides | src/aionetx/implementations/asyncio_impl/event_dispatcher.py:229-264 | over all runs, whatever follows: an emission is delivered in its caller's task if and only if the mode is INLINE or, counted as a fallback, the caller carries the inline context, or no stop is under way and the caller is the worker or there is none; it is rejected on arrival, for good, if and only if in BACKGROUND mode a stop is under way and the caller carries no inline context |
| DispatcherArrivals.TerminalEventsAreDelivered | src/aionetx/implementations/asyncio_impl/event_dispatcher.py:249-255 | whatever is emitted in the inline context after a stop began is delivered, in every run |
| DispatcherArrivals.FateIsFinal | src/aionetx/implementations/asyncio_impl/event_dispatcher.py:303-412 | over every continuation: the fate of an emission that left queue and worker does not change, and one that went through the queue is never delivered in its caller's task |
| DispatcherArrivals.WaitersExactly | src/aionetx/implementations/asyncio_impl/event_dispatcher.py:266-329 | over all runs: an emission has a future if and only if its caller waits and it entered _enqueue |
| DispatcherArrivals.NotifiedExactly | src/aionetx/implementations/asyncio_impl/event_dispatcher.py:188-206 | in every state a task that waits for room is notified, or leaves, if and only if it has waited longest when a place is freed or a cancellation is relayed, is cancelled itself, or everybody is notified by a stop with a worker or a resource close that frees a place |
| DispatcherInvariant.StepKeepsInv | src/aionetx/implementations/asyncio_impl/event_dispatcher.py:188-412 | every action of emitters, producers, worker, stopper and closing resources keeps places, accounting, order and futures |
| DispatcherShutdown.StoppedRunOnlyDrains | src/aionetx/implementations/asyncio_impl/event_dispatcher.py:253-255 | once stopping and not restarted nothing is accepted, the handed events only grow, and by at most the queue length |
| DispatcherShutdown.DrainHandsEverything | src/aionetx/implementations/asyncio_impl/event_dispatcher.py:681-705 | the worker's way out hands over the whole queue in order and exits |
| DispatcherShutdown.ExitSettlesEverything | src/aionetx/implementations/asyncio_impl/event_dispatcher.py:197-222 | after a worker exit through the stop path every accepted event was handed over or discarded by name, and unresolved futures belong to producers inside _enqueue or cancelled there |
| DispatcherShutdown.StopLeavesNoWaiter | src/aionetx/implementations/asyncio_impl/event_dispatcher.py:208-211 | after the producers woken by stop() have left, only futures of cancelled callers are unresolved |
| DispatcherShutdown.WokenProducersLeave | src/aionetx/implementations/asyncio_impl/event_dispatcher.py:362-367 | each woken producer leaves _enqueue, whatever the order |
| DispatcherShutdown.WithoutWorkerNothingMoves | src/aionetx/implementations/asyncio_impl/event_dispatcher.py:205-207 | a barrier queued while there is no worker stays queued and unresolved over every run without a start, stop() included |
| DispatcherShutdown.RunKeepsWaiting | src/aionetx/implementations/asyncio_impl/event_dispatcher.py:361-409 | over any run: the tasks that wait for room are distinct producers inside _enqueue, and a stopping dispatcher with a worker has notified them all |
| DispatcherMarooning.MaroonsExactly | src/aionetx/implementations/asyncio_impl/event_dispatcher.py:690-713 | in every reachable state without worker and queue: some run without a start still queues an event if and only if no stop began, there is capacity, and a producer was notified, or the cancellation of one that waits notifies the next |
| DispatcherMarooning.DyingWorkerMaroons | src/aionetx/implementations/asyncio_impl/event_dispatcher.py:690-713 | a run from the start gets there: the worker notifies a blocked producer, dies of its event, the producer queues a barrier, and stop() leaves it for ever |
| DispatcherShutdown.ProducerOrderPreserved | src/aionetx/implementations/asyncio_impl/event_dispatcher.py:354-412 | the events of a task that awaits each emit are handed over in emission order, whatever the other tasks do |
| Dispatcher.AsyncioEventDispatcher.constructor | src/aionetx/implementations/asyncio_impl/event_dispatcher.py:88-135 | a new dispatcher is the initial state and satisfies the invariant |
| Dispatcher.AsyncioEventDispatcher.SettleAll | src/aionetx/implementations/asyncio_impl/event_dispatcher.py:216-221 | the loop settles every waiter of a batch and records the place of each event |
| Dispatcher.AsyncioEventDispatcher.Start | src/aionetx/implementations/asyncio_impl/event_dispatcher.py:188-195 | creates a worker in BACKGROUND mode if there is none, and accepts again |
| Dispatcher.AsyncioEventDispatcher.Emit | src/aionetx/implementations/asyncio_impl/event_dispatcher.py:245-264 | chooses inline, fallback, rejection or _enqueue in the order of the code and counts accordingly |
| Dispatcher.AsyncioEventDispatcher.FindDroppable | src/aionetx/implementations/asyncio_impl/event_dispatcher.py:374-381 | the loop finds the first droppable event, or none |
| Dispatcher.AsyncioEventDispatcher.TryEnqueue | src/aionetx/implementations/asyncio_impl/event_dispatcher.py:360-409 | one pass of the loop is the declared decision for the policy, and waits exactly when that blocks |
| Dispatcher.AsyncioEventDispatcher.CancelProducer | src/aionetx/implementations/asyncio_impl/event_dispatcher.py:371-372 | a cancelled producer leaves no event behind, and hands its wake-up on where the interpreter does |
| Dispatcher.AsyncioEventDispatcher.Pop | src/aionetx/implementations/asyncio_impl/event_dispatcher.py:690-695 | the worker takes the oldest event and wakes the producer that waited longest |
| Dispatcher.AsyncioEventDispatcher.Complete | src/aionetx/implementations/asyncio_impl/event_dispatcher.py:704-705 | successful delivery resolves the waiter with success |
| Dispatcher.AsyncioEventDispatcher.Fail | src/aionetx/implementations/asyncio_impl/event_dispatcher.py:698-713 | a failed delivery fails its waiter, then everything queued, and the worker is gone |
| Dispatcher.AsyncioEventDispatcher.DrainAndExit | src/aionetx/implementations/asyncio_impl/event_dispatcher.py:686-713 | the drain loop terminates by queue length, hands over the whole queue in order and leaves with an empty queue and no worker |
| Dispatcher.AsyncioEventDispatcher.Stop | src/aionetx/implementations/asyncio_impl/event_dispatcher.py:197-222 | an external stop waits for the worker, one from a handler discards the queue, one without a worker only sets the flag |
| Dispatcher.AsyncioEventDispatcher.SplitQueue | src/aionetx/implementations/asyncio_impl/event_dispatcher.py:334-342 | the loop separates the payload events of one resource and keeps both orders |
| Dispatcher.AsyncioEventDispatcher.DropQueuedEventsForResource | src/aionetx/implementations/asyncio_impl/event_dispatcher.py:331-352 | exactly the queued payload events of the resource go, with drop errors and counts |
| ConnectionEventsTheorems.TrailsExactlyAfterLeak | src/aionetx/implementations/asyncio_impl/asyncio_tcp_connection.py:349-404 | after any run in which nothing leaked: an action makes it possible that a payload is queued, produced or read behind the close event if and only if it is one of three: the teardown preserves a read task that is reading or waits for room beside an active handler and inline delivery; a lifecycle task dies before its first step; a stop asks for the close event over queued payloads a dead lifecycle did not drop |
| ConnectionEventsTheorems.NoPayloadBehindClose | src/aionetx/implementations/asyncio_impl/asyncio_tcp_connection.py:353-397 | in every run: once the close event is due no payload of the connection is queued, produced or still to be read, unless one of the three guards held before |
| ConnectionEventsTheorems.OrderlyCloseIsLast | src/aionetx/implementations/asyncio_impl/asyncio_tcp_connection.py:349-380 | in every mode: if no handler of the connection is active when its teardown begins, its lifecycle is not cancelled before that and no stop asks for its close event, then no payload trails a due close event |
| ConnectionEventsReader.TeardownTreatsReaderExactly | src/aionetx/implementations/asyncio_impl/asyncio_tcp_connection.py:349-374 | in every run: the teardown cancels the read task if and only if there is one, it did not make the first close() itself, and no handler of the connection is active whose events the lifecycle task would deliver inline; the queued payloads go at once if a handler is active |
| ConnectionEventsReader.TeardownGoesOn | src/aionetx/implementations/asyncio_impl/asyncio_tcp_connection.py:369-380 | from every state of a teardown, whatever the read task is doing, it can be carried to the end with the socket closed |
| ConnectionEventsReader.ReaderFollowsItsEvent | src/aionetx/implementations/asyncio_impl/event_dispatcher.py:229-264 | the read task is inside _enqueue if and only if its event is, runs its handler if and only if the event was delivered in its own task, and is back at its loop if the event was rejected |
| ConnectionEventsTheorems.NothingFollowsClose | src/aionetx/implementations/asyncio_impl/event_dispatcher.py:331-352 | in every run: from then on the connection's emitted and handed payload events stay the same, unless one of the guards held |
| ConnectionEventsRuns.PayloadFollowsClose | src/aionetx/implementations/asyncio_impl/asyncio_tcp_connection.py:356-377 | a run from the start with the queue full of another resource's event: a handler closes, the blocked read task is preserved, the close event goes out, and the handler then gets the payload |
| ConnectionEventsProofs.StepKeepsInv | src/aionetx/implementations/asyncio_impl/asyncio_tcp_connection.py:676-700 | every action keeps who may hold a payload; what does not leak keeps a torn-down connection without reader and a committed one without queued payloads |
| HandlerBarrier.NoLostWakeup | src/aionetx/implementations/asyncio_impl/event_dispatcher.py:524-541 | the three tables always have the same keys, and a parked task whose barrier is down is always runnable |
| HandlerBarrier.TokensNeverReused | src/aionetx/implementations/asyncio_impl/event_dispatcher.py:563-570 | a later token is greater than every earlier one and not in the tables |
| HandlerOrigins.TablesHoldOpenContexts | src/aionetx/implementations/asyncio_impl/event_dispatcher.py:515-587 | over all runs: the tables hold resource, owner and kind of exactly the contexts entered and not left, told from the actions alone; the barrier of a resource is up if and only if one of them is of it; and exactly the tasks are inside the wait that should be |
| HandlerOrigins.LeavesExactlyWhenClear | src/aionetx/implementations/asyncio_impl/event_dispatcher.py:524-531 | in every reachable state a waiting task leaves by its own next run, if no context of the resource it named is open, by its cancellation, and by nothing else |
| HandlerOrigins.OriginsAreOpenContexts | src/aionetx/implementations/asyncio_impl/event_dispatcher.py:467-513 | in every reachable state: a task has handler authority if and only if it carries an open context of its own or of nobody, inherits the origin if and only if it carries a dispatching one or its own, and either implies an active handler |
| HandlerBarrier.HandlerContexts.EnterContext | src/aionetx/implementations/asyncio_impl/event_dispatcher.py:563-580 | a fresh token enters all three tables, with the resource and the owner that `TablesHoldOpenContexts` finds there |
| HandlerBarrier.HandlerContexts.ExitContext | src/aionetx/implementations/asyncio_impl/event_dispatcher.py:581-587 | the token leaves all tables and every parked task becomes runnable |
| HandlerBarrier.HandlerContexts.HasActiveHandler | src/aionetx/implementations/asyncio_impl/event_dispatcher.py:515-522 | the scan over the resource table answers whether a handler of the resource is active |
| HandlerBarrier.HandlerContexts.WaitOnce | src/aionetx/implementations/asyncio_impl/event_dispatcher.py:526-531 | one pass returns exactly if the barrier is down, else parks on the current or a fresh waiter |
| DatagramProofs.TornDownExactlyOnce | src/aionetx/implementations/asyncio_impl/_asyncio_datagram_receiver_base.py:823-851 | for all overlapping starts, stops and failures: transitions are a path of the table, socket and task are attached exactly while RUNNING, and every socket no longer open was closed exactly once or leaked, one for each teardown in which the receive task ended with its own exception and none otherwise |
| DatagramProofs.StepKeepsInv | src/aionetx/implementations/asyncio_impl/_asyncio_datagram_receiver_base.py:205-1025 | every action keeps attachment, ownership of the stop and socket accounting |
| DatagramTheorems.EventsKeepOrder | src/aionetx/implementations/asyncio_impl/_asyncio_datagram_receiver_base.py:304-362 | in every run, whatever fails: no event is published twice in one life of the receiver, and none before one that belongs in front of it |
| DatagramTheorems.EventsFollowGrammar | src/aionetx/implementations/asyncio_impl/_asyncio_datagram_receiver_base.py:304-362 | without publication errors the published events follow STARTING (STOPPED, STOPPING STOPPED, or RUNNING [opened] STOPPING closed STOPPED), complete when stopped |
| DatagramStops.StopCompletesExactly | src/aionetx/implementations/asyncio_impl/_asyncio_datagram_receiver_base.py:205-250 | in every reachable state, whatever has failed on the way: a stop under way can still be completed, with STOPPED applied, if and only if it does not wait for a deferred close event that no publisher task and no start() call will look for any more |
| DatagramStops.OrdinaryStopEnds | src/aionetx/implementations/asyncio_impl/_asyncio_datagram_receiver_base.py:205-250 | a stop() call with no active handler and no opened event under way ends STOPPED from its first step on, whichever of its publications and teardown fail, with the socket it found closed or, exactly if the awaited receive task raised, leaked |
| DatagramStops.WaitsForEverExactly | src/aionetx/implementations/asyncio_impl/_asyncio_datagram_receiver_base.py:692-741 | over all runs: a stop waits for ever if and only if it once found the opening slot taken and nobody left to look |
| DatagramStops.StoppingLostExactly | src/aionetx/implementations/asyncio_impl/_asyncio_datagram_receiver_base.py:304-331 | over all runs: the STOPPING transitions applied are those published, the one still to be announced, and one for each handler-side stop that gave up |
| DatagramRuns.CloseOvertakesExactly | src/aionetx/implementations/asyncio_impl/_asyncio_datagram_receiver_base.py:743-813 | without publication errors: after any run in which none did, an action lets the close event overtake the running opened handler if and only if it is the look of a handler-side publisher left over from an earlier life |
| DatagramRuns.CloseOvertakes | src/aionetx/implementations/asyncio_impl/_asyncio_datagram_receiver_base.py:692-765 | a run from the start reaches such a look: a handler begins beside the first stop, so a publisher is made for its close event; start() publishes that one first, and the publisher still waits for the handler when the second life is stopped |
| DatagramRuns.SocketLeaks | src/aionetx/implementations/asyncio_impl/_asyncio_datagram_receiver_base.py:169-203 | a run from the start ends STOPPED with the detached socket never closed |
| DatagramRuns.StopsGiveUp | src/aionetx/implementations/asyncio_impl/_asyncio_datagram_receiver_base.py:304-331 | runs from the start reach both ways to give up, a failing teardown and a dispatcher whose bypass raises; the code gives no cause for the second |
| DatagramRuns.GivingUpLosesStopping | src/aionetx/implementations/asyncio_impl/_asyncio_datagram_receiver_base.py:304-331 | whoever gave up leaves STOPPING unpublished; a later stop publishes a close event with previous state CLOSED, and STOPPING never |
| DatagramStops.ReturnsActiveExactly | src/aionetx/implementations/asyncio_impl/_asyncio_datagram_receiver_base.py:205-250 | after any run without such a beginning: an action makes it possible that a stop() returns on an active receiver if and only if it begins a new life while a stop call still holds its waiter |
| DatagramStops.ReturnedStopMeansInactive | src/aionetx/implementations/asyncio_impl/_asyncio_datagram_receiver_base.py:625-665 | over all runs: whoever awaited a stop finds the receiver inactive when the waiter is released, unless a life began beside a stop's waiter |
| DatagramRuns.StopReturnsOnRunningReceiver | src/aionetx/implementations/asyncio_impl/_asyncio_datagram_receiver_base.py:205-250 | a run from the start: the receiver is RUNNING again when the stop of its first life releases the waiter |
| DatagramRuns.StopStalls | src/aionetx/implementations/asyncio_impl/_asyncio_datagram_receiver_base.py:973-985 | a run from the start reaches a stop that waits for ever: the failed start() call looks, and the stop defers before the slot is cleared |
| DatagramOutcomes.FailedStartIsUndone | src/aionetx/implementations/asyncio_impl/_asyncio_datagram_receiver_base.py:902-1025 | a start() whose STARTING publication fails is undone silently, and one whose socket cannot be created says STOPPED; both leave the receiver as it was, detached |
| DatagramOutcomes.LateFailureChangesNothing | src/aionetx/implementations/asyncio_impl/_asyncio_datagram_receiver_base.py:1014-1025 | if a stop came first, neither the failure nor the delivery of STARTING changes anything but the call's own end |
| DatagramOutcomes.ReceivesExactly | src/aionetx/implementations/asyncio_impl/_asyncio_datagram_receiver_base.py:986-996 | in every reachable state: a receive task begins if and only if the start() call comes to it whose socket is still attached |
| DatagramOutcomes.CallCanEnd | src/aionetx/implementations/asyncio_impl/_asyncio_datagram_receiver_base.py:926-996 | every start() call can come to its end, from every state |
| DatagramOutcomes.PublisherLooksOnce | src/aionetx/implementations/asyncio_impl/_asyncio_datagram_receiver_base.py:692-765 | in every state a handler-side publisher is made if and only if a close event is due, no opened event holds it and a handler is active, and it is gone after its one look |
| DatagramOutcomes.StoppedPublishedExactly | src/aionetx/implementations/asyncio_impl/_asyncio_datagram_receiver_base.py:853-862 | over all runs: a stop that comes to its end applies STOPPED, and publishes it if and only if nothing has failed since it was called |
| DatagramOutcomes.CloseEventUnlessHurt | src/aionetx/implementations/asyncio_impl/_asyncio_datagram_receiver_base.py:673-741 | over all runs: a stop comes to its close event only if nothing failed since it was called, and if nothing has failed at its end, the last thing published is the close event it owed, if any |
| Datagram.DatagramReceiver.constructor | src/aionetx/implementations/asyncio_impl/_asyncio_datagram_receiver_base.py:59-82 | a new receiver is the initial state and satisfies the invariant |
| Datagram.DatagramReceiver.BeginStartup | src/aionetx/implementations/asyncio_impl/_asyncio_datagram_receiver_base.py:902-925 | starts from STOPPED, returns from STARTING and RUNNING, raises from STOPPING without a change; the invariant is kept, as by every method below |
| Datagram.DatagramReceiver.CompleteStartup | src/aionetx/implementations/asyncio_impl/_asyncio_datagram_receiver_base.py:926-953 | the socket is attached together with RUNNING, its failure is published as STOPPED, and nothing happens if a stop intervened |
| Datagram.DatagramReceiver.RollBackStartingPublication | src/aionetx/implementations/asyncio_impl/_asyncio_datagram_receiver_base.py:1014-1025 | a failed STARTING publication is undone silently, if still STARTING |
| Datagram.DatagramReceiver.AnnounceOpened | src/aionetx/implementations/asyncio_impl/_asyncio_datagram_receiver_base.py:954-972 | the opened event is emitted only for the socket still attached |
| Datagram.DatagramReceiver.OpenedEventDone | src/aionetx/implementations/asyncio_impl/_asyncio_datagram_receiver_base.py:964-985 | the successful path clears the slot before it looks for a deferred close, the failure path looks with the slot taken |
| Datagram.DatagramReceiver.PublishDeferredClose | src/aionetx/implementations/asyncio_impl/_asyncio_datagram_receiver_base.py:789-813 | takes the deferred close event if there is one, publishes it and tells the stop that waits; otherwise changes nothing |
| Datagram.DatagramReceiver.LookForDeferredClose | src/aionetx/implementations/asyncio_impl/_asyncio_datagram_receiver_base.py:973-985 | a start() call that published a close does not receive; in the failure path clearing the slot comes next in any case |
| Datagram.DatagramReceiver.PublishForHandlers | src/aionetx/implementations/asyncio_impl/_asyncio_datagram_receiver_base.py:743-765 | the handler-side task publishes at most once and is gone |
| Datagram.DatagramReceiver.ClearOpeningSlot | src/aionetx/implementations/asyncio_impl/_asyncio_datagram_receiver_base.py:976-979 | the slot is emptied only by the start() call it belongs to |
| Datagram.DatagramReceiver.StartReceiving | src/aionetx/implementations/asyncio_impl/_asyncio_datagram_receiver_base.py:986-996 | the receive task is attached only to the socket still attached |
| Datagram.DatagramReceiver.PlanStop | src/aionetx/implementations/asyncio_impl/_asyncio_datagram_receiver_base.py:625-665 | one owner takes socket, task and previous state and computes STOPPING; later callers wait; a stopped receiver has nothing to do |
| Datagram.DatagramReceiver.PublishStopping | src/aionetx/implementations/asyncio_impl/_asyncio_datagram_receiver_base.py:667-671 | STOPPING is published if computed, and the error noted |
| Datagram.DatagramReceiver.TearDownResources | src/aionetx/implementations/asyncio_impl/_asyncio_datagram_receiver_base.py:823-851 | the socket is closed unless the awaited receive task raised; a handler-side failure ends the stop |
| Datagram.DatagramReceiver.PublishClosed | src/aionetx/implementations/asyncio_impl/_asyncio_datagram_receiver_base.py:673-741 | the close event is emitted, left to the start() call whose opened event is in delivery, given to a task of its own, or not due |
| Datagram.DatagramReceiver.PublishStopped | src/aionetx/implementations/asyncio_impl/_asyncio_datagram_receiver_base.py:853-862 | STOPPED is applied in any case and published only without an earlier error |
| Lifecycle.PathCounts | src/aionetx/implementations/asyncio_impl/lifecycle_internal.py:22-31 | on a path of the table STARTING and STOPPED balance, and every run has at most one RUNNING and one STOPPING |
| Lifecycle.RequestMeans | src/aionetx/implementations/asyncio_impl/lifecycle_internal.py:22-111 | a request is granted if and only if it is the next state of the cycle or gives up on STARTING; one for the present state does nothing, every other is refused |
| Lifecycle.TerminationPublishes | src/aionetx/implementations/asyncio_impl/lifecycle_internal.py:125-157 | from every state the two final requests lead to STOPPED with exactly the events that were missing |
| Lifecycle.LifecycleTransitionPublisher.ApplyTo | src/aionetx/implementations/asyncio_impl/lifecycle_internal.py:81-111 | no event without a change; an illegal request raises and leaves state and events alone |
| Lifecycle.LifecycleTransitionPublisher.StopWhenActive | src/aionetx/implementations/asyncio_impl/lifecycle_internal.py:125-140 | STOPPING from STARTING and RUNNING only |
| Lifecycle.LifecycleTransitionPublisher.StoppedWhenStopping | src/aionetx/implementations/asyncio_impl/lifecycle_internal.py:143-157 | STOPPED from STOPPING only |
| ClientLifecycle.EveryRunEndsOnce | src/aionetx/implementations/asyncio_impl/asyncio_tcp_client.py:166-211 | for every interleaving of start, rollback, overlapping stops and ending supervisors: a path of the table, no illegal request by stop, supervision or rollback, at most one STOPPING per run, and one STOPPED, applied by whoever applied the STOPPING |
| ClientLifecycle.StoppingBelongsToOwner | src/aionetx/implementations/asyncio_impl/asyncio_tcp_client.py:383-402 | STOPPING is seen only while its stop owner works; only the owner's next section leaves it, for STOPPED |
| ClientLifecycle.FailedPublicationEndsLife | src/aionetx/implementations/asyncio_impl/asyncio_tcp_client.py:189-213 | in every reachable state: a start() call back from a publication ends the life it finds, its own or a later one, if and only if the publication failed |
| ClientLifecycle.AbandonedExactly | src/aionetx/implementations/asyncio_impl/tcp_client_supervision.py:346-395 | after any run in which none ended that way: an action makes it possible that the client stays active with nothing under way if and only if it is the end of the last supervisor of a running client while a stop call holds the waiter |
| ClientLifecycle.QuietMeansEnded | src/aionetx/implementations/asyncio_impl/asyncio_tcp_client.py:365-403 | over all runs: with no start, supervisor or stop under way the client is STOPPED, unless a supervisor ended that way |
| ClientLifecycle.ClientIsAbandoned | src/aionetx/implementations/asyncio_impl/tcp_client_supervision.py:346-395 | a run from the start leaves the client RUNNING with nothing under way: the stop of the first life is slow to release its waiter |
| ClientStops.ReturnsActiveExactly | src/aionetx/implementations/asyncio_impl/asyncio_tcp_client.py:225-261 | after any run without such a beginning: an action makes it possible that a stop() returns on an active client if and only if it begins a new life while a stop call still holds its waiter |
| ClientStops.ReturnedStopMeansInactive | src/aionetx/implementations/asyncio_impl/asyncio_tcp_client.py:263-317 | over all runs: whoever awaited a stop, its owner or a call that joined it, finds the client inactive when the waiter is released, unless a life began beside a stop's waiter |
| ClientStops.StopReturnsOnRunningClient | src/aionetx/implementations/asyncio_impl/asyncio_tcp_client.py:383-403 | a run from the start: a stop of the second life that joins the owner of the first one returns with the client RUNNING |
| ClientLifecycle.AsyncioTcpClient.BeginStart | src/aionetx/implementations/asyncio_impl/asyncio_tcp_client.py:174-187 | proceeds from STOPPED, returns from STARTING and RUNNING, raises from STOPPING without a change |
| ClientLifecycle.AsyncioTcpClient.CompleteStart | src/aionetx/implementations/asyncio_impl/asyncio_tcp_client.py:196-205 | RUNNING and a supervisor, unless a stop intervened |
| ClientLifecycle.AsyncioTcpClient.FailStartup | src/aionetx/implementations/asyncio_impl/asyncio_tcp_client.py:570-579 | after a failed publication the client is inactive, both transitions from RUNNING, one from STARTING, none otherwise |
| ClientLifecycle.AsyncioTcpClient.PlanStop | src/aionetx/implementations/asyncio_impl/asyncio_tcp_client.py:263-317 | one owner; STOPPING if active; a client with nothing left has nothing to stop |
| ClientLifecycle.AsyncioTcpClient.ApplyStopped | src/aionetx/implementations/asyncio_impl/asyncio_tcp_client.py:388-392 | STOPPED by the owner exactly from STOPPING |
| ClientLifecycle.AsyncioTcpClient.FinalizeSupervision | src/aionetx/implementations/asyncio_impl/tcp_client_supervision.py:346-395 | a supervisor that ends on its own applies both transitions unless an explicit stop is under way |
| Supervisor.EveryNoteMeans | src/aionetx/implementations/asyncio_impl/tcp_client_supervision.py:149-347 | over any outcomes, stops and restarts: consecutive attempt numbers; a failure carries the current number, once, and exactly the delay planned for it, if any; a schedule the next number and the delay the failure announced or, after a clean disconnect, the planned one; nothing scheduled after FAIL_FAST; every planned delay is one the plans since the last connect allow |
| SupervisorCourse.PublishesExactly | src/aionetx/implementations/asyncio_impl/tcp_client_supervision.py:149-347 | in every state an action publishes exactly the events that its outcome, the client's flag, the policy and the settings call for, with these numbers and delays |
| SupervisorCourse.EndsExactly | src/aionetx/implementations/asyncio_impl/tcp_client_supervision.py:149-171 | supervision ends if and only if it was stopped or no reconnect is wanted where that is tested, FAIL_FAST applies, the failure announced no retry, an emission or teardown of a failure fails, or it is cancelled |
| SupervisorCourse.EveryFailureIsRetried | src/aionetx/implementations/asyncio_impl/tcp_client_supervision.py:174-193 | under RETRY and IGNORE, for every number of failed connects in a row: the client is connecting again, and each failure was announced with its number and followed by a schedule and an attempt with the next one, after the delay of one backoff step more |
| SupervisorCourse.DisconnectIsRetried | src/aionetx/implementations/asyncio_impl/tcp_client_supervision.py:230-232 | the same after a clean disconnect |
| SupervisorCourse.SupervisionConnects | src/aionetx/implementations/asyncio_impl/tcp_client_supervision.py:149-171 | a supervision task that begins publishes its attempt and connects |
| SupervisorCourse.SupervisionGoesOn | src/aionetx/implementations/asyncio_impl/tcp_client_supervision.py:149-193 | over all runs: while the client runs, reconnect is enabled and the policy is not FAIL_FAST, no outcome of connects and no end of a connection ends supervision |
| Supervisor.PlannedDelayClosedForm | src/aionetx/implementations/asyncio_impl/tcp_client_supervision.py:242-247 | without jitter the k-th plan since the last connect is min(initial * factor^k, max) |
| Supervisor.FailFastConsumesAStep | src/aionetx/implementations/asyncio_impl/tcp_client_supervision.py:174-193 | FAIL_FAST with reconnect enabled ends the supervision one backoff step further, for every state |
| Supervisor.TapeIsRead | src/aionetx/implementations/asyncio_impl/tcp_client_supervision.py:149-347 | the published sequence is a word of the event grammar, in step with attempt counter and backoff |
| Supervisor.TcpClientConnectionSupervisor.StartConnectAttempt | src/aionetx/implementations/asyncio_impl/tcp_client_supervision.py:200-211 | counts and announces an attempt, or ends when not running |
| Supervisor.TcpClientConnectionSupervisor.Connected | src/aionetx/implementations/asyncio_impl/tcp_client_supervision.py:212-219 | a successful connect resets the backoff |
| Supervisor.TcpClientConnectionSupervisor.HandleFailure | src/aionetx/implementations/asyncio_impl/tcp_client_supervision.py:174-193 | the plan comes first, then the error event unless ignored, then the failure event |
| Supervisor.TcpClientConnectionSupervisor.ScheduleAfterDisconnect | src/aionetx/implementations/asyncio_impl/tcp_client_supervision.py:230-232 | a clean disconnect schedules the next attempt or ends |
| Supervisor.TcpClientConnectionSupervisor.ContinueAfterFailure | src/aionetx/implementations/asyncio_impl/tcp_client_supervision.py:290-320 | stops under FAIL_FAST, when stopped or disabled, else schedules the announced delay; what follows is `EveryFailureIsRetried` and `EndsExactly` |
| Backoff.ClosedForm | src/aionetx/implementations/asyncio_impl/runtime_utils.py:89-96 | the delay after n steps is min(initial * factor^n, max) |
| Backoff.DelaysNondecreasing | src/aionetx/implementations/asyncio_impl/runtime_utils.py:89-96 | delays never fall |
| Backoff.DelayBounds | src/aionetx/api/tcp_reconnect_settings.py:53-69 | validated settings keep every delay within [initial, max] |
| Backoff.JitterRange | src/aionetx/implementations/asyncio_impl/runtime_utils.py:98-106 | FULL stays within [0, d], EQUAL within [d/2, d], NONE is d, and d <= max |
| Backoff.JitterCovers | src/aionetx/implementations/asyncio_impl/runtime_utils.py:98-106 | every delay of those ranges can be drawn |
| Backoff.ReachesCap | src/aionetx/implementations/asyncio_impl/runtime_utils.py:92-95 | with factor > 1 the cap is reached by step (max/initial - 1)/(factor - 1) and kept |
| Backoff.CapReachedExactly | src/aionetx/api/tcp_reconnect_settings.py:53-69 | the cap is reached at all if and only if factor > 1 or initial = max |
| Backoff.ReconnectBackoff.Reset | src/aionetx/implementations/asyncio_impl/runtime_utils.py:85-87 | back to the initial delay |
| Backoff.ReconnectBackoff.NextDelay | src/aionetx/implementations/asyncio_impl/runtime_utils.py:89-96 | returns the jittered current delay and moves one step on |
| Framing.HeaderRoundTrip | examples/tcp_framing_length_prefix.py:66-84 | pack and unpack are inverse to each other, both ways |
| Framing.HeaderIsBigEndian | examples/tcp_framing_length_prefix.py:66-84 | both fields are big-endian, the type before the length |
| Framing.FramesArrive | examples/tcp_framing_length_prefix.py:228-259 | any cutting of concatenated encoded frames dispatches exactly those frames in order and leaves an empty buffer |
| Framing.CutsDoNotMatter | examples/tcp_framing_length_prefix.py:228-259 | without an oversize header the outcome of any cutting is that of the whole stream at once |
| Framing.NoFrameLost | examples/tcp_framing_length_prefix.py:228-259 | also when dispatches raise: frames dispatched so far and those still in the buffer are the frames of the stream, each once and in order |
| Framing.TakeMeans | examples/tcp_framing_length_prefix.py:232-259 | reading a stream is splitting it into encoded frames and an incomplete rest, or the first header that claims too much, however little of its payload is there: such a split exists, and only this one |
| Framing.FrameArrivesExactly | examples/tcp_framing_length_prefix.py:161-166 | a frame that can be encoded arrives if and only if its payload is within the receiver's limit, which the encoder does not check |
| Framing.OversizeDiscardsItsChunk | examples/tcp_framing_length_prefix.py:237-245 | up to the first oversize header the frames depend on the bytes alone; the rest of the chunk that completes it is discarded and the handler starts afresh with the next one |
| Framing.CutsMatterAfterOversize | examples/tcp_framing_length_prefix.py:237-245 | for every oversize header and acceptable frame behind it, one cutting loses the frame and another dispatches it |
| Framing.FramingHandler.OnBytesReceived | examples/tcp_framing_length_prefix.py:228-259 | the loop takes from the connection's buffer exactly what the specification takes, and touches no other buffer |
| RateLimiter.TableStaysBounded | src/aionetx/implementations/asyncio_impl/runtime_utils.py:64-72 | dictionary and order agree and never exceed max_keys |
| RateLimiter.TableIsHistory | src/aionetx/implementations/asyncio_impl/runtime_utils.py:64-74 | the table holds exactly the times of the latest allowed calls of keys not pushed out since |
| RateLimiter.SuppressedHasWitness | src/aionetx/implementations/asyncio_impl/runtime_utils.py:64-74 | every suppressed call has an earlier allowed call of its key within one interval |
| RateLimiter.AllowedCallsAreSpaced | src/aionetx/implementations/asyncio_impl/runtime_utils.py:64-74 | without an eviction of the key in between, allowed calls are an interval apart |
| RateLimiter.FewKeysAlwaysSpaced | src/aionetx/implementations/asyncio_impl/runtime_utils.py:66-70 | with at most max_keys keys in use this holds for all calls |
| RateLimiter.EvictsByLastUpdateExactly | src/aionetx/implementations/asyncio_impl/runtime_utils.py:66-72 | over any history: keys are pushed out by last update at every moment if and only if no call updated a tracked key other than the newest |
| RateLimiter.FreshlyUpdatedKeyIsEvicted | src/aionetx/implementations/asyncio_impl/runtime_utils.py:66-71 | a concrete history with room for two keys pushes out the key let through just now, and lets it through again at the same moment |
| RateLimiter.WarningRateLimiter.ShouldLog | src/aionetx/implementations/asyncio_impl/runtime_utils.py:54-74 | the method answers and updates as specified and keeps the table bounded |
| ConnectionIds.IdsDistinct | src/aionetx/implementations/asyncio_impl/identifier_utils.py:22-26 | equal identifiers have equal sequence numbers, whatever hosts and ports print as |
| ServerTables.TablesStayConsistent | src/aionetx/implementations/asyncio_impl/_tcp_server_helpers.py:131-147 | over any accepts, closes, heartbeat starts and stops: connections within max_connections, senders only for tracked connections, identifiers pairwise distinct, and every sender entered is in the table or was taken out |
| ServerTables.ReleasedOnce | src/aionetx/implementations/asyncio_impl/asyncio_tcp_server.py:706-712 | a sender taken out never comes back, so one caller stops it |
| ServerTracking.TrackedExactly | src/aionetx/implementations/asyncio_impl/_tcp_server_helpers.py:274-311 | over all runs: tracked are exactly the connections that were admitted, with the server RUNNING and room for them, and neither closed nor were taken by a stop since |
| ServerTracking.BeatingExactly | src/aionetx/implementations/asyncio_impl/_tcp_server_helpers.py:131-147 | over all runs: in the sender table are exactly the senders that were entered, with the server RUNNING and the connection tracked, and neither failed nor went with their connection since |
| ServerTracking.PendingExactly | src/aionetx/implementations/asyncio_impl/_tcp_server_helpers.py:131-147 | over all runs: exactly the admitted clients that have not come to their heartbeat yet may still enter a sender |
| ServerTracking.ClosedPlaceIsFree | src/aionetx/implementations/asyncio_impl/asyncio_tcp_server.py:706-712 | in every reachable RUNNING state the place of a connection that closes is free for the next client, whoever it is |
| ServerTracking.LifecycleIsLegal | src/aionetx/implementations/asyncio_impl/asyncio_tcp_server.py:139-292 | every action leaves the lifecycle alone or moves it along the table; a rollback out of RUNNING takes two steps at once |
| ServerTracking.StopRunsToEnd | src/aionetx/implementations/asyncio_impl/asyncio_tcp_server.py:230-262 | a stop under way applies STOPPED if STOPPING and releases its waiter, and changes nothing else |
| ServerTracking.FailedStartEndsStopped | src/aionetx/implementations/asyncio_impl/asyncio_tcp_server.py:139-217 | a start that fails to bind or is rolled back ends STOPPED, and changes nothing else in the tables |
| ServerTables.TrackingEndsWithRunning | src/aionetx/implementations/asyncio_impl/asyncio_tcp_server.py:729-737 | over all runs: a server that is not RUNNING tracks exactly the connections that rollbacks out of RUNNING left and that neither closed nor were stopped since |
| ServerTables.TracksOnlyWhileRunningExactly | src/aionetx/implementations/asyncio_impl/asyncio_tcp_server.py:729-737 | never outside RUNNING, at any moment, if and only if no start was rolled back with connections in the table |
| ServerTables.RollbackLeavesConnection | src/aionetx/implementations/asyncio_impl/asyncio_tcp_server.py:210-217 | a run from the start leaves one: a client is accepted before the publication of RUNNING fails |
| ServerStops.ReturnsActiveExactly | src/aionetx/implementations/asyncio_impl/asyncio_tcp_server.py:230-292 | after any run without such a beginning: an action makes it possible that a stop() returns on an active server if and only if it begins a new life while a stop call still holds its waiter |
| ServerStops.ReturnedStopMeansInactive | src/aionetx/implementations/asyncio_impl/asyncio_tcp_server.py:269-292 | over all runs: whoever awaited a stop finds the server inactive when the waiter is released, unless a life began beside a stop's waiter |
| ServerStops.StopReturnsOnRunningServer | src/aionetx/implementations/asyncio_impl/asyncio_tcp_server.py:230-292 | a run from the start: a stop that joins the owner of the first life's stop returns with the server RUNNING |
| ServerTables.AsyncioTcpServer.HandleAccepted | src/aionetx/implementations/asyncio_impl/_tcp_server_helpers.py:274-311 | the identifier is drawn first; accepted exactly if RUNNING and below the maximum; full exactly if RUNNING and not accepted |
| ServerTables.AsyncioTcpServer.RegisterSender | src/aionetx/implementations/asyncio_impl/_tcp_server_helpers.py:131-147 | a sender is entered exactly if RUNNING and its connection is tracked |
| ServerTables.AsyncioTcpServer.OnConnectionClosed | src/aionetx/implementations/asyncio_impl/asyncio_tcp_server.py:706-712 | connection and sender leave together, and the caller gets the sender |
| ServerTables.AsyncioTcpServer.PlanStop | src/aionetx/implementations/asyncio_impl/asyncio_tcp_server.py:269-292 | the one owner takes all senders and connections; any other caller takes nothing |

## Left out

- ConnectionEventsTheorems.NoPayloadBehindClose: a payload event that the worker took before the close event was emitted may still be in delivery; a read task that is handling its own payload inline is outside the claim until its handler returns.
- DatagramTheorems.EventsFollowGrammar: about runs in which nothing published or torn down fails; for all runs there are `EventsKeepOrder`, `TornDownExactlyOnce` and `StoppingLostExactly`.
- TcpConnectionHandlers.CloseEventWaitsForHandlers: for a mode that does not change within the run; a worker that leaves between the decision and the emission is not followed.
- DatagramStops.OrdinaryStopEnds: the course of a stop that defers nothing; whether any other stop can be completed, and in which states, is `StopCompletesExactly`.
- DispatcherShutdown.ExitSettlesEverything: about worker exits through the stop path only, because of the marooned events above.
- DispatcherMarooning.DyingWorkerMaroons: for a queue of one event; a larger one is filled the same way.
- Cancellation of the datagram receiver's internal publisher task from outside, as at loop shutdown.
- Datagram close event: claimed, emitted and reported to the waiting stop in one step, since nothing else looks in between.
- Supervision tasks of one client that overlap across a restart: `Supervisor` has one at a time; `ClientLifecycle` allows any number.
- Order of published lifecycle events of the TCP client and server: only the applied transitions are modelled.
- Handler failure policies: the outcomes that keep the worker alive count as delivered, the events they emit are further emissions, and the stop they may call is a further stop.
- Stop-bypass tokens and the context variables themselves: their answers are parameters.
- The two cancellation-preserving awaits: a caller's cancellation never reaches the shared task, which is how the actions treat it.
- Sockets, streams, multicast membership, TLS, bind options, send paths and timeouts: a socket is open, closed or left open, a read has any outcome.
- Floating point: delays and times are reals.
- JSON payloads and message classes of the framing example: payloads are byte sequences, and a frame whose payload does not decode counts as dispatched.
- Logging, diagnostics views, context managers, owner-loop checks and settings validation other than the reconnect bounds.
- Heartbeat sender loop, UDP sender, event router and factories: they would add easy members only.

// A datagram receiver (UDP or multicast): start, overlapping stop() calls, and the
// events they publish, as a state machine.  One action is the code between two
// awaits.
//
// Sockets are numbered by their attachment.  `log` lists the published events in
// the order in which their emission began; `closed` the sockets that stops closed,
// `leaked` those they detached and did not close.

module DatagramSpec {
  import opened Common
  import L = Lifecycle

  datatype Event =
    | Life(t: L.Transition)
    | Opened(id: nat)
    | ClosedEvent(previous: ConnectionState)

  // Where the stop call that owns the shutdown will continue.  An ordinary stop
  // goes Announce, Teardown, Close, Finish; one that a handler is behind goes
  // Teardown, Bypass, Unwind, Announce, Close, Finish.
  datatype Phase = Announce | Teardown | Bypass | Unwind | Close | AwaitClose | Finish | Ending

  // DatagramStopSnapshot of the owner, with the first error noted.  `awaits` says
  // that the teardown cancels the receive task and awaits it.
  datatype Plan = Plan(
    stopping: Option<L.Transition>,
    toStopped: bool,
    closes: bool,
    previous: ConnectionState,
    sock: Option<nat>,
    awaits: bool,
    failed: bool)

  // How the teardown ends.  A cancelled caller is told after the task has settled; an
  // exception of the receive task itself passes through at once.
  datatype Torn = TornDown | CallerCancelled | TaskRaised

  datatype Owner = NoOwner | Owner(deferred: bool, phase: Phase, plan: Plan)

  // DatagramRuntimeState, as far as both sides use it.
  datatype Runtime = Runtime(running: bool, sock: Option<nat>, task: Option<nat>, conn: ConnectionState)

  // Where the start() call that attached a socket will continue: with RUNNING being
  // emitted, with its opened event in delivery, before its look for a deferred close
  // event, in the failure path before that look and after it, or before the receive
  // task.
  datatype Stage = Announcing | Delivering | Looking | Failing | Clearing | Attaching

  // `starting` calls of start() await delivery of STARTING, `at` says of each socket
  // how far its call is.
  datatype Starters = Starters(starting: nat, at: map<nat, Stage>)

  // `opening` is opening_event_task, `publisher` says that a task will publish a
  // deferred close event once it finds no active handler.
  datatype Receiver = Receiver(
    track: L.Track,
    rt: Runtime,
    owner: Owner,
    starters: Starters,
    opening: Option<nat>,
    publisher: bool,
    nextSock: nat,
    log: seq<Event>,
    closed: seq<nat>,
    leaked: seq<nat>)

  const DETACHED := Runtime(false, None, None, Created)

  const INITIAL := Receiver(L.NEW, DETACHED, NoOwner, Starters(0, map[]), None, false, 0, [], [], [])

  datatype Action =
    | StartBegins
    | StartingDelivered(socketOk: bool)
    | StartingFails
    | RunningEmitted(id: nat, ok: bool)
    | OpenedHandled(id: nat, ok: bool)
    | StarterLooks(id: nat, ok: bool)
    | OpeningCleared(id: nat)
    | ReceiverStarts(id: nat)
    | Stop(deferred: bool, sparesTask: bool)
    | StopAnnounces(ok: bool)
    | StopTearsDown(outcome: Torn)
    | StopBypasses(ok: bool)
    | HandlersUnwind
    | StopCloses(handlerActive: bool, ok: bool)
    | PublisherLooks(ok: bool)
    | StopFinishes
    | StopEnds

  // ---- start() ------------------------------------------------------------------

  function Published(r: Receiver, target: L.Lifecycle): Receiver {
    r.(track := L.Apply(r.track, target), log := r.log + [Life(L.Transition(r.track.state, target))])
  }

  // _begin_startup up to its await.
  function DoStartBegins(r: Receiver): Receiver {
    Published(r, L.Starting).(starters := r.starters.(starting := r.starters.starting + 1))
  }

  // STARTING was delivered.  If no stop intervened the socket is created and
  // attached before anything else runs, or its creation fails.
  function DoStartingDelivered(r: Receiver, socketOk: bool): Receiver
    requires r.starters.starting > 0
  {
    var r1 := r.(starters := r.starters.(starting := r.starters.starting - 1));
    if !r.track.state.Starting? then r1
    else if socketOk then
      Published(r1, L.Running).(rt := Runtime(true, Some(r.nextSock), r.rt.task, Connected),
                                starters := r1.starters.(at := r.starters.at[r.nextSock := Announcing]),
                                nextSock := r.nextSock + 1)
    else Published(r1, L.Stopped).(rt := DETACHED)
  }

  // _rollback_failed_starting_publication: no event is published.
  function DoStartingFails(r: Receiver): Receiver
    requires r.starters.starting > 0
  {
    var r1 := r.(starters := r.starters.(starting := r.starters.starting - 1));
    if !r.track.state.Starting? then r1
    else r1.(track := L.Apply(r.track, L.Stopped), rt := DETACHED)
  }

  predicate StillMine(r: Receiver, id: nat) { r.rt.sock == Some(id) && r.rt.running && r.track.state.Running? }

  function Moved(r: Receiver, id: nat, to: Stage): Receiver {
    r.(starters := r.starters.(at := r.starters.at[id := to]))
  }

  function Gone(r: Receiver, id: nat): Receiver { r.(starters := r.starters.(at := r.starters.at - {id})) }

  function DoRunningEmitted(r: Receiver, id: nat, ok: bool): Receiver {
    if !ok || !StillMine(r, id) then Gone(r, id)
    else Moved(r, id, Delivering).(opening := Some(id), log := r.log + [Opened(id)])
  }

  function SlotCleared(r: Receiver, id: nat): Receiver {
    r.(opening := if r.opening == Some(id) then None else r.opening)
  }

  // Only the successful path clears the slot before it looks.
  function DoOpenedHandled(r: Receiver, id: nat, ok: bool): Receiver {
    if ok then SlotCleared(Moved(r, id, Looking), id) else Moved(r, id, Failing)
  }

  predicate CloseDeferred(r: Receiver) { r.owner.Owner? && r.owner.phase.AwaitClose? }

  function Note(o: Owner, ok: bool, next: Phase): Owner
    requires o.Owner?
  {
    o.(phase := next, plan := o.plan.(failed := o.plan.failed || !ok))
  }

  // _publish_deferred_close_after_opened_event: whoever finds a deferred close event
  // publishes it and tells the owner.
  function Looked(r: Receiver, ok: bool): Receiver {
    if !CloseDeferred(r) then r
    else r.(owner := Note(r.owner, ok, Finish), log := r.log + [ClosedEvent(r.owner.plan.previous)])
  }

  function DoStarterLooks(r: Receiver, id: nat, ok: bool): Receiver
    requires id in r.starters.at
  {
    var r1 := Looked(r, ok);
    if r.starters.at[id].Failing? then Moved(r1, id, Clearing)
    else if CloseDeferred(r) then Gone(r1, id)
    else Moved(r1, id, Attaching)
  }

  function DoReceiverStarts(r: Receiver, id: nat): Receiver {
    Gone(r, id).(rt := r.rt.(task := if StillMine(r, id) then Some(id) else r.rt.task))
  }

  // ---- stop() -------------------------------------------------------------------

  predicate FullyStopped(r: Receiver) { !r.rt.running && r.rt.sock.None? && r.track.state.Stopped? }

  // _plan_stop_snapshot of the call that becomes the owner.
  function DoStop(r: Receiver, deferred: bool, sparesTask: bool): Receiver {
    var asks := L.Request(r.track.state, L.Stopping);
    var plan := Plan(if asks.Changed? then Some(asks.event) else None, !r.track.state.Stopped?,
                     !r.track.state.Starting?, r.rt.conn, r.rt.sock, r.rt.task.Some? && !sparesTask, false);
    r.(track := if r.track.state.Stopped? then r.track else L.Apply(r.track, L.Stopping),
       rt := Runtime(false, None, None, Closed),
       owner := Owner(deferred, if deferred then Teardown else Announce, plan))
  }

  // STOPPING is emitted if the plan computed it.
  function DoStopAnnounces(r: Receiver, ok: bool): Receiver
    requires r.owner.Owner?
  {
    var next := if r.owner.deferred then (if ok then Close else Finish) else Teardown;
    r.(owner := Note(r.owner, ok, next),
       log := if r.owner.plan.stopping.Some? then r.log + [Life(r.owner.plan.stopping.value)] else r.log)
  }

  // The receive task is cancelled and awaited, then the socket is closed.  A
  // handler-side stop that fails here gives up, with the lifecycle still at STOPPING.
  function DoStopTearsDown(r: Receiver, outcome: Torn): Receiver
    requires r.owner.Owner?
  {
    var o, ok := r.owner, outcome.TornDown?;
    var sock := if o.plan.sock.Some? then [o.plan.sock.value] else [];
    var next := if o.deferred then Bypass else if ok && !o.plan.failed then Close else Finish;
    r.(closed := if outcome.TaskRaised? then r.closed else r.closed + sock,
       leaked := if outcome.TaskRaised? then r.leaked + sock else r.leaked,
       owner := if o.deferred && !ok then NoOwner
                else Note(o, ok, next).(plan := o.plan.(failed := o.plan.failed || !ok, sock := None, awaits := false)))
  }

  function DoStopBypasses(r: Receiver, ok: bool): Receiver
    requires r.owner.Owner?
  {
    r.(owner := if ok then r.owner.(phase := Unwind) else NoOwner)
  }

  // _publish_closed_event_if_needed: nothing to publish, deferred, or emitted here.
  // Behind an opened event it is left to the start() call; otherwise a task is made
  // for it.
  function DoStopCloses(r: Receiver, handlerActive: bool, ok: bool): Receiver
    requires r.owner.Owner?
  {
    var o := r.owner;
    if !o.plan.closes then r.(owner := o.(phase := Finish))
    else if r.opening.Some? then r.(owner := o.(phase := AwaitClose))
    else if handlerActive then r.(owner := o.(phase := AwaitClose), publisher := true)
    else r.(owner := Note(o, ok, Finish), log := r.log + [ClosedEvent(o.plan.previous)])
  }

  // STOPPED is applied in any case, but published only without an earlier error.
  function DoStopFinishes(r: Receiver): Receiver
    requires r.owner.Owner?
  {
    var o := r.owner;
    var asks := L.Request(r.track.state, L.Stopped);
    r.(owner := o.(phase := Ending),
       track := if o.plan.toStopped then L.Apply(r.track, L.Stopped) else r.track,
       log := if o.plan.toStopped && !o.plan.failed && asks.Changed? then r.log + [Life(asks.event)] else r.log)
  }

  // ---- the transition relation ------------------------------------------------------

  // A start() call looks one turn of the loop after it has cleared its slot.  A stop that
  // comes to its close event with the slot taken by a later call comes more turns after
  // that: with a worker the later STARTING had to be queued, delivered and waited for, and
  // without one the stop has waited for the opened handler in a task of its own.
  predicate NobodyLooking(r: Receiver) { forall id :: id in r.starters.at ==> !IsAt(r, id, Looking) }

  predicate IsAt(r: Receiver, id: nat, g: Stage) { id in r.starters.at && r.starters.at[id] == g }

  predicate Enabled(r: Receiver, a: Action) {
    match a
    // From STOPPING the request raises and nothing happens.
    case StartBegins => r.track.state.Stopped?
    case StartingDelivered(_) => r.starters.starting > 0
    case StartingFails => r.starters.starting > 0
    case RunningEmitted(id, _) => IsAt(r, id, Announcing)
    case OpenedHandled(id, _) => IsAt(r, id, Delivering)
    case StarterLooks(id, _) => IsAt(r, id, Looking) || IsAt(r, id, Failing)
    case OpeningCleared(id) => IsAt(r, id, Clearing)
    case ReceiverStarts(id) => IsAt(r, id, Attaching)
    // Any other call of stop() waits for the owner, or finds nothing to stop.
    case Stop(_, _) => r.owner.NoOwner? && !FullyStopped(r)
    case StopAnnounces(_) => r.owner.Owner? && r.owner.phase.Announce?
    case StopTearsDown(outcome) =>
      r.owner.Owner? && r.owner.phase.Teardown? && (outcome.TornDown? || r.owner.plan.awaits)
    case StopBypasses(_) => r.owner.Owner? && r.owner.phase.Bypass?
    case HandlersUnwind => r.owner.Owner? && r.owner.phase.Unwind?
    case StopCloses(_, _) => r.owner.Owner? && r.owner.phase.Close? && (r.opening.Some? ==> NobodyLooking(r))
    case PublisherLooks(_) => r.publisher
    case StopFinishes => r.owner.Owner? && r.owner.phase.Finish?
    case StopEnds => r.owner.Owner? && r.owner.phase.Ending?
  }

  function Step(r: Receiver, a: Action): Receiver
    requires Enabled(r, a)
  {
    match a
    case StartBegins => DoStartBegins(r)
    case StartingDelivered(socketOk) => DoStartingDelivered(r, socketOk)
    case StartingFails => DoStartingFails(r)
    case RunningEmitted(id, ok) => DoRunningEmitted(r, id, ok)
    case OpenedHandled(id, ok) => DoOpenedHandled(r, id, ok)
    case StarterLooks(id, ok) => DoStarterLooks(r, id, ok)
    case OpeningCleared(id) => SlotCleared(Gone(r, id), id)
    case ReceiverStarts(id) => DoReceiverStarts(r, id)
    case Stop(deferred, sparesTask) => DoStop(r, deferred, sparesTask)
    case StopAnnounces(ok) => DoStopAnnounces(r, ok)
    case StopTearsDown(outcome) => DoStopTearsDown(r, outcome)
    case StopBypasses(ok) => DoStopBypasses(r, ok)
    case HandlersUnwind => r.(owner := r.owner.(phase := Announce))
    case StopCloses(handlerActive, ok) => DoStopCloses(r, handlerActive, ok)
    case PublisherLooks(ok) => Looked(r, ok).(publisher := false)
    case StopFinishes => DoStopFinishes(r)
    case StopEnds => r.(owner := NoOwner)
  }

  function Next(r: Receiver, a: Action): Receiver { if Enabled(r, a) then Step(r, a) else r }

  function RunFrom(r: Receiver, acts: seq<Action>): Receiver
    decreases acts
  {
    if acts == [] then r else RunFrom(Next(r, acts[0]), acts[1..])
  }

  function Run(acts: seq<Action>): Receiver { RunFrom(INITIAL, acts) }
}

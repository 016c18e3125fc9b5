// The close protocol of one TCP connection as a state machine.
//
// One action is the code that runs between two awaits.  Caller tasks, user
// handlers, the peer and the event loop choose which action comes next, so a
// run is an arbitrary sequence of actions.
//
// A task slot of the connection is shown as the place where its task will
// continue; an empty slot and a slot holding a finished task read the same to
// every test the code makes (`is None or done()`), so both are the `No...` value.

module TcpConnectionSpec {
  import opened Common

  // How far delivery of ConnectionOpenedEvent has come.
  datatype Phase = Queued | Handling | Handled(ok: bool)

  // The outcome of one attempt to publish a deferred close.
  datatype Outcome = NothingToPublish | Published | Raised

  // Facts about the close() caller that the lifecycle task carries along.
  datatype Origin = Origin(usesInline: bool, byStarter: bool)

  // _close_task
  datatype Life =
    | NoLife
    | Teardown(origin: Origin)
    | Callback(origin: Origin)
    | Deciding(origin: Origin, cancelled: bool)
    | Finalizing(cancelled: bool)
    | AwaitsPublication(cancelled: bool)
    | AwaitsWaiter(cancelled: bool, awaited: nat)
    | Informed(cancelled: bool, ok: bool)

  // _close_event_task
  datatype Publication =
    | NoPublication
    | Ready(report: ConnectionState)
    | Emitting(report: ConnectionState)
    | Marking(ok: bool)

  // A task inside _publish_deferred_close_after_opened_event, or about to be.
  // `settles` is the waiter it found when it claimed the deferred close.
  datatype Publisher =
    | NoPublisher
    | WaitsForHandlers
    | Claiming
    | Claimed(settles: Option<nat>)
    | AwaitsEmission(settles: Option<nat>)
    | Told(settles: Option<nat>, ok: bool)

  // _deferred_close_event_waiter
  datatype Waiter = NoWaiter | Pending(id: nat) | Done(id: nat)

  // The task inside start().
  datatype Starter =
    | Idle
    | ReadyHook
    | Opening(phase: Phase)
    | Settling(openFailed: bool, child: Publisher)
    | Settled(openFailed: bool, outcome: Outcome)
    | Finished

  datatype History = History(
    firstPreClose: Option<ConnectionState>,
    livesRunning: int,
    livesEnded: nat,
    publicationsRunning: int,
    teardowns: nat,
    callbacks: nat,
    openedEmits: nat,
    closesCompleted: nat,
    deferrals: nat,
    claims: nat,
    reports: seq<ConnectionState>)

  datatype Conn = Conn(
    state: ConnectionState,
    published: bool,
    previous: Option<ConnectionState>,
    life: Life,
    publication: Publication,
    publisher: Publisher,
    deferred: bool,
    waiter: Waiter,
    opening: bool,
    starter: Starter,
    reading: bool,
    handlers: nat,
    nextWaiter: nat,
    hist: History)

  const INITIAL := Conn(Created, false, None, NoLife, NoPublication, NoPublisher, false, NoWaiter, false, Idle,
                        false, 0, 0, History(None, 0, 0, 0, 0, 0, 0, 0, 0, 0, []))

  // What the dispatcher says about the lifecycle task when it decides.
  datatype Facts = Facts(inherited: bool, handlerInFlight: bool, activeInline: bool)

  datatype Action =
    | Start
    | ReadyReturns(inline: bool)
    | ReadyRaises
    | OpenedHandlerStarts
    | OpenedSettles(ok: bool)
    | OpeningResumes
    | StarterResumes(cancelled: bool)
    | HandlerEnters
    | HandlerLeaves
    | Close(usesInline: bool, byStarter: bool)
    | TeardownSocket
    | RunCallback
    | CancelTeardown
    | LifeRaises
    | Decide(facts: Facts)
    | LifeFinalizes
    | LifeResumes
    | EmitBegins
    | EmitReturns(ok: bool)
    | MarkPublication
    | EnsureWaiter
    | HandlersClear
    | CancelPublisher
    | PublisherClaims
    | PublisherFinalizes
    | PublisherSettles
    | ChildClaims
    | ChildFinalizes
    | ChildSettles

  // ---- building blocks ------------------------------------------------------

  // A handler for an event of this connection is running.
  predicate ActiveHandler(c: Conn) { c.handlers > 0 || c.starter == Opening(Handling) }

  function FirstOf(a: Option<ConnectionState>, b: ConnectionState): Option<ConnectionState> {
    if a.Some? then a else Some(b)
  }

  // Keeps a pending waiter, otherwise installs a fresh one.
  function FreshWaiter(w: Waiter, id: nat): (r: Waiter)
    ensures r.Pending?
  {
    if w.Pending? then w else Pending(id)
  }

  function FreshPublisher(p: Publisher): Publisher { if p.NoPublisher? then WaitsForHandlers else p }

  // Setting the result of future `f` if it is the pending waiter.
  function AfterSettling(w: Waiter, f: Option<nat>): Waiter {
    if f.Some? && w == Pending(f.value) then Done(f.value) else w
  }

  function LifeAfterSettling(l: Life, w: Waiter, f: Option<nat>, ok: bool): Life {
    if f.Some? && w == Pending(f.value) && l.AwaitsWaiter? && l.awaited == f.value
    then Informed(l.cancelled, ok)
    else l
  }

  // The publisher that claimed `f` empties the slot if `f` still occupies it.
  function Cleared(w: Waiter, f: Option<nat>): Waiter {
    if f.Some? && !w.NoWaiter? && w.id == f.value then NoWaiter else w
  }

  function IdOf(w: Waiter): Option<nat> { if w.NoWaiter? then None else Some(w.id) }

  // The deferral flag is raised, or stays up.
  function DeferralRaised(h: History, wasUp: bool): History { h.(deferrals := h.deferrals + if wasUp then 0 else 1) }

  function Tell(p: Publisher, ok: bool): Publisher {
    if p.AwaitsEmission? then Told(p.settles, ok) else p
  }

  // Every task that awaits the publication learns its outcome.
  function OutcomeTold(c: Conn, ok: bool): Conn {
    c.(life := if c.life.AwaitsPublication? then Informed(c.life.cancelled, ok) else c.life,
       publisher := Tell(c.publisher, ok),
       starter := if c.starter.Settling? then c.starter.(child := Tell(c.starter.child, ok)) else c.starter)
  }

  // _finalize_close up to its await: joins or creates the one publication task.
  function Finalize(c: Conn): Conn {
    if c.published || !c.publication.NoPublication? then c
    else
      c.(publication := Ready(if c.previous.Some? then c.previous.value else Closing),
         state := Closed,
         hist := c.hist.(publicationsRunning := c.hist.publicationsRunning + 1))
  }

  function EndLife(c: Conn, completed: bool): Conn {
    c.(life := NoLife,
       hist := c.hist.(livesRunning := c.hist.livesRunning - 1, livesEnded := c.hist.livesEnded + 1,
                       closesCompleted := c.hist.closesCompleted + if completed then 1 else 0))
  }

  // A deferred publisher knows the outcome: it settles the waiter it claimed.
  function Settle(c: Conn, settles: Option<nat>, ok: bool): Conn {
    c.(life := LifeAfterSettling(c.life, c.waiter, settles, ok), waiter := Cleared(c.waiter, settles))
  }

  // ---- start() ----------------------------------------------------------------

  function DoStart(c: Conn): Conn { c.(state := Connected, starter := ReadyHook) }

  function DoReadyReturns(c: Conn, inline: bool): Conn {
    if c.state != Connected then c.(starter := Finished)
    else c.(opening := true, starter := Opening(if inline then Handling else Queued),
            hist := c.hist.(openedEmits := c.hist.openedEmits + 1))
  }

  // The starter regains control after emit_and_wait.  Only the successful path
  // clears the opening slot before publishing a deferred close.
  function DoOpeningResumes(c: Conn): Conn
    requires c.starter.Opening? && c.starter.phase.Handled?
  {
    c.(opening := !c.starter.phase.ok, starter := Settling(!c.starter.phase.ok, Claiming))
  }

  function DoStarterResumes(c: Conn, cancelled: bool): Conn
    requires c.starter.Settled?
  {
    var startsReading :=
      !c.starter.openFailed && !cancelled && c.starter.outcome.NothingToPublish? && c.state == Connected;
    c.(opening := false, starter := Finished, reading := c.reading || startsReading)
  }

  // ---- close() ------------------------------------------------------------------

  predicate Begun(c: Conn) { c.state.Closing? || c.state.Closed? }

  predicate CloseReturnsAtOnce(c: Conn, byStarter: bool) {
    c.state.Closed? && ((c.deferred && c.opening && byStarter) || c.published)
  }

  // The state before the first close() is kept for the close event.
  function ClosingNoted(c: Conn): Conn {
    if c.state.Closed? then c
    else c.(state := Closing, previous := FirstOf(c.previous, c.state),
            hist := c.hist.(firstPreClose := FirstOf(c.hist.firstPreClose, c.state)))
  }

  function LifeBegun(c: Conn, origin: Origin): Conn {
    var noted := ClosingNoted(c.(reading := c.reading && Begun(c)));
    noted.(life := if Begun(c) then Deciding(origin, false) else Teardown(origin),
           hist := noted.hist.(livesRunning := noted.hist.livesRunning + 1))
  }

  function DoClose(c: Conn, usesInline: bool, byStarter: bool): Conn {
    if CloseReturnsAtOnce(c, byStarter) || !c.life.NoLife? then c
    else LifeBegun(c, Origin(usesInline, byStarter))
  }

  function DoTeardownSocket(c: Conn): Conn
    requires c.life.Teardown?
  {
    c.(life := Callback(c.life.origin), hist := c.hist.(teardowns := c.hist.teardowns + 1))
  }

  function DoRunCallback(c: Conn): Conn
    requires c.life.Callback?
  {
    c.(life := Deciding(c.life.origin, false), hist := c.hist.(callbacks := c.hist.callbacks + 1))
  }

  // The caller is, or inherits from, a handler that must unwind first.
  predicate HandlerSide(c: Conn, o: Origin, f: Facts) {
    (o.byStarter && c.opening) || f.handlerInFlight || o.usesInline || f.inherited
  }

  predicate Defers(c: Conn, o: Origin, f: Facts) {
    c.opening || HandlerSide(c, o, f) || f.activeInline || c.deferred
  }

  // Raises the deferral flag, makes sure a waiter is pending and, when asked, a
  // handler-side publisher is on its way.
  function RaisedDeferral(c: Conn, spawns: bool): Conn {
    c.(deferred := true, waiter := FreshWaiter(c.waiter, c.nextWaiter), nextWaiter := c.nextWaiter + 1,
       publisher := if spawns then FreshPublisher(c.publisher) else c.publisher,
       hist := DeferralRaised(c.hist, c.deferred))
  }

  function DoDecide(c: Conn, f: Facts): Conn
    requires c.life.Deciding?
  {
    var o, cancelled := c.life.origin, c.life.cancelled;
    if !Defers(c, o, f) then c.(life := Finalizing(cancelled))
    else
      var spawns := !c.opening && (HandlerSide(c, o, f) || f.activeInline);
      var c1 := RaisedDeferral(c, spawns).(state := Closed);
      if HandlerSide(c, o, f) then EndLife(c1, false)
      else c1.(life := AwaitsWaiter(cancelled, FreshWaiter(c.waiter, c.nextWaiter).id))
  }

  function DoLifeFinalizes(c: Conn): Conn
    requires c.life.Finalizing?
  {
    if c.published then EndLife(c, !c.life.cancelled)
    else Finalize(c).(life := AwaitsPublication(c.life.cancelled))
  }

  // The lifecycle task ends with an exception or its own cancellation: before its first
  // step, while it awaits something, or out of the callback.  An exception of the callback
  // itself is caught; what gets out is one that its error event causes, or a
  // BaseException.
  function DoLifeRaises(c: Conn): Conn {
    var ran := if c.life.Callback? then 1 else 0;
    c.(life := NoLife,
       hist := c.hist.(livesRunning := c.hist.livesRunning - 1, livesEnded := c.hist.livesEnded + 1,
                       callbacks := c.hist.callbacks + ran))
  }

  // ---- publication ----------------------------------------------------------------

  function DoEmitBegins(c: Conn): Conn
    requires c.publication.Ready?
  {
    c.(publication := Emitting(c.publication.report))
  }

  function DoEmitReturns(c: Conn, ok: bool): Conn
    requires c.publication.Emitting?
  {
    c.(publication := Marking(ok),
       hist := if ok then c.hist.(reports := c.hist.reports + [c.publication.report]) else c.hist)
  }

  function DoMarkPublication(c: Conn): Conn
    requires c.publication.Marking?
  {
    var ok := c.publication.ok;
    OutcomeTold(c.(publication := NoPublication,
                   published := c.published || ok,
                   previous := if ok then None else c.previous,
                   hist := c.hist.(publicationsRunning := c.hist.publicationsRunning - 1)), ok)
  }

  // ---- deferred publishers --------------------------------------------------------

  function DoEnsureWaiter(c: Conn): Conn { RaisedDeferral(c, true) }

  function DoCancelPublisher(c: Conn): Conn {
    c.(publisher := NoPublisher,
       life := LifeAfterSettling(c.life, c.waiter, IdOf(c.waiter), false),
       waiter := AfterSettling(c.waiter, IdOf(c.waiter)))
  }

  function DoPublisherClaims(c: Conn): Conn {
    if c.deferred
    then c.(deferred := false, publisher := Claimed(IdOf(c.waiter)), hist := c.hist.(claims := c.hist.claims + 1))
    else c.(publisher := NoPublisher)
  }

  function DoPublisherFinalizes(c: Conn): Conn
    requires c.publisher.Claimed?
  {
    if c.published then Settle(c, c.publisher.settles, true).(publisher := NoPublisher)
    else Finalize(c).(publisher := AwaitsEmission(c.publisher.settles))
  }

  // After a failure the handler-side publisher also fails whatever waiter is
  // current by then.
  function DoPublisherSettles(c: Conn): Conn
    requires c.publisher.Told?
  {
    var c1 := Settle(c, c.publisher.settles, c.publisher.ok);
    if c.publisher.ok then c1.(publisher := NoPublisher) else DoCancelPublisher(c1)
  }

  function DoChildClaims(c: Conn): Conn
    requires c.starter.Settling?
  {
    if c.deferred
    then c.(deferred := false, starter := c.starter.(child := Claimed(IdOf(c.waiter))),
            hist := c.hist.(claims := c.hist.claims + 1))
    else c.(starter := Settled(c.starter.openFailed, NothingToPublish))
  }

  function DoChildFinalizes(c: Conn): Conn
    requires c.starter.Settling? && c.starter.child.Claimed?
  {
    var settles := c.starter.child.settles;
    if c.published then Settle(c, settles, true).(starter := Settled(c.starter.openFailed, Published))
    else Finalize(c).(starter := c.starter.(child := AwaitsEmission(settles)))
  }

  function DoChildSettles(c: Conn): Conn
    requires c.starter.Settling? && c.starter.child.Told?
  {
    var ok := c.starter.child.ok;
    Settle(c, c.starter.child.settles, ok).(starter := Settled(c.starter.openFailed, if ok then Published else Raised))
  }

  // Both callers ask for a waiter after their own close() has returned or raised, when
  // none is pending, nothing is published and a handler of this connection runs.
  // close() comes back when a lifecycle task has ended; it comes back earlier to the
  // task that emits the close event and to one behind a deferred close.
  predicate MayAskForWaiter(c: Conn) {
    && (c.hist.livesEnded > 0 || c.publication.Emitting? || c.deferred)
    && !c.waiter.Pending? && !c.published && ActiveHandler(c)
  }

  // ---- the transition relation ------------------------------------------------

  predicate Enabled(c: Conn, a: Action) {
    match a
    case Start => c.starter.Idle? && (c.state.Created? || c.state.Connecting?)
    case ReadyReturns(_) => c.starter.ReadyHook?
    case ReadyRaises => c.starter.ReadyHook?
    case OpenedHandlerStarts => c.starter == Opening(Queued)
    case OpenedSettles(ok) => c.starter == Opening(Handling) || (c.starter == Opening(Queued) && !ok)
    case OpeningResumes => c.starter.Opening? && c.starter.phase.Handled?
    case StarterResumes(_) => c.starter.Settled?
    case HandlerEnters => true
    case HandlerLeaves => c.handlers > 0
    case Close(_, _) => true
    case TeardownSocket => c.life.Teardown?
    case RunCallback => c.life.Callback?
    case CancelTeardown => c.life.Teardown? || c.life.Callback?
    case LifeRaises => !c.life.NoLife?
    case Decide(_) => c.life.Deciding?
    case LifeFinalizes => c.life.Finalizing?
    case LifeResumes => c.life.Informed?
    case EmitBegins => c.publication.Ready?
    case EmitReturns(_) => c.publication.Emitting?
    case MarkPublication => c.publication.Marking?
    case EnsureWaiter => MayAskForWaiter(c)
    case HandlersClear => c.publisher.WaitsForHandlers? && !ActiveHandler(c)
    case CancelPublisher => c.publisher.WaitsForHandlers?
    case PublisherClaims => c.publisher.Claiming?
    case PublisherFinalizes => c.publisher.Claimed?
    case PublisherSettles => c.publisher.Told?
    case ChildClaims => c.starter.Settling? && c.starter.child.Claiming?
    case ChildFinalizes => c.starter.Settling? && c.starter.child.Claimed?
    case ChildSettles => c.starter.Settling? && c.starter.child.Told?
  }

  function Step(c: Conn, a: Action): Conn
    requires Enabled(c, a)
  {
    match a
    case Start => DoStart(c)
    case ReadyReturns(inline) => DoReadyReturns(c, inline)
    case ReadyRaises => c.(starter := Finished)
    case OpenedHandlerStarts => c.(starter := Opening(Handling))
    case OpenedSettles(ok) => c.(starter := Opening(Handled(ok)))
    case OpeningResumes => DoOpeningResumes(c)
    case StarterResumes(cancelled) => DoStarterResumes(c, cancelled)
    case HandlerEnters => c.(handlers := c.handlers + 1)
    case HandlerLeaves => c.(handlers := c.handlers - 1)
    case Close(usesInline, byStarter) => DoClose(c, usesInline, byStarter)
    case TeardownSocket => DoTeardownSocket(c)
    case RunCallback => DoRunCallback(c)
    case CancelTeardown => c.(life := Deciding(c.life.origin, true))
    case LifeRaises => DoLifeRaises(c)
    case Decide(f) => DoDecide(c, f)
    case LifeFinalizes => DoLifeFinalizes(c)
    case LifeResumes => EndLife(c, c.life.ok && !c.life.cancelled)
    case EmitBegins => DoEmitBegins(c)
    case EmitReturns(ok) => DoEmitReturns(c, ok)
    case MarkPublication => DoMarkPublication(c)
    case EnsureWaiter => DoEnsureWaiter(c)
    case HandlersClear => c.(publisher := Claiming)
    case CancelPublisher => DoCancelPublisher(c)
    case PublisherClaims => DoPublisherClaims(c)
    case PublisherFinalizes => DoPublisherFinalizes(c)
    case PublisherSettles => DoPublisherSettles(c)
    case ChildClaims => DoChildClaims(c)
    case ChildFinalizes => DoChildFinalizes(c)
    case ChildSettles => DoChildSettles(c)
  }

  // An action that is not enabled does nothing, so every sequence is a run.
  function Next(c: Conn, a: Action): Conn { if Enabled(c, a) then Step(c, a) else c }

  function RunFrom(c: Conn, acts: seq<Action>): Conn
    decreases acts
  {
    if acts == [] then c else RunFrom(Next(c, acts[0]), acts[1..])
  }

  function Run(acts: seq<Action>): Conn { RunFrom(INITIAL, acts) }
}

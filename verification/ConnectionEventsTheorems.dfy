// Which payload events can still follow a connection's close event: exactly when.

module ConnectionEventsTheorems {
  import opened Common
  import Q = EventQueue
  import C = TcpConnectionSpec
  import CP = TcpConnectionProofs
  import CT = TcpConnectionTheorems
  import D = DispatcherSpec
  import DS = DispatcherShutdown
  import opened ConnectionEvents
  import opened ConnectionEventsProofs

  // ---- actions of the connection alone ---------------------------------------------------

  // Neither a cancellation from outside nor a further request for a waiter.
  predicate Plain(xs: seq<C.Action>) { forall x :: x in xs ==> !x.LifeRaises? && !x.EnsureWaiter? }

  predicate TouchesDispatcher(x: C.Action) { x.Decide? || x.LifeFinalizes? || x.EmitBegins? }

  function Lift(xs: seq<C.Action>): seq<Action>
  {
    if xs == [] then [] else [Connection(xs[0], false)] + Lift(xs[1..])
  }

  predicate Settles(s: System) { C.Begun(s.conn) && (s.stage.Skipping? || Torn(s.conn)) }

  lemma OneLifted(cfg: Config, s: System, x: C.Action)
    requires CP.Inv(s.conn) && Settles(s) && !x.LifeRaises? && !x.EnsureWaiter?
    ensures
      var d := Next(cfg, s, Connection(x, false));
      && d.conn == C.Next(s.conn, x) && d.reader == s.reader && d.stage == s.stage
      && CP.Inv(d.conn) && Settles(d) && !Leaks(cfg, s, Connection(x, false))
      && (!TouchesDispatcher(x) ==> d.dispatcher == s.dispatcher)
  {
    hide CP.Inv, C.Step, C.Enabled;
    if C.Enabled(s.conn, x) {
      CP.StepKeepsInv(s.conn, x);
      TornByTeardown(s.conn, x);
      ReadingBegins(s.conn, x);
    }
  }

  // A run of the connection is one of the whole system, beside a reader that stays.
  lemma {:induction false} RunLifted(cfg: Config, s: System, xs: seq<C.Action>)
    requires CP.Inv(s.conn) && Settles(s) && Plain(xs)
    ensures
      var d := RunFrom(cfg, s, Lift(xs));
      && d.conn == C.RunFrom(s.conn, xs) && d.reader == s.reader && d.stage == s.stage && Tight(cfg, s, Lift(xs))
      && ((forall x :: x in xs ==> !TouchesDispatcher(x)) ==> d.dispatcher == s.dispatcher)
    decreases xs
  {
    if xs != [] {
      hide CP.Inv, Settles, Next, C.Next, Leaks, TouchesDispatcher;
      OneLifted(cfg, s, xs[0]);
      assert Lift(xs)[0] == Connection(xs[0], false) && Lift(xs)[1..] == Lift(xs[1..]);
      RunLifted(cfg, Next(cfg, s, Lift(xs)[0]), xs[1..]);
    }
  }

  // ---- the close event that becomes due -------------------------------------------------------

  // A deferral with a publisher in place, when no handler of the connection is left.
  const TAKEN := [C.HandlersClear, C.PublisherClaims, C.PublisherFinalizes]

  lemma LeavingIsPlain(n: nat)
    ensures forall x :: x in CT.LeaveAll(n) ==> x.HandlerLeaves?
  {
    CT.LeavingIsUnexposed(n);
  }

  lemma RunThree(c: C.Conn, x: C.Action, y: C.Action, z: C.Action)
    ensures C.RunFrom(c, [x, y, z]) == C.Next(C.Next(C.Next(c, x), y), z)
  {
    assert [x, y, z][1..] == [y, z];
    CT.RunTwo(C.Next(c, x), y, z);
  }

  lemma NextOfPublisher(c: C.Conn)
    ensures
      c.publisher.WaitsForHandlers? && !C.ActiveHandler(c) ==>
        C.Next(c, C.HandlersClear) == c.(publisher := C.Claiming)
    ensures c.publisher.Claiming? ==>
              C.Next(c, C.HandlersClear) == c && C.Next(c, C.PublisherClaims) == C.DoPublisherClaims(c)
    ensures c.publisher.Claimed? ==> C.Next(c, C.PublisherFinalizes) == C.DoPublisherFinalizes(c)
  {
  }

  lemma Taken(c: C.Conn)
    requires c.deferred && !c.published && c.publication.NoPublication? && !C.ActiveHandler(c)
    requires c.publisher.WaitsForHandlers? || c.publisher.Claiming?
    ensures !C.RunFrom(c, TAKEN).publication.NoPublication?
  {
    hide C.Next, C.RunFrom;
    RunThree(c, C.HandlersClear, C.PublisherClaims, C.PublisherFinalizes);
    var c1 := c.(publisher := C.Claiming);
    var c2 := C.DoPublisherClaims(c1);
    NextOfPublisher(c);
    NextOfPublisher(c1);
    NextOfPublisher(c2);
    assert C.Next(c, C.HandlersClear) == c1;
  }

  function Publishing(handlers: nat): seq<C.Action> { CT.LeaveAll(handlers) + TAKEN }

  lemma DeferredBecomesDue(c: C.Conn)
    requires c.deferred && !c.published && c.publication.NoPublication? && c.starter.Finished?
    requires c.publisher.WaitsForHandlers? || c.publisher.Claiming?
    ensures !C.RunFrom(c, Publishing(c.handlers)).publication.NoPublication?
    ensures Plain(Publishing(c.handlers)) && forall x :: x in Publishing(c.handlers) ==> !TouchesDispatcher(x)
  {
    CT.LeavingAllHandlers(c);
    CT.RunConcat(c, CT.LeaveAll(c.handlers), TAKEN);
    Taken(c.(handlers := 0));
    LeavingIsPlain(c.handlers);
    hide CT.LeaveAll, C.RunFrom;
  }

  // A teardown that runs on, beside a finished start(): its close event comes due.
  lemma TeardownDecides(c: C.Conn)
    requires CP.Inv(c) && c.life.Teardown? && c.starter.Finished?
    ensures
      var d := C.RunFrom(c, [C.TeardownSocket, C.RunCallback, C.Decide(CT.NO_HANDLER)]);
      if c.life.origin.usesInline
      then d.deferred && !d.published && d.publication.NoPublication? && d.starter.Finished?
           && d.publisher.WaitsForHandlers? && d.handlers == c.handlers
      else d.life == C.Finalizing(false) && !d.published && d.publication.NoPublication?
  {
    hide C.Next, C.RunFrom, CP.ReportsOk, CP.PublicationOk, CP.SlotsOk;
    RunThree(c, C.TeardownSocket, C.RunCallback, C.Decide(CT.NO_HANDLER));
    var c1 := C.DoTeardownSocket(c);
    var c2 := C.DoRunCallback(c1);
    CP.TeardownSocketIs(c);
    CP.RunCallbackIs(c1);
    CP.DecideIs(c2, CT.NO_HANDLER);
  }

  lemma TeardownComesDue(c: C.Conn) returns (xs: seq<C.Action>)
    requires CP.Inv(c) && c.life.Teardown? && c.starter.Finished?
    ensures Plain(xs) && !C.RunFrom(c, xs).publication.NoPublication?
  {
    var first := [C.TeardownSocket, C.RunCallback, C.Decide(CT.NO_HANDLER)];
    var d := C.RunFrom(c, first);
    TeardownDecides(c);
    hide C.RunFrom, CP.Inv, C.Next, CT.LeaveAll;
    if c.life.origin.usesInline {
      DeferredBecomesDue(d);
      xs := first + Publishing(c.handlers);
      CT.RunConcat(c, first, Publishing(c.handlers));
    } else {
      xs := first + [C.LifeFinalizes];
      CT.RunConcat(c, first, [C.LifeFinalizes]);
      CT.RunOne(d, C.LifeFinalizes);
      CP.LifeFinalizesIs(d);
    }
  }

  const AGAIN := [C.Close(false, false), C.Decide(CT.NO_HANDLER), C.LifeFinalizes]

  // After a lifecycle task that never began its teardown, a further close() does not
  // tear down: it goes straight to the close event.
  lemma ClosingAgainComesDue(c: C.Conn)
    requires CP.Inv(c) && c.life.Teardown? && c.starter.Finished?
    ensures Plain(AGAIN) && !C.RunFrom(C.DoLifeRaises(c), AGAIN).publication.NoPublication?
  {
    hide C.Next, C.RunFrom, CP.ReportsOk, CP.SlotsOk;
    var c0 := C.DoLifeRaises(c);
    RunThree(c0, C.Close(false, false), C.Decide(CT.NO_HANDLER), C.LifeFinalizes);
    var c1 := C.DoClose(c0, false, false);
    var c2 := C.DoDecide(c1, CT.NO_HANDLER);
    CP.CloseIs(c0, false, false);
    CP.DecideIs(c1, CT.NO_HANDLER);
    CP.LifeFinalizesIs(c2);
    assert c1.life == C.Deciding(C.Origin(false, false), false) && !c1.opening && !c1.deferred;
  }

  // ---- the guards are exact ------------------------------------------------------------------

  // Some continuation in which nothing more leaks has a payload behind the close event.
  ghost predicate CanTrail(cfg: Config, s: System) {
    exists acts :: Tight(cfg, s, acts) && Trails(cfg, RunFrom(cfg, s, acts))
  }

  lemma DueTrails(cfg: Config, s: System, xs: seq<C.Action>)
    requires CP.Inv(s.conn) && Settles(s) && Plain(xs) && !C.RunFrom(s.conn, xs).publication.NoPublication?
    requires Live(s) || (!NoneQueued(s.dispatcher, cfg.id) && forall x :: x in xs ==> !TouchesDispatcher(x))
    ensures CanTrail(cfg, s)
  {
    hide CP.Inv, C.RunFrom, RunFrom, NoneQueued, TouchesDispatcher, Tight;
    RunLifted(cfg, s, xs);
    assert Tight(cfg, s, Lift(xs)) && Trails(cfg, RunFrom(cfg, s, Lift(xs)));
  }

  lemma PreservedReaderTrails(cfg: Config, s: System)
    requires Inv(cfg, s) && Leaks(cfg, s, TeardownBegins)
    ensures CanTrail(cfg, Next(cfg, s, TeardownBegins))
  {
    LifeHasBegun(s.conn);
    var xs := TeardownComesDue(s.conn);
    hide CP.Inv, DS.WaitingOk, CanTrail, C.RunFrom, Plain, D.Step;
    DueTrails(cfg, DoTeardownBegins(cfg, s), xs);
  }

  lemma DeadLifecycleTrails(cfg: Config, s: System, a: Action)
    requires Inv(cfg, s) && Leaks(cfg, s, a) && a.Connection? && a.step.LifeRaises?
    ensures CanTrail(cfg, Next(cfg, s, a))
  {
    LifeHasBegun(s.conn);
    ClosingAgainComesDue(s.conn);
    CP.LifeEndsKeepInv(s.conn);
    CP.LifeRaisesIs(s.conn);
    RaisedKeepsPlace(s.conn);
    hide CP.Inv, DS.WaitingOk, CanTrail, C.RunFrom, Plain, D.Step, C.Step, C.Enabled;
    DueTrails(cfg, Next(cfg, s, a), AGAIN);
  }

  lemma RaisedKeepsPlace(c: C.Conn)
    ensures var d := C.DoLifeRaises(c); d.state == c.state && d.reading == c.reading && d.life.NoLife?
  {
  }

  lemma AskingForWaiter(c: C.Conn)
    requires CP.Inv(c) && C.MayAskForWaiter(c) && !Committed(c) && c.starter.Finished?
    ensures
      var d := C.DoEnsureWaiter(c);
      && C.Enabled(c, C.EnsureWaiter) && C.Step(c, C.EnsureWaiter) == d && CP.Inv(d) && Torn(d)
      && d.deferred && !d.published && d.publication.NoPublication? && d.starter.Finished? && d.reading == c.reading
      && (d.publisher.WaitsForHandlers? || d.publisher.Claiming?)
  {
    CP.EnsureKeepsInv(c);
    hide CP.ReportsOk, CP.StarterOk;
  }

  lemma UnsweptPayloadTrails(cfg: Config, s: System, a: Action)
    requires Inv(cfg, s) && TightOk(cfg, s) && Leaks(cfg, s, a) && a.Connection? && a.step.EnsureWaiter?
    ensures CanTrail(cfg, Next(cfg, s, a))
  {
    AskingForWaiter(s.conn);
    var d := C.DoEnsureWaiter(s.conn);
    DeferredBecomesDue(d);
    hide CP.Inv, DS.WaitingOk, CanTrail, C.RunFrom, Plain, D.Step, C.Step, C.Enabled, NoneQueued,
      TouchesDispatcher, C.DoEnsureWaiter;
    DueTrails(cfg, Next(cfg, s, a), Publishing(d.handlers));
  }

  // After any run in which nothing leaked: an action makes it possible that a payload
  // follows the close event exactly if one of the three guards holds for it.
  lemma TrailsExactlyAfterLeak(cfg: Config, before: seq<Action>, a: Action)
    requires Tight(cfg, INITIAL, before)
    ensures CanTrail(cfg, Next(cfg, Run(cfg, before), a)) <==> Leaks(cfg, Run(cfg, before), a)
  {
    var s := Run(cfg, before);
    assert Inv(cfg, INITIAL) && TightOk(cfg, INITIAL) by { StartIsTight(cfg); }
    RunKeepsInv(cfg, INITIAL, before);
    hide RunFrom, Inv, TightOk, CanTrail, Enabled, Step, Trails;
    if Leaks(cfg, s, a) {
      hide Next;
      match a
      case TeardownBegins => PreservedReaderTrails(cfg, s);
      case Connection(step, _) =>
        if step.LifeRaises? {
          DeadLifecycleTrails(cfg, s, a);
        } else {
          UnsweptPayloadTrails(cfg, s, a);
        }
      case _ =>
    } else {
      hide Leaks;
      if Enabled(cfg, s, a) {
        StepKeepsInv(cfg, s, a);
      }
      TightCannotTrail(cfg, Next(cfg, s, a));
    }
  }

  lemma TightCannotTrail(cfg: Config, s: System)
    requires Inv(cfg, s) && TightOk(cfg, s)
    ensures !CanTrail(cfg, s)
  {
    hide Inv, TightOk, Trails, RunFrom, Tight;
    forall acts | Tight(cfg, s, acts)
      ensures !Trails(cfg, RunFrom(cfg, s, acts))
    {
      RunKeepsInv(cfg, s, acts);
      TightMeansNothingTrails(cfg, RunFrom(cfg, s, acts));
    }
  }

  // ---- over all runs ---------------------------------------------------------------------------

  ghost predicate LeaksAt(cfg: Config, s: System, acts: seq<Action>, i: int) {
    0 <= i < |acts| && Leaks(cfg, RunFrom(cfg, s, acts[..i]), acts[i])
  }

  lemma {:induction false} LeakedSomewhere(cfg: Config, s: System, acts: seq<Action>)
    requires !Tight(cfg, s, acts)
    ensures exists i :: LeaksAt(cfg, s, acts, i)
    decreases acts
  {
    hide Leaks, Next;
    if Leaks(cfg, s, acts[0]) {
      assert acts[..0] == [];
      assert LeaksAt(cfg, s, acts, 0);
    } else {
      LeakedSomewhere(cfg, Next(cfg, s, acts[0]), acts[1..]);
      var i :| LeaksAt(cfg, Next(cfg, s, acts[0]), acts[1..], i);
      assert acts[..i + 1][0] == acts[0] && acts[..i + 1][1..] == acts[1..][..i];
      assert LeaksAt(cfg, s, acts, i + 1);
    }
  }

  // In every run: once a close event is due, being emitted or published, no payload
  // event of the connection is queued, produced or still to be read, unless one of
  // the guards held before.
  lemma NoPayloadBehindClose(cfg: Config, acts: seq<Action>)
    ensures Trails(cfg, Run(cfg, acts)) ==> exists i :: LeaksAt(cfg, INITIAL, acts, i)
  {
    hide Trails, RunFrom;
    if Tight(cfg, INITIAL, acts) {
      hide Tight;
      assert Inv(cfg, INITIAL) && TightOk(cfg, INITIAL) by { StartIsTight(cfg); }
      RunKeepsInv(cfg, INITIAL, acts);
      TightMeansNothingTrails(cfg, Run(cfg, acts));
    } else {
      LeakedSomewhere(cfg, INITIAL, acts);
    }
  }

  // No handler of the connection is active when its teardown begins, its lifecycle task is
  // not cancelled before that, and no stop asks for its close event.
  ghost predicate Orderly(cfg: Config, s: System, acts: seq<Action>)
    decreases acts
  {
    acts == []
    || ((match acts[0]
         case TeardownBegins => s.conn.handlers == 0 && s.conn.starter != C.Opening(C.Handling)
         case Connection(step, _) => !(step.LifeRaises? && s.stage.NotBegun?) && !step.EnsureWaiter?
         case _ => true)
        && Orderly(cfg, Next(cfg, s, acts[0]), acts[1..]))
  }

  lemma {:induction false} OrderlyIsTight(cfg: Config, s: System, acts: seq<Action>)
    requires Orderly(cfg, s, acts)
    ensures Tight(cfg, s, acts)
    decreases acts
  {
    hide Next, NoneQueued;
    if acts != [] {
      OrderlyIsTight(cfg, Next(cfg, s, acts[0]), acts[1..]);
    }
  }

  // In such a run, in every mode: once a close event is due the read task brings no payload
  // any more, and none is left in the queue.
  lemma OrderlyCloseIsLast(cfg: Config, acts: seq<Action>)
    requires Orderly(cfg, INITIAL, acts)
    ensures !Trails(cfg, Run(cfg, acts))
  {
    hide Inv, TightOk, RunFrom, Tight, Orderly, Trails;
    StartIsTight(cfg);
    OrderlyIsTight(cfg, INITIAL, acts);
    RunKeepsInv(cfg, INITIAL, acts);
    TightMeansNothingTrails(cfg, Run(cfg, acts));
  }

  // The payload events of the connection that were emitted, and those that the worker
  // handed to the handler.
  function Emitted(cfg: Config, s: System): seq<Q.Item> { D.OfResource(s.dispatcher.hist.emitted, cfg.id) }

  function Handed(cfg: Config, s: System): seq<Q.Item> { D.OfResource(s.dispatcher.hist.handed, cfg.id) }

  lemma {:induction false} PayloadsSnoc(xs: seq<Q.Item>, x: Q.Item, id: nat)
    ensures D.OfResource(xs + [x], id) == D.OfResource(xs, id) + if Payload(x, id) then [x] else []
  {
    hide D.OfResource;
    FirstPayload(xs + [x], id);
    if xs == [] {
      assert xs + [x] == [x] && [x][1..] == [];
      NoPayload(id);
    } else {
      assert (xs + [x])[1..] == xs[1..] + [x];
      PayloadsSnoc(xs[1..], x, id);
      FirstPayload(xs, id);
    }
  }

  lemma FirstPayload(xs: seq<Q.Item>, id: nat)
    requires xs != []
    ensures D.OfResource(xs, id) == (if Payload(xs[0], id) then [xs[0]] else []) + D.OfResource(xs[1..], id)
  {
  }

  lemma NoPayload(id: nat)
    ensures D.OfResource([], id) == []
  {
  }

  lemma DispatcherAddsNoPayload(cfg: D.Settings, d: D.Dispatcher, a: D.Action, id: nat)
    requires D.Enabled(cfg, d, a) && NoneQueued(d, id) && !(a.Emit? && a.e.bytes && a.e.resource == id)
    ensures
      var e := D.Step(cfg, d, a);
      D.OfResource(e.hist.emitted, id) == D.OfResource(d.hist.emitted, id)
      && D.OfResource(e.hist.handed, id) == D.OfResource(d.hist.handed, id)
  {
    hide D.Resolve, D.ResolveAll, D.Mark, D.MarkAll, D.OfResource, D.NotOfResource, Q.FirstDroppable, D.Unlisted;
    match a
    case Emit(e, _, _) =>
      PayloadsSnoc(d.hist.emitted, Q.Item(|d.hist.place|, e.bytes, e.resource, e.barrier, e.waits), id);
    case Pop => PayloadsSnoc(d.hist.handed, d.queue[0], id);
    case _ =>
  }

  lemma StepAddsNoPayload(cfg: Config, s: System, a: Action)
    requires NoneQueued(s.dispatcher, cfg.id) && !Live(s) && Enabled(cfg, s, a)
    ensures Emitted(cfg, Step(cfg, s, a)) == Emitted(cfg, s) && Handed(cfg, Step(cfg, s, a)) == Handed(cfg, s)
  {
    hide D.Step, D.Enabled, D.OfResource, NoneQueued, C.Step, C.Enabled, C.DoClose, D.DoTry;
    var settings, d := cfg.settings, s.dispatcher;
    DropIsEnabled(settings, d, cfg.id);
    DispatcherAddsNoPayload(settings, d, D.DropResource(cfg.id), cfg.id);
    match a
    case Connection(_, inlineContext) =>
      EmitIsStep(settings, d, ClosedEvent(cfg.id), inlineContext);
      DispatcherAddsNoPayload(settings, d, D.Emit(ClosedEvent(cfg.id), inlineContext, false), cfg.id);
    case Dispatcher(work) => DispatcherAddsNoPayload(settings, d, work, cfg.id);
    case ReaderCancelled =>
      if s.reader.Blocked? && D.Enabled(settings, d, D.CancelProducer(s.reader.t)) {
        DispatcherAddsNoPayload(settings, d, D.CancelProducer(s.reader.t), cfg.id);
      }
    case _ =>
  }

  // The close event is due, being emitted or published.
  predicate CloseDue(s: System) { !s.conn.publication.NoPublication? || s.conn.published }

  // The connection is torn down and its payloads are swept: nothing brings new ones.
  ghost predicate Silent(cfg: Config, s: System) {
    Inv(cfg, s) && TightOk(cfg, s) && Torn(s.conn) && NoneQueued(s.dispatcher, cfg.id)
  }

  lemma StaysTorn(cfg: Config, s: System, a: Action)
    requires Inv(cfg, s) && Enabled(cfg, s, a) && Torn(s.conn)
    ensures Torn(Step(cfg, s, a).conn)
  {
    hide CP.Inv, Torn, C.Step, C.Enabled, D.Step, D.Enabled, DS.WaitingOk;
    match a
    case Connection(step, _) => TornByTeardown(s.conn, step);
    case ReaderCloses(usesInline) => ClosingByReader(s.conn, usesInline);
    case _ =>
  }

  lemma StaysUnqueued(cfg: Config, s: System, a: Action)
    requires NoneQueued(s.dispatcher, cfg.id) && !Live(s) && Enabled(cfg, s, a)
    ensures NoneQueued(Step(cfg, s, a).dispatcher, cfg.id)
  {
    hide D.Step, D.Enabled, NoneQueued, C.Step, C.Enabled, C.DoClose, D.DoTry, Effect;
    var settings, d := cfg.settings, s.dispatcher;
    DropSilences(settings, d, cfg.id);
    match a
    case Connection(_, _) => EffectKeeps(cfg, s, a, s.reader);
    case Dispatcher(work) => StaysSwept(settings, d, work, cfg.id);
    case ReaderCancelled =>
      if s.reader.Blocked? && D.Enabled(settings, d, D.CancelProducer(s.reader.t)) {
        StaysSwept(settings, d, D.CancelProducer(s.reader.t), cfg.id);
      }
    case _ =>
  }

  lemma StepStaysSilent(cfg: Config, s: System, a: Action)
    requires Silent(cfg, s) && Enabled(cfg, s, a) && !Leaks(cfg, s, a)
    ensures Silent(cfg, Step(cfg, s, a))
    ensures Emitted(cfg, Step(cfg, s, a)) == Emitted(cfg, s) && Handed(cfg, Step(cfg, s, a)) == Handed(cfg, s)
  {
    hide Inv, Torn, NoneQueued, Step, Enabled, Leaks, Emitted, Handed, Live, Committed;
    StepAddsNoPayload(cfg, s, a);
    StepKeepsInv(cfg, s, a);
    StaysTorn(cfg, s, a);
    StaysUnqueued(cfg, s, a);
    hide TightOk;
  }

  lemma {:induction false} RunAddsNoPayload(cfg: Config, s: System, acts: seq<Action>)
    requires Silent(cfg, s) && Tight(cfg, s, acts)
    ensures Emitted(cfg, RunFrom(cfg, s, acts)) == Emitted(cfg, s)
    ensures Handed(cfg, RunFrom(cfg, s, acts)) == Handed(cfg, s)
    decreases acts
  {
    hide Emitted, Handed, Step, Enabled, Leaks, Silent;
    if acts != [] {
      if Enabled(cfg, s, acts[0]) {
        StepStaysSilent(cfg, s, acts[0]);
      }
      RunAddsNoPayload(cfg, Next(cfg, s, acts[0]), acts[1..]);
    }
  }

  lemma {:induction false} RunSplits(cfg: Config, s: System, xs: seq<Action>, ys: seq<Action>)
    ensures RunFrom(cfg, s, xs + ys) == RunFrom(cfg, RunFrom(cfg, s, xs), ys)
    ensures Tight(cfg, s, xs + ys) <==> Tight(cfg, s, xs) && Tight(cfg, RunFrom(cfg, s, xs), ys)
    decreases xs
  {
    hide Next, Leaks;
    if xs == [] {
      assert xs + ys == ys;
    } else {
      assert (xs + ys)[0] == xs[0] && (xs + ys)[1..] == xs[1..] + ys;
      RunSplits(cfg, Next(cfg, s, xs[0]), xs[1..], ys);
    }
  }

  lemma DueIsSilent(cfg: Config, s: System)
    requires Inv(cfg, s) && TightOk(cfg, s) && CloseDue(s)
    ensures Silent(cfg, s)
  {
    CommittedIsTorn(s.conn);
    hide CP.Inv, CoupledOk, NoneQueued, DS.WaitingOk, Torn;
  }

  // In every run: once the close event is due, the connection emits no payload event
  // any more and none is handed to the handler, unless one of the guards held.
  lemma NothingFollowsClose(cfg: Config, before: seq<Action>, after: seq<Action>)
    requires CloseDue(Run(cfg, before))
    ensures
      || (exists i :: LeaksAt(cfg, INITIAL, before + after, i))
      || (var s, d := Run(cfg, before), Run(cfg, before + after);
          Emitted(cfg, d) == Emitted(cfg, s) && Handed(cfg, d) == Handed(cfg, s))
  {
    hide Inv, TightOk, CloseDue, RunFrom, Silent, Emitted, Handed, LeaksAt;
    if Tight(cfg, INITIAL, before + after) {
      hide Tight;
      RunSplits(cfg, INITIAL, before, after);
      assert Inv(cfg, INITIAL) && TightOk(cfg, INITIAL) by { StartIsTight(cfg); }
      RunKeepsInv(cfg, INITIAL, before);
      DueIsSilent(cfg, Run(cfg, before));
      RunAddsNoPayload(cfg, Run(cfg, before), after);
    } else {
      LeakedSomewhere(cfg, INITIAL, before + after);
    }
  }
}

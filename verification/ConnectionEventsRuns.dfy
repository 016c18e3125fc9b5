// A run of the whole system in which a payload event follows the close event.
//
// The queue is full when a handler of the connection closes it.  The teardown leaves
// the read task alone, which waits for room with a payload; both sweeps find nothing
// of the connection, the close event goes out, and the worker's next step lets the
// payload in.

module ConnectionEventsRuns {
  import opened Common
  import Q = EventQueue
  import C = TcpConnectionSpec
  import CT = TcpConnectionTheorems
  import D = DispatcherSpec
  import opened ConnectionEvents
  import opened ConnectionEventsTheorems

  const BUSY := Config(D.Settings(false, Q.Block, 1, false), 0)

  // The payload of ticket `t`, and an event of another resource.
  function Data(t: nat): Q.Item { Q.Item(t, true, 0, false, false) }

  const OTHER := D.Event(true, 1, false, false)
  const OTHERS := Q.Item(1, true, 1, false, false)

  // ---- facts about a running dispatcher, apart from its places -----------------------------

  datatype Load = Load(
    queue: seq<Q.Item>,
    inflight: Option<Q.Item>,
    producers: map<nat, Q.Item>,
    parked: seq<nat>,
    handed: seq<Q.Item>,
    emissions: nat)

  ghost predicate Loaded(d: D.Dispatcher, l: Load) {
    && d.worker && !d.stopping
    && d.queue == l.queue && d.inflight == l.inflight && d.producers == l.producers && d.parked == l.parked
    && d.hist.handed == l.handed && |d.hist.place| == l.emissions
  }

  ghost predicate At(s: System, c: C.Conn, r: Reader, g: Stage, l: Load) {
    s.conn == c && s.reader == r && s.stage == g && !s.byReader && Loaded(s.dispatcher, l)
  }

  lemma RunFive(cfg: Config, s: System, a: Action, b: Action, c: Action, d: Action, e: Action)
    ensures RunFrom(cfg, s, [a, b, c, d, e]) == Next(cfg, Next(cfg, Next(cfg, Next(cfg, Next(cfg, s, a), b), c), d), e)
  {
    assert [a, b, c, d, e][1..] == [b, c, d, e] && [b, c, d, e][1..] == [c, d, e];
    assert [c, d, e][1..] == [d, e] && [d, e][1..] == [e] && [e][1..] == [];
    var s1 := Next(cfg, s, a);
    var s2 := Next(cfg, s1, b);
    assert RunFrom(cfg, s, [a, b, c, d, e]) == RunFrom(cfg, s1, [b, c, d, e]) == RunFrom(cfg, s2, [c, d, e]);
    assert RunFrom(cfg, s2, [c, d, e]) == RunFrom(cfg, Next(cfg, s2, c), [d, e]);
    assert RunFrom(cfg, Next(cfg, s2, c), [d, e]) == RunFrom(cfg, Next(cfg, Next(cfg, s2, c), d), [e]);
  }

  // ---- single actions ------------------------------------------------------------------------

  lemma ConnectionActs(s: System, x: C.Action, c: C.Conn, g: Stage, r: Reader, l: Load)
    requires At(s, c, r, g, l) && C.Enabled(c, x) && !TouchesDispatcher(x) && !x.LifeRaises?
    requires c.life.Teardown? ==> g.Skipping?
    ensures
      At(Next(BUSY, s, Connection(x, false)), C.Step(c, x), if C.Step(c, x).reading && !c.reading then Fresh else r,
         g, l)
  {
    hide C.Step, C.Enabled;
  }

  lemma ReaderOffers(s: System, c: C.Conn, l: Load)
    requires At(s, c, Reading, NotBegun, l)
    ensures
      At(Next(BUSY, s, ReaderEmits(false)), c, Blocked(l.emissions), NotBegun,
         l.(producers := l.producers[l.emissions := Data(l.emissions)], emissions := l.emissions + 1))
  {
  }

  lemma ReaderQueues(s: System, c: C.Conn, t: nat, g: Stage, l: Load)
    requires At(s, c, Blocked(t), g, l) && !g.Cancelling?
    requires l.producers == map[t := Data(t)] && l.parked == [] && l.queue == []
    ensures At(Next(BUSY, s, ReaderTries), c, Looped(c), g, l.(queue := [Data(t)], producers := map[]))
  {
    hide D.Mark, D.Resolve;
    assert map[t := Data(t)] - {t} == map[];
  }

  lemma ReaderParks(s: System, c: C.Conn, t: nat, l: Load)
    requires At(s, c, Blocked(t), NotBegun, l)
    requires t in l.producers && l.producers[t].ticket == t && l.parked == [] && |l.queue| == 1
    ensures At(Next(BUSY, s, ReaderTries), c, Blocked(t), NotBegun, l.(parked := [t]))
  {
  }

  lemma WorkerTakes(s: System, c: C.Conn, r: Reader, g: Stage, x: Q.Item, l: Load)
    requires At(s, c, r, g, l) && l.inflight.None? && l.queue == [x] && |l.parked| <= 1
    ensures
      At(Next(BUSY, s, Dispatcher(D.Pop)), c, r, g,
         l.(queue := [], inflight := Some(x), parked := [], handed := l.handed + [x]))
  {
    hide D.Mark;
    assert s.dispatcher.queue[1..] == [];
  }

  lemma WorkerCompletes(s: System, c: C.Conn, r: Reader, g: Stage, l: Load)
    requires At(s, c, r, g, l) && l.inflight.Some?
    ensures At(Next(BUSY, s, Dispatcher(D.Deliver(true))), c, r, g, l.(inflight := None))
  {
    hide D.Mark, D.Resolve;
  }

  lemma OtherQueues(s: System, c: C.Conn, l: Load)
    requires At(s, c, Reading, NotBegun, l) && l.emissions == 1 && l.producers == map[] && l.parked == []
    requires l.queue == []
    ensures
      At(Next(BUSY, Next(BUSY, s, Dispatcher(D.Emit(OTHER, false, false))), Dispatcher(D.Try(1))), c, Reading, NotBegun,
         l.(queue := [OTHERS], emissions := 2))
  {
    hide D.Mark, D.Resolve;
    var s1 := Next(BUSY, s, Dispatcher(D.Emit(OTHER, false, false)));
    assert s1.dispatcher.producers == map[1 := OTHERS];
    assert !PayloadProducer(s1.dispatcher, 1, 0);
    assert map[1 := OTHERS] - {1} == map[];
  }

  lemma OthersStay()
    ensures D.OfResource([OTHERS], 0) == [] && D.NotOfResource([OTHERS], 0) == [OTHERS]
  {
    assert [OTHERS][1..] == [];
  }

  // Both sweeps find only the other resource's event.
  lemma TeardownLeavesReader(s: System, c: C.Conn, t: nat, l: Load)
    requires At(s, c, Blocked(t), NotBegun, l) && l.queue == [OTHERS]
    requires c.life.Teardown? && c.life.origin.usesInline && c.handlers > 0
    ensures Leaks(BUSY, s, TeardownBegins)
    ensures At(Next(BUSY, s, TeardownBegins), c, Blocked(t), Skipping, l)
  {
    OthersStay();
    hide D.OfResource, D.NotOfResource;
  }

  lemma DecisionSweepsNothing(s: System, c: C.Conn, r: Reader, g: Stage, l: Load)
    requires At(s, c, r, g, l) && l.queue == [OTHERS] && c.life.Deciding? && c.life.origin.usesInline && !c.reading
    ensures
      At(Next(BUSY, s, Connection(C.Decide(CT.NO_HANDLER), false)), C.DoDecide(c, CT.NO_HANDLER), r, g, l)
  {
    OthersStay();
    hide D.OfResource, D.NotOfResource;
  }

  lemma CloseEventGoesOut(s: System, c: C.Conn, r: Reader, g: Stage, l: Load)
    requires At(s, c, r, g, l) && c.publication.Ready? && !c.reading
    ensures
      At(Next(BUSY, s, Connection(C.EmitBegins, true)), C.DoEmitBegins(c), r, g, l.(emissions := l.emissions + 1))
  {
  }

  // ---- the run, five actions at a time ---------------------------------------------------------

  function Of(x: C.Action): Action { Connection(x, false) }

  const OPENING := [Dispatcher(D.Start), Of(C.Start), Of(C.ReadyReturns(false)), Of(C.OpenedHandlerStarts),
                    Of(C.OpenedSettles(true))]
  const OPENED := [Of(C.OpeningResumes), Of(C.ChildClaims), Of(C.StarterResumes(false)), ReaderBegins,
                   ReaderEmits(false)]
  const FILLING := [ReaderTries, Dispatcher(D.Pop), Of(C.HandlerEnters), Dispatcher(D.Emit(OTHER, false, false)),
                    Dispatcher(D.Try(1))]
  const CLOSING := [ReaderEmits(false), ReaderTries, Of(C.Close(true, false)), TeardownBegins, Of(C.TeardownSocket)]
  const DEFERRING := [Of(C.RunCallback), Of(C.Decide(CT.NO_HANDLER)), Of(C.HandlerLeaves),
                      Dispatcher(D.Deliver(true)), Of(C.HandlersClear)]
  const EMITTING := [Of(C.PublisherClaims), Of(C.PublisherFinalizes), Connection(C.EmitBegins, true)]
  const MAKING_ROOM := [Dispatcher(D.Pop), Dispatcher(D.Deliver(true)), ReaderTries]

  const IDLE := Load([], None, map[], [], [], 0)
  const HANDLING := C.INITIAL.(state := Connected, opening := true, starter := C.Opening(C.Handled(true)),
                               hist := C.INITIAL.hist.(openedEmits := 1))
  const OPEN := HANDLING.(opening := false, starter := C.Finished, reading := true)

  lemma Started()
    ensures At(Next(BUSY, INITIAL, Dispatcher(D.Start)), C.INITIAL, NoReader, NotBegun, IDLE)
  {
  }

  lemma Opens()
    ensures At(RunFrom(BUSY, INITIAL, OPENING), HANDLING, NoReader, NotBegun, IDLE)
  {
    hide Next, RunFrom, At;
    var x, y := OPENING, INITIAL;
    RunFive(BUSY, y, x[0], x[1], x[2], x[3], x[4]);
    Started();
    var s1 := Next(BUSY, y, x[0]);
    var c2, c3, c4 := C.DoStart(C.INITIAL), C.DoReadyReturns(C.DoStart(C.INITIAL), false),
                      HANDLING.(starter := C.Opening(C.Handling));
    ConnectionActs(s1, C.Start, C.INITIAL, NotBegun, NoReader, IDLE);
    var s2 := Next(BUSY, s1, x[1]);
    ConnectionActs(s2, C.ReadyReturns(false), c2, NotBegun, NoReader, IDLE);
    var s3 := Next(BUSY, s2, x[2]);
    ConnectionActs(s3, C.OpenedHandlerStarts, c3, NotBegun, NoReader, IDLE);
    ConnectionActs(Next(BUSY, s3, x[3]), C.OpenedSettles(true), c4, NotBegun, NoReader, IDLE);
  }

  lemma ReaderBeginsReading(s: System, l: Load)
    requires At(s, OPEN, Fresh, NotBegun, l)
    ensures At(Next(BUSY, s, ReaderBegins), OPEN, Reading, NotBegun, l)
  {
  }

  const OFFERED := IDLE.(producers := map[0 := Data(0)], emissions := 1)

  lemma Opened(s: System)
    requires At(s, HANDLING, NoReader, NotBegun, IDLE)
    ensures At(RunFrom(BUSY, s, OPENED), OPEN, Blocked(0), NotBegun, OFFERED)
  {
    hide Next, RunFrom, At;
    var x := OPENED;
    RunFive(BUSY, s, x[0], x[1], x[2], x[3], x[4]);
    var c1, c2 := C.DoOpeningResumes(HANDLING), C.DoChildClaims(C.DoOpeningResumes(HANDLING));
    ConnectionActs(s, C.OpeningResumes, HANDLING, NotBegun, NoReader, IDLE);
    var s1 := Next(BUSY, s, x[0]);
    ConnectionActs(s1, C.ChildClaims, c1, NotBegun, NoReader, IDLE);
    var s2 := Next(BUSY, s1, x[1]);
    assert c2.starter == C.Settled(false, C.NothingToPublish) && C.DoStarterResumes(c2, false) == OPEN;
    ConnectionActs(s2, C.StarterResumes(false), c2, NotBegun, NoReader, IDLE);
    var s3 := Next(BUSY, s2, x[2]);
    ReaderBeginsReading(s3, IDLE);
    ReaderOffers(Next(BUSY, s3, x[3]), OPEN, IDLE);
  }

  const BUSY_OPEN := OPEN.(handlers := 1)
  const FULL := Load([OTHERS], Some(Data(0)), map[], [], [Data(0)], 2)

  lemma Filled(s: System)
    requires At(s, OPEN, Blocked(0), NotBegun, OFFERED)
    ensures At(RunFrom(BUSY, s, FILLING), BUSY_OPEN, Reading, NotBegun, FULL)
  {
    hide Next, RunFrom, At;
    var x := FILLING;
    RunFive(BUSY, s, x[0], x[1], x[2], x[3], x[4]);
    ReaderQueues(s, OPEN, 0, NotBegun, OFFERED);
    var s1 := Next(BUSY, s, x[0]);
    var l1 := OFFERED.(queue := [Data(0)], producers := map[]);
    WorkerTakes(s1, OPEN, Reading, NotBegun, Data(0), l1);
    var s2 := Next(BUSY, s1, x[1]);
    var l2 := Load([], Some(Data(0)), map[], [], [Data(0)], 1);
    assert l1.handed + [Data(0)] == [Data(0)];
    ConnectionActs(s2, C.HandlerEnters, OPEN, NotBegun, Reading, l2);
    OtherQueues(Next(BUSY, s2, x[2]), BUSY_OPEN, l2);
  }

  const BLOCKED := FULL.(producers := map[2 := Data(2)], parked := [2], emissions := 3)
  const CLOSED_BY_HANDLER := C.DoClose(BUSY_OPEN, true, false)

  lemma Closed(s: System)
    requires At(s, BUSY_OPEN, Reading, NotBegun, FULL)
    ensures
      At(RunFrom(BUSY, s, CLOSING), C.DoTeardownSocket(CLOSED_BY_HANDLER), Blocked(2), Skipping, BLOCKED)
  {
    hide Next, RunFrom, At;
    var x := CLOSING;
    RunFive(BUSY, s, x[0], x[1], x[2], x[3], x[4]);
    ReaderOffers(s, BUSY_OPEN, FULL);
    var s1 := Next(BUSY, s, x[0]);
    var l1 := FULL.(producers := map[2 := Data(2)], emissions := 3);
    assert map[][2 := Data(2)] == map[2 := Data(2)];
    ReaderParks(s1, BUSY_OPEN, 2, l1);
    var s2 := Next(BUSY, s1, x[1]);
    ConnectionActs(s2, C.Close(true, false), BUSY_OPEN, NotBegun, Blocked(2), BLOCKED);
    var s3 := Next(BUSY, s2, x[2]);
    TeardownLeavesReader(s3, CLOSED_BY_HANDLER, 2, BLOCKED);
    ConnectionActs(Next(BUSY, s3, x[3]), C.TeardownSocket, CLOSED_BY_HANDLER, Skipping, Blocked(2), BLOCKED);
  }

  // A torn-down connection whose handler closes it, and what is left of the close when
  // that handler has returned.
  predicate Due(c: C.Conn) {
    && c.life.Callback? && c.life.origin.usesInline && c.handlers == 1 && c.starter.Finished?
    && !c.reading && !c.opening && !c.deferred && !c.published
    && c.publication.NoPublication? && c.publisher.NoPublisher?
  }

  function Unwound(c: C.Conn): C.Conn
    requires c.life.Callback?
  {
    C.DoDecide(C.DoRunCallback(c), CT.NO_HANDLER).(handlers := 0, publisher := C.Claiming)
  }

  lemma Deferred(s: System, c: C.Conn, l: Load)
    requires At(s, c, Blocked(2), Skipping, l) && Due(c) && l.queue == [OTHERS] && l.inflight.Some?
    ensures At(RunFrom(BUSY, s, DEFERRING), Unwound(c), Blocked(2), Skipping, l.(inflight := None))
  {
    hide Next, RunFrom, At;
    var x := DEFERRING;
    RunFive(BUSY, s, x[0], x[1], x[2], x[3], x[4]);
    ConnectionActs(s, C.RunCallback, c, Skipping, Blocked(2), l);
    var s1, c1 := Next(BUSY, s, x[0]), C.DoRunCallback(c);
    DecisionSweepsNothing(s1, c1, Blocked(2), Skipping, l);
    var s2, c2 := Next(BUSY, s1, x[1]), C.DoDecide(c1, CT.NO_HANDLER);
    ConnectionActs(s2, C.HandlerLeaves, c2, Skipping, Blocked(2), l);
    var s3, c3 := Next(BUSY, s2, x[2]), c2.(handlers := 0);
    WorkerCompletes(s3, c3, Blocked(2), Skipping, l);
    ConnectionActs(Next(BUSY, s3, x[3]), C.HandlersClear, c3, Skipping, Blocked(2), l.(inflight := None));
  }

  lemma UnwoundTakes(c: C.Conn)
    requires Due(c)
    ensures Takes(Unwound(c))
    ensures C.DoEmitBegins(C.DoPublisherFinalizes(C.DoPublisherClaims(Unwound(c)))).publication.Emitting?
  {
  }

  lemma HandlerCloseIsDue()
    ensures Due(C.DoTeardownSocket(CLOSED_BY_HANDLER))
  {
  }

  const WAITING := BLOCKED.(inflight := None)

  predicate Takes(c: C.Conn) {
    c.publisher.Claiming? && c.deferred && !c.published && c.publication.NoPublication?
    && !c.reading && !c.life.Teardown?
  }

  lemma Published(s: System, c: C.Conn, l: Load)
    requires At(s, c, Blocked(2), Skipping, l) && Takes(c)
    ensures
      At(RunFrom(BUSY, s, EMITTING),
         C.DoEmitBegins(C.DoPublisherFinalizes(C.DoPublisherClaims(c))), Blocked(2), Skipping,
         l.(emissions := l.emissions + 1))
  {
    hide Next, RunFrom, At;
    var x := EMITTING;
    RunThree(BUSY, s, x[0], x[1], x[2]);
    ConnectionActs(s, C.PublisherClaims, c, Skipping, Blocked(2), l);
    var s1, c1 := Next(BUSY, s, x[0]), C.DoPublisherClaims(c);
    ConnectionActs(s1, C.PublisherFinalizes, c1, Skipping, Blocked(2), l);
    CloseEventGoesOut(Next(BUSY, s1, x[1]), C.DoPublisherFinalizes(c1), Blocked(2), Skipping, l);
  }

  lemma RunThree(cfg: Config, s: System, a: Action, b: Action, c: Action)
    ensures RunFrom(cfg, s, [a, b, c]) == Next(cfg, Next(cfg, Next(cfg, s, a), b), c)
  {
    assert [a, b, c][1..] == [b, c] && [b, c][1..] == [c] && [c][1..] == [];
    var s1 := Next(cfg, s, a);
    assert RunFrom(cfg, s, [a, b, c]) == RunFrom(cfg, s1, [b, c]);
    assert RunFrom(cfg, s1, [b, c]) == RunFrom(cfg, Next(cfg, s1, b), [c]);
  }

  // The worker's next event makes room, and the read task queues its payload.
  lemma LetIn(s: System, c: C.Conn)
    requires At(s, c, Blocked(2), Skipping, WAITING.(emissions := 4))
    ensures
      At(RunFrom(BUSY, s, MAKING_ROOM), c, Looped(c), Skipping, Load([Data(2)], None, map[], [], [Data(0), OTHERS], 4))
  {
    hide Next, RunFrom, At;
    var x := MAKING_ROOM;
    RunThree(BUSY, s, x[0], x[1], x[2]);
    var l := WAITING.(emissions := 4);
    WorkerTakes(s, c, Blocked(2), Skipping, OTHERS, l);
    assert l.handed + [OTHERS] == [Data(0), OTHERS];
    var s1 := Next(BUSY, s, x[0]);
    var l1 := Load([], Some(OTHERS), map[2 := Data(2)], [], [Data(0), OTHERS], 4);
    WorkerCompletes(s1, c, Blocked(2), Skipping, l1);
    ReaderQueues(Next(BUSY, s1, x[1]), c, 2, Skipping, l1.(inflight := None));
  }

  const UNTIL_ROOM := OPENING + OPENED + FILLING + CLOSING + DEFERRING + EMITTING

  lemma CloseEventIsOut() returns (c: C.Conn)
    ensures At(Run(BUSY, UNTIL_ROOM), c, Blocked(2), Skipping, WAITING.(emissions := 4)) && c.publication.Emitting?
  {
    hide At, RunFrom, Tight;
    RunSplits(BUSY, INITIAL, OPENING + OPENED + FILLING + CLOSING + DEFERRING, EMITTING);
    RunSplits(BUSY, INITIAL, OPENING + OPENED + FILLING + CLOSING, DEFERRING);
    RunSplits(BUSY, INITIAL, OPENING + OPENED + FILLING, CLOSING);
    RunSplits(BUSY, INITIAL, OPENING + OPENED, FILLING);
    RunSplits(BUSY, INITIAL, OPENING, OPENED);
    Opens();
    Opened(Run(BUSY, OPENING));
    Filled(Run(BUSY, OPENING + OPENED));
    Closed(Run(BUSY, OPENING + OPENED + FILLING));
    var torn := C.DoTeardownSocket(CLOSED_BY_HANDLER);
    HandlerCloseIsDue();
    Deferred(Run(BUSY, OPENING + OPENED + FILLING + CLOSING), torn, BLOCKED);
    UnwoundTakes(torn);
    c := C.DoEmitBegins(C.DoPublisherFinalizes(C.DoPublisherClaims(Unwound(torn))));
    Published(Run(BUSY, OPENING + OPENED + FILLING + CLOSING + DEFERRING), Unwound(torn), WAITING);
  }

  // The close event is being emitted when the payload is not yet queued, and the
  // handler gets the payload after it.
  lemma PayloadFollowsClose()
    ensures
      var s := Run(BUSY, UNTIL_ROOM);
      && s.conn.publication.Emitting? && Handed(BUSY, s) == [Data(0)]
      && Handed(BUSY, Run(BUSY, UNTIL_ROOM + MAKING_ROOM + [Dispatcher(D.Pop)])) == [Data(0), Data(2)]
  {
    var s := Run(BUSY, UNTIL_ROOM);
    var c := CloseEventIsOut();
    RunSplits(BUSY, INITIAL, UNTIL_ROOM + MAKING_ROOM, [Dispatcher(D.Pop)]);
    RunSplits(BUSY, INITIAL, UNTIL_ROOM, MAKING_ROOM);
    hide Next, RunFrom;
    LetIn(s, c);
    LastPop(RunFrom(BUSY, s, MAKING_ROOM), c);
    OnlyData();
  }

  lemma LastPop(s: System, c: C.Conn)
    requires At(s, c, Looped(c), Skipping, Load([Data(2)], None, map[], [], [Data(0), OTHERS], 4))
    ensures RunFrom(BUSY, s, [Dispatcher(D.Pop)]).dispatcher.hist.handed == [Data(0), OTHERS, Data(2)]
  {
    hide At;
    var l := Load([Data(2)], None, map[], [], [Data(0), OTHERS], 4);
    WorkerTakes(s, c, Looped(c), Skipping, Data(2), l);
    hide Next;
    assert l.handed + [Data(2)] == [Data(0), OTHERS, Data(2)];
    assert [Dispatcher(D.Pop)][1..] == [];
    HandedIs(Next(BUSY, s, Dispatcher(D.Pop)), c,
             l.(queue := [], inflight := Some(Data(2)), handed := l.handed + [Data(2)]));
  }

  lemma HandedIs(s: System, c: C.Conn, l: Load)
    requires At(s, c, Looped(c), Skipping, l)
    ensures s.dispatcher.hist.handed == l.handed
  {
  }

  lemma OnlyData()
    ensures D.OfResource([Data(0)], 0) == [Data(0)]
    ensures D.OfResource([Data(0), OTHERS, Data(2)], 0) == [Data(0), Data(2)]
  {
    assert [Data(0)][1..] == [] && [Data(2)][1..] == [];
    var xs := [Data(0), OTHERS, Data(2)];
    assert xs[1..] == [OTHERS, Data(2)] && [OTHERS, Data(2)][1..] == [Data(2)];
    assert D.OfResource([Data(2)], 0) == [Data(2)] && D.OfResource([OTHERS, Data(2)], 0) == [Data(2)];
  }
}

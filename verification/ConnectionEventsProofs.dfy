// What a connection and its dispatcher keep together.

module ConnectionEventsProofs {
  import opened Common
  import Q = EventQueue
  import C = TcpConnectionSpec
  import CP = TcpConnectionProofs
  import CT = TcpConnectionTheorems
  import D = DispatcherSpec
  import DP = DispatcherProofs
  import DS = DispatcherShutdown
  import opened ConnectionEvents

  // ---- facts about single actions of the connection ----------------------------------

  predicate Torn(c: C.Conn) { C.Begun(c) && !c.life.Teardown? }

  // The close event was published, is being published, or will be by whoever holds
  // the deferral.
  predicate Committed(c: C.Conn) {
    c.deferred || CP.Holding(c.publisher) || (c.starter.Settling? && CP.Holding(c.starter.child))
    || !c.publication.NoPublication? || c.published
  }

  // Who ends a teardown that has not closed the socket yet.
  predicate EndsTeardown(a: C.Action) { a.TeardownSocket? || a.CancelTeardown? || a.LifeRaises? }

  lemma LifeTearsDown(c: C.Conn, a: C.Action)
    requires C.Enabled(c, a) && CT.OfLife(a)
    ensures c.life.Teardown? && !EndsTeardown(a) ==> C.Step(c, a).life.Teardown?
    ensures C.Step(c, a).life.Teardown? ==> (c.life.Teardown? && !EndsTeardown(a)) || (a.Close? && !C.Begun(c))
  {
  }

  lemma OnlyCloseTearsDown(c: C.Conn, a: C.Action)
    requires C.Enabled(c, a)
    ensures c.life.Teardown? && !EndsTeardown(a) ==> C.Step(c, a).life.Teardown?
    ensures C.Step(c, a).life.Teardown? ==> (c.life.Teardown? && !EndsTeardown(a)) || (a.Close? && !C.Begun(c))
  {
    hide C.Step, C.Enabled;
    if CT.OfLife(a) {
      LifeTearsDown(c, a);
    } else if CT.OfStarter(a) {
      CT.StarterOnlyInforms(c, a);
    } else {
      CT.PublishersOnlyInform(c, a);
    }
  }

  lemma TornByTeardown(c: C.Conn, a: C.Action)
    requires CP.Inv(c) && C.Enabled(c, a)
    ensures C.Begun(c) ==> C.Begun(C.Step(c, a))
    ensures Torn(c) ==> Torn(C.Step(c, a))
    ensures !Torn(c) && Torn(C.Step(c, a)) ==> c.life.Teardown? && EndsTeardown(a)
  {
    hide CP.Inv, C.Step, C.Enabled;
    CT.StepMovesForward(c, a);
    OnlyCloseTearsDown(c, a);
  }

  lemma CommittedBySweep(c: C.Conn, a: C.Action)
    requires CP.Inv(c) && C.Enabled(c, a) && !Committed(c)
    ensures Committed(C.Step(c, a)) ==> Sweeps(c, a) || a.EnsureWaiter?
  {
    hide CP.ReportsOk, CP.SlotsOk, CP.StarterOk, CP.TeardownOk;
  }

  lemma SweepsWhenTorn(c: C.Conn, a: C.Action)
    requires CP.Inv(c) && C.Enabled(c, a) && Sweeps(c, a)
    ensures Torn(c)
  {
    hide CP.ReportsOk, CP.SlotsOk, CP.StarterOk;
  }

  // Reading begins with the end of start(), on a connection nobody has closed.
  predicate ReadingOk(c: C.Conn, d: C.Conn) {
    && (!c.reading && d.reading ==> !C.Begun(c) && !C.Begun(d) && d.starter.Finished?)
    && (c.starter.Finished? ==> d.starter.Finished?)
  }

  lemma StarterReads(c: C.Conn, a: C.Action)
    requires C.Enabled(c, a) && CT.OfStarter(a)
    ensures ReadingOk(c, C.Step(c, a))
  {
  }

  lemma LifeDoesNotRead(c: C.Conn, a: C.Action)
    requires C.Enabled(c, a) && CT.OfLife(a)
    ensures ReadingOk(c, C.Step(c, a))
  {
    hide C.Begun;
  }

  lemma PublishersDoNotRead(c: C.Conn, a: C.Action)
    requires C.Enabled(c, a) && !CT.OfStarter(a) && !CT.OfLife(a)
    ensures ReadingOk(c, C.Step(c, a))
  {
    hide C.Begun;
  }

  lemma ReadingBegins(c: C.Conn, a: C.Action)
    requires C.Enabled(c, a)
    ensures ReadingOk(c, C.Step(c, a))
  {
    hide C.Step, C.Enabled, ReadingOk;
    if CT.OfLife(a) {
      LifeDoesNotRead(c, a);
    } else if CT.OfStarter(a) {
      StarterReads(c, a);
    } else {
      PublishersDoNotRead(c, a);
    }
  }

  lemma CommittedIsTorn(c: C.Conn)
    requires CP.Inv(c) && Committed(c)
    ensures Torn(c)
  {
  }

  // ---- facts about single actions of the dispatcher -------------------------------------

  ghost predicate OnlyProducer(d: D.Dispatcher, id: nat, r: Reader) {
    forall t :: PayloadProducer(d, t, id) ==> r == Blocked(t)
  }

  lemma StaysSilent(cfg: D.Settings, d: D.Dispatcher, a: D.Action, id: nat, r: Reader)
    requires D.Enabled(cfg, d, a) && !(a.Emit? && a.e.bytes && a.e.resource == id)
    requires !(a.Try? && PayloadProducer(d, a.t, id))
    ensures OnlyProducer(d, id, r) ==> OnlyProducer(D.Step(cfg, d, a), id, r)
  {
    hide D.Resolve, D.ResolveAll, D.Mark, D.MarkAll, D.OfResource, D.NotOfResource, Q.FirstDroppable;
  }

  lemma StaysSwept(cfg: D.Settings, d: D.Dispatcher, a: D.Action, id: nat)
    requires D.Enabled(cfg, d, a) && !(a.Try? && PayloadProducer(d, a.t, id)) && NoneQueued(d, id)
    ensures NoneQueued(D.Step(cfg, d, a), id)
  {
    hide D.Resolve, D.ResolveAll, D.Mark, D.MarkAll, D.OfResource, D.NotOfResource, Q.FirstDroppable;
    if a.DropResource? {
      DP.ResourceParts(d.queue, a.r);
    }
  }

  lemma DropSilences(cfg: D.Settings, d: D.Dispatcher, id: nat)
    ensures NoneQueued(D.Step(cfg, d, D.DropResource(id)), id)
  {
    hide D.ResolveAll, D.MarkAll, D.OfResource, D.NotOfResource;
    DP.ResourceParts(d.queue, id);
  }

  lemma DropIsEnabled(cfg: D.Settings, d: D.Dispatcher, id: nat)
    ensures D.Enabled(cfg, d, D.DropResource(id))
  {
  }

  lemma EmitIsStep(cfg: D.Settings, d: D.Dispatcher, e: D.Event, inlineContext: bool)
    ensures D.Enabled(cfg, d, D.Emit(e, inlineContext, false))
    ensures D.Step(cfg, d, D.Emit(e, inlineContext, false)) == D.DoEmit(cfg, d, e, inlineContext, false)
  {
  }

  // ---- what every run keeps ------------------------------------------------------------------

  ghost predicate CoupledOk(cfg: Config, s: System) {
    && OnlyProducer(s.dispatcher, cfg.id, s.reader)
    && (if s.reader.NoReader? then NoneQueued(s.dispatcher, cfg.id) else s.conn.starter.Finished?)
    && (!s.stage.NotBegun? ==> C.Begun(s.conn))
    && (s.byReader ==> C.Begun(s.conn) && (s.reader.Handling? || s.reader.Ended?))
  }

  // What runs keep in which nothing leaked.
  ghost predicate TightOk(cfg: Config, s: System) {
    && (Torn(s.conn) || !s.stage.NotBegun? ==> !Live(s))
    && (Committed(s.conn) ==> NoneQueued(s.dispatcher, cfg.id))
  }

  ghost predicate Coupled(cfg: Config, s: System) { CP.Inv(s.conn) && CoupledOk(cfg, s) }

  ghost predicate Inv(cfg: Config, s: System) { Coupled(cfg, s) && DS.WaitingOk(s.dispatcher) }

  lemma EffectKeeps(cfg: Config, s: System, a: Action, r: Reader)
    requires a.Connection?
    ensures OnlyProducer(s.dispatcher, cfg.id, r) ==> OnlyProducer(Effect(cfg, s, a), cfg.id, r)
    ensures NoneQueued(s.dispatcher, cfg.id) || Sweeps(s.conn, a.step) ==> NoneQueued(Effect(cfg, s, a), cfg.id)
    ensures !Sweeps(s.conn, a.step) ==> Effect(cfg, s, a).queue == s.dispatcher.queue
  {
    hide D.Step, D.Enabled, OnlyProducer, NoneQueued;
    if Sweeps(s.conn, a.step) {
      DropIsEnabled(cfg.settings, s.dispatcher, cfg.id);
      StaysSilent(cfg.settings, s.dispatcher, D.DropResource(cfg.id), cfg.id, r);
      DropSilences(cfg.settings, s.dispatcher, cfg.id);
    } else if a.step.EmitBegins? {
      EmitIsStep(cfg.settings, s.dispatcher, ClosedEvent(cfg.id), a.inlineContext);
      var emit := D.Emit(ClosedEvent(cfg.id), a.inlineContext, false);
      StaysSilent(cfg.settings, s.dispatcher, emit, cfg.id, r);
      if NoneQueued(s.dispatcher, cfg.id) {
        StaysSwept(cfg.settings, s.dispatcher, emit, cfg.id);
      }
    }
  }

  lemma ConnectionKeepsCoupled(cfg: Config, s: System, a: Action)
    requires Coupled(cfg, s) && a.Connection? && ConnectionEnabled(s, a.step)
    ensures Coupled(cfg, DoConnection(cfg, s, a))
  {
    CP.StepKeepsInv(s.conn, a.step);
    TornByTeardown(s.conn, a.step);
    if Sweeps(s.conn, a.step) {
      SweepsWhenTorn(s.conn, a.step);
    }
    ReadingBegins(s.conn, a.step);
    EffectKeeps(cfg, s, a, s.reader);
    EffectKeeps(cfg, s, a, DoConnection(cfg, s, a).reader);
    hide CP.Inv, C.Enabled, C.Step, Sweeps, Effect, NoneQueued;
  }

  lemma ConnectionKeepsTight(cfg: Config, s: System, a: Action)
    requires Coupled(cfg, s) && a.Connection? && ConnectionEnabled(s, a.step) && TightOk(cfg, s) && !Leaks(cfg, s, a)
    ensures TightOk(cfg, DoConnection(cfg, s, a))
  {
    TornByTeardown(s.conn, a.step);
    if !Committed(s.conn) {
      CommittedBySweep(s.conn, a.step);
    }
    if Sweeps(s.conn, a.step) {
      SweepsWhenTorn(s.conn, a.step);
    }
    ReadingBegins(s.conn, a.step);
    EffectKeeps(cfg, s, a, s.reader);
    AskingNeedsGate(s.conn, a.step);
    hide CP.Inv, C.Enabled, C.Step, Committed, Sweeps, Effect, NoneQueued, OnlyProducer, C.MayAskForWaiter;
  }

  lemma AskingNeedsGate(c: C.Conn, a: C.Action)
    requires C.Enabled(c, a)
    ensures a.EnsureWaiter? ==> C.MayAskForWaiter(c)
  {
  }

  lemma ClosingByReader(c: C.Conn, usesInline: bool)
    requires CP.Inv(c)
    ensures
      var d := C.DoClose(c, usesInline, false);
      && CP.Inv(d) && C.Begun(d) && (Torn(c) <==> Torn(d)) && (Committed(c) <==> Committed(d)) && d.starter == c.starter
  {
    CP.CloseKeepsInv(c, usesInline, false);
  }

  lemma ReaderCloseKeeps(cfg: Config, s: System, usesInline: bool)
    requires Coupled(cfg, s) && Enabled(cfg, s, ReaderCloses(usesInline))
    ensures Coupled(cfg, Step(cfg, s, ReaderCloses(usesInline)))
    ensures TightOk(cfg, s) ==> TightOk(cfg, Step(cfg, s, ReaderCloses(usesInline)))
  {
    ClosingByReader(s.conn, usesInline);
    hide CP.Inv, C.DoClose, Committed, Torn, NoneQueued, OnlyProducer;
  }

  lemma TeardownKeeps(cfg: Config, s: System)
    requires Coupled(cfg, s) && Enabled(cfg, s, TeardownBegins)
    ensures Coupled(cfg, DoTeardownBegins(cfg, s))
    ensures TightOk(cfg, s) && !Leaks(cfg, s, TeardownBegins) ==> TightOk(cfg, DoTeardownBegins(cfg, s))
  {
    LifeHasBegun(s.conn);
    DropIsEnabled(cfg.settings, s.dispatcher, cfg.id);
    StaysSilent(cfg.settings, s.dispatcher, D.DropResource(cfg.id), cfg.id, s.reader);
    DropSilences(cfg.settings, s.dispatcher, cfg.id);
    hide CP.Inv, D.Step, D.Enabled, Committed, NoneQueued, OnlyProducer;
  }

  lemma LifeHasBegun(c: C.Conn)
    requires CP.Inv(c) && !c.life.NoLife?
    ensures C.Begun(c)
  {
  }

  lemma BegunIsNotConnected(c: C.Conn)
    ensures Torn(c) ==> C.Begun(c)
    ensures C.Begun(c) ==> Looped(c).Ended?
  {
  }

  // One more payload producer, or none.
  lemma EmitOutcome(cfg: Config, s: System, inlineContext: bool)
    requires OnlyProducer(s.dispatcher, cfg.id, s.reader) && s.reader.Reading?
    ensures var d := DoReaderEmits(cfg, s, inlineContext); OnlyProducer(d.dispatcher, cfg.id, d.reader)
    ensures DoReaderEmits(cfg, s, inlineContext).dispatcher.queue == s.dispatcher.queue
  {
    var d := DoReaderEmits(cfg, s, inlineContext).dispatcher;
    assert forall t :: !PayloadProducer(s.dispatcher, t, cfg.id);
    assert forall t :: PayloadProducer(d, t, cfg.id) ==>
      t == |s.dispatcher.hist.place| || PayloadProducer(s.dispatcher, t, cfg.id);
  }

  lemma EmittingKeeps(cfg: Config, s: System, inlineContext: bool)
    requires Coupled(cfg, s) && Enabled(cfg, s, ReaderEmits(inlineContext))
    ensures Coupled(cfg, DoReaderEmits(cfg, s, inlineContext))
    ensures TightOk(cfg, s) ==> TightOk(cfg, DoReaderEmits(cfg, s, inlineContext))
  {
    EmitOutcome(cfg, s, inlineContext);
    BegunIsNotConnected(s.conn);
    hide CP.Inv, Committed, OnlyProducer, D.DoEmit;
  }

  lemma TryOutcome(cfg: D.Settings, d: D.Dispatcher, t: nat, id: nat)
    requires t in d.producers && d.producers[t].ticket == t && OnlyProducer(d, id, Blocked(t))
    ensures
      var e := D.DoTry(cfg, d, d.producers[t]);
      OnlyProducer(e, id, if t in e.producers then Blocked(t) else Ended)
  {
    hide Q.FirstDroppable, D.Resolve, D.Mark;
    var e := D.DoTry(cfg, d, d.producers[t]);
    assert forall u :: PayloadProducer(e, u, id) ==> PayloadProducer(d, u, id);
  }

  lemma NobodyElse(d: D.Dispatcher, id: nat, r: Reader)
    requires OnlyProducer(d, id, Ended)
    ensures OnlyProducer(d, id, r)
  {
    assert forall t :: !PayloadProducer(d, t, id);
  }

  lemma TryingKeeps(cfg: Config, s: System)
    requires Inv(cfg, s) && Enabled(cfg, s, ReaderTries)
    ensures Coupled(cfg, DoReaderTries(cfg, s))
    ensures TightOk(cfg, s) ==> TightOk(cfg, DoReaderTries(cfg, s))
  {
    hide CP.Inv, Committed, NoneQueued, D.DoTry;
    if Committed(s.conn) {
      CommittedIsTorn(s.conn);
    }
    TryOutcome(cfg.settings, s.dispatcher, s.reader.t, cfg.id);
    var d := D.DoTry(cfg.settings, s.dispatcher, s.dispatcher.producers[s.reader.t]);
    if s.reader.t !in d.producers {
      NobodyElse(d, cfg.id, Looped(s.conn));
    }
    hide OnlyProducer;
  }

  lemma CancelOutcome(cfg: D.Settings, d: D.Dispatcher, t: nat, id: nat)
    requires DS.WaitingOk(d) && OnlyProducer(d, id, Blocked(t))
    ensures var e := D.Next(cfg, d, D.CancelProducer(t)); OnlyProducer(e, id, Ended) && e.queue == d.queue
  {
    hide D.Mark, D.Unlisted;
    var e := D.Next(cfg, d, D.CancelProducer(t));
    assert forall u :: PayloadProducer(e, u, id) ==> PayloadProducer(d, u, id);
  }

  lemma CancellingKeeps(cfg: Config, s: System)
    requires Inv(cfg, s) && Enabled(cfg, s, ReaderCancelled)
    ensures Coupled(cfg, DoReaderCancelled(cfg, s))
    ensures TightOk(cfg, s) ==> TightOk(cfg, DoReaderCancelled(cfg, s))
  {
    hide CP.Inv, Committed, D.Next, DS.WaitingOk;
    if s.reader.Blocked? {
      CancelOutcome(cfg.settings, s.dispatcher, s.reader.t, cfg.id);
    } else {
      assert OnlyProducer(s.dispatcher, cfg.id, Ended);
    }
    hide OnlyProducer;
  }

  // The reader's actions that do not touch the dispatcher.
  lemma LoopingKeeps(cfg: Config, s: System, a: Action)
    requires Coupled(cfg, s) && Enabled(cfg, s, a) && (a.ReaderBegins? || a.ReaderHandled? || a.ReaderStops?)
    ensures Coupled(cfg, Step(cfg, s, a))
    ensures TightOk(cfg, s) ==> TightOk(cfg, Step(cfg, s, a))
  {
    hide CP.Inv, Committed, NoneQueued;
    BegunIsNotConnected(s.conn);
    assert OnlyProducer(s.dispatcher, cfg.id, Ended);
    NobodyElse(s.dispatcher, cfg.id, Looped(s.conn));
    hide OnlyProducer;
  }

  lemma DispatcherKeeps(cfg: Config, s: System, work: D.Action)
    requires Coupled(cfg, s) && Enabled(cfg, s, Dispatcher(work))
    ensures Coupled(cfg, Step(cfg, s, Dispatcher(work)))
    ensures TightOk(cfg, s) ==> TightOk(cfg, Step(cfg, s, Dispatcher(work)))
  {
    StaysSilent(cfg.settings, s.dispatcher, work, cfg.id, s.reader);
    if NoneQueued(s.dispatcher, cfg.id) {
      StaysSwept(cfg.settings, s.dispatcher, work, cfg.id);
    }
    hide CP.Inv, Committed, NoneQueued, OnlyProducer, D.Step, D.Enabled;
  }

  lemma WaitingStays(cfg: Config, s: System, a: Action)
    requires DS.WaitingOk(s.dispatcher) && Enabled(cfg, s, a)
    ensures DS.WaitingOk(Step(cfg, s, a).dispatcher)
  {
    hide DS.WaitingOk, D.Step, C.Step;
    var settings, d := cfg.settings, s.dispatcher;
    DropIsEnabled(settings, d, cfg.id);
    DS.StepKeepsWaiting(settings, d, D.DropResource(cfg.id));
    match a
    case Connection(_, inlineContext) => EmissionKeepsWaiting(cfg, d, ClosedEvent(cfg.id), inlineContext);
    case Dispatcher(work) => DS.StepKeepsWaiting(settings, d, work);
    case ReaderEmits(inlineContext) => EmissionKeepsWaiting(cfg, d, PayloadEvent(cfg.id), inlineContext);
    case ReaderTries => TryIsStep(settings, d, s.reader.t);
    case ReaderCancelled =>
      if s.reader.Blocked? && D.Enabled(settings, d, D.CancelProducer(s.reader.t)) {
        DS.StepKeepsWaiting(settings, d, D.CancelProducer(s.reader.t));
      }
    case _ =>
  }

  lemma EmissionKeepsWaiting(cfg: Config, d: D.Dispatcher, e: D.Event, inlineContext: bool)
    requires DS.WaitingOk(d)
    ensures DS.WaitingOk(D.DoEmit(cfg.settings, d, e, inlineContext, false))
  {
    EmitIsStep(cfg.settings, d, e, inlineContext);
    DS.StepKeepsWaiting(cfg.settings, d, D.Emit(e, inlineContext, false));
  }

  lemma TryIsStep(settings: D.Settings, d: D.Dispatcher, t: nat)
    requires DS.WaitingOk(d) && D.Enabled(settings, d, D.Try(t))
    ensures DS.WaitingOk(D.DoTry(settings, d, d.producers[t]))
  {
    DS.StepKeepsWaiting(settings, d, D.Try(t));
  }

  lemma StepKeepsInv(cfg: Config, s: System, a: Action)
    requires Inv(cfg, s) && Enabled(cfg, s, a)
    ensures Inv(cfg, Step(cfg, s, a))
    ensures TightOk(cfg, s) && !Leaks(cfg, s, a) ==> TightOk(cfg, Step(cfg, s, a))
  {
    hide Coupled, TightOk, DS.WaitingOk, DoConnection, DoTeardownBegins, DoReaderEmits, DoReaderTries,
      DoReaderCancelled,
      D.Step, D.Enabled, C.DoClose, Looped;
    WaitingStays(cfg, s, a);
    match a
    case Connection(_, _) => {
      ConnectionKeepsCoupled(cfg, s, a);
      if TightOk(cfg, s) && !Leaks(cfg, s, a) {
        ConnectionKeepsTight(cfg, s, a);
      }
    }
    case Dispatcher(work) => DispatcherKeeps(cfg, s, work);
    case ReaderCloses(usesInline) => ReaderCloseKeeps(cfg, s, usesInline);
    case TeardownBegins => TeardownKeeps(cfg, s);
    case ReaderEmits(inlineContext) => EmittingKeeps(cfg, s, inlineContext);
    case ReaderTries => TryingKeeps(cfg, s);
    case ReaderCancelled => CancellingKeeps(cfg, s);
    case _ => LoopingKeeps(cfg, s, a);
  }

  lemma {:induction false} RunKeepsInv(cfg: Config, s: System, acts: seq<Action>)
    requires Inv(cfg, s)
    ensures Inv(cfg, RunFrom(cfg, s, acts))
    ensures TightOk(cfg, s) && Tight(cfg, s, acts) ==> TightOk(cfg, RunFrom(cfg, s, acts))
    decreases acts
  {
    hide Inv, TightOk, Enabled, Step, Leaks;
    if acts != [] {
      if Enabled(cfg, s, acts[0]) {
        StepKeepsInv(cfg, s, acts[0]);
      }
      RunKeepsInv(cfg, Next(cfg, s, acts[0]), acts[1..]);
    }
  }

  lemma StartIsTight(cfg: Config)
    ensures Inv(cfg, INITIAL) && TightOk(cfg, INITIAL)
  {
  }

  lemma TightMeansNothingTrails(cfg: Config, s: System)
    requires Inv(cfg, s) && TightOk(cfg, s)
    ensures !Trails(cfg, s)
  {
    if Committed(s.conn) {
      CommittedIsTorn(s.conn);
    }
    hide CP.Inv, NoneQueued, OnlyProducer, DS.WaitingOk;
  }
}

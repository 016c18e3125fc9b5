// A TCP connection together with the dispatcher it emits to: which payload events of a
// connection can still follow its close event.
//
// The connection is the state machine of TcpConnectionSpec, the dispatcher that of
// DispatcherSpec.  The read task couples them, and the teardown decides whether to
// cancel it.

module ConnectionEvents {
  import opened Common
  import Q = EventQueue
  import C = TcpConnectionSpec
  import D = DispatcherSpec

  // The read task: not yet run, inside reader.read(), inside _enqueue with the
  // payload of ticket `t`, running the handler in its own task, or past its loop.
  datatype Reader = NoReader | Fresh | Reading | Blocked(t: nat) | Handling | Ended

  // How far the teardown is with the read task: its first step not taken, the task
  // left alone, or cancelled and awaited.
  datatype Stage = NotBegun | Skipping | Cancelling

  // `byReader` says that the read task itself made the first close().
  datatype System = System(
    conn: C.Conn,
    dispatcher: D.Dispatcher,
    reader: Reader,
    stage: Stage,
    byReader: bool)

  const INITIAL := System(C.INITIAL, D.INITIAL, NoReader, NotBegun, false)

  // `id` is the connection's resource.
  datatype Config = Config(settings: D.Settings, id: nat)

  datatype Action =
    | Connection(step: C.Action, inlineContext: bool)
    | Dispatcher(work: D.Action)
    | ReaderCloses(usesInline: bool)
    | TeardownBegins
    | ReaderBegins
    | ReaderEmits(inlineContext: bool)
    | ReaderTries
    | ReaderHandled
    | ReaderStops
    | ReaderCancelled

  predicate Payload(x: Q.Item, id: nat) { x.bytes && x.resource == id }

  predicate PayloadProducer(d: D.Dispatcher, t: nat, id: nat) { t in d.producers && Payload(d.producers[t], id) }

  ghost predicate NoneQueued(d: D.Dispatcher, id: nat) { forall x :: x in d.queue ==> !Payload(x, id) }

  // ---- the teardown's treatment of the read task -----------------------------------

  // The lifecycle task would run handlers itself.
  predicate DeliversInline(cfg: Config, s: System)
    requires s.conn.life.Teardown?
  {
    cfg.settings.inline || s.conn.life.origin.usesInline || !s.dispatcher.worker
  }

  // preserve_active_inline_read_task
  predicate Preserves(cfg: Config, s: System)
    requires s.conn.life.Teardown?
  {
    C.ActiveHandler(s.conn) && DeliversInline(cfg, s)
  }

  predicate Cancels(cfg: Config, s: System)
    requires s.conn.life.Teardown?
  {
    !s.reader.NoReader? && !s.byReader && !Preserves(cfg, s)
  }

  // The first step of the teardown, up to awaiting the read task or the writer.
  function DoTeardownBegins(cfg: Config, s: System): System
    requires s.conn.life.Teardown?
  {
    s.(stage := if Cancels(cfg, s) then Cancelling else Skipping,
       dispatcher := if C.ActiveHandler(s.conn)
                     then D.Step(cfg.settings, s.dispatcher, D.DropResource(cfg.id)) else s.dispatcher)
  }

  // ---- the read loop -----------------------------------------------------------------

  // The loop condition, tested when the task starts and after each emit.
  function Looped(c: C.Conn): Reader { if c.state.Connected? then Reading else Ended }

  function PayloadEvent(id: nat): D.Event { D.Event(true, id, false, false) }

  function DoReaderEmits(cfg: Config, s: System, inlineContext: bool): System {
    var place := D.EmitPlace(cfg.settings, s.dispatcher, inlineContext, false);
    s.(dispatcher := D.DoEmit(cfg.settings, s.dispatcher, PayloadEvent(cfg.id), inlineContext, false),
       reader := if place.Producing? then Blocked(|s.dispatcher.hist.place|)
                 else if place.StopRejected? then Looped(s.conn) else Handling)
  }

  function DoReaderTries(cfg: Config, s: System): System
    requires s.reader.Blocked? && s.reader.t in s.dispatcher.producers
  {
    var d := D.DoTry(cfg.settings, s.dispatcher, s.dispatcher.producers[s.reader.t]);
    s.(dispatcher := d, reader := if s.reader.t in d.producers then s.reader else Looped(s.conn))
  }

  // A cancelled task raises at its next step, out of read(), _enqueue or a handler.
  function DoReaderCancelled(cfg: Config, s: System): System {
    s.(reader := Ended,
       dispatcher := if s.reader.Blocked? then D.Next(cfg.settings, s.dispatcher, D.CancelProducer(s.reader.t))
                     else s.dispatcher)
  }

  // ---- the connection's effect on the dispatcher ---------------------------------------

  // The lifecycle task drops the queued payloads when it defers its close event and
  // when it publishes it.
  predicate Sweeps(c: C.Conn, a: C.Action) {
    match a
    case Decide(f) => c.life.Deciding? && C.Defers(c, c.life.origin, f)
    case LifeFinalizes => true
    case _ => false
  }

  function ClosedEvent(id: nat): D.Event { D.Event(false, id, false, false) }

  function Effect(cfg: Config, s: System, a: Action): D.Dispatcher
    requires a.Connection?
  {
    if Sweeps(s.conn, a.step) then D.Step(cfg.settings, s.dispatcher, D.DropResource(cfg.id))
    else if a.step.EmitBegins? then D.DoEmit(cfg.settings, s.dispatcher, ClosedEvent(cfg.id), a.inlineContext, false)
    else s.dispatcher
  }

  function DoConnection(cfg: Config, s: System, a: Action): System
    requires a.Connection? && C.Enabled(s.conn, a.step)
  {
    var c := C.Step(s.conn, a.step);
    s.(conn := c, dispatcher := Effect(cfg, s, a),
       reader := if c.reading && !s.conn.reading then Fresh else s.reader)
  }

  // ---- the transition relation -------------------------------------------------------------

  predicate ReaderRuns(s: System) { !s.stage.Cancelling? }

  predicate ConnectionEnabled(s: System, step: C.Action) {
    && C.Enabled(s.conn, step)
    && (s.conn.life.Teardown? ==>
          match step
          // A cancelled read task inside read() or _enqueue ends before it was awaited.
          case TeardownSocket =>
            !s.stage.NotBegun? && !(s.stage.Cancelling? && (s.reader.Reading? || s.reader.Blocked?))
          // Before its first step a cancelled lifecycle task just ends.
          case CancelTeardown => !s.stage.NotBegun?
          case LifeRaises => s.stage.NotBegun?
          case _ => true)
  }

  predicate Enabled(cfg: Config, s: System, a: Action) {
    match a
    case Connection(step, _) => ConnectionEnabled(s, step)
    // Payload events of this connection come from its read task alone.
    case Dispatcher(work) =>
      && D.Enabled(cfg.settings, s.dispatcher, work)
      && !(work.Emit? && work.e.bytes && work.e.resource == cfg.id)
      && !(work.Try? && PayloadProducer(s.dispatcher, work.t, cfg.id))
      && !(work.CancelProducer? && PayloadProducer(s.dispatcher, work.t, cfg.id))
    case ReaderCloses(_) => s.reader.Handling? || s.reader.Ended?
    case TeardownBegins => s.conn.life.Teardown? && s.stage.NotBegun?
    case ReaderBegins => s.reader.Fresh? && ReaderRuns(s)
    case ReaderEmits(_) => s.reader.Reading? && ReaderRuns(s)
    case ReaderTries => s.reader.Blocked? && D.Enabled(cfg.settings, s.dispatcher, D.Try(s.reader.t)) && ReaderRuns(s)
    // A handler may keep a cancellation to itself.
    case ReaderHandled => s.reader.Handling?
    case ReaderStops => s.reader.Reading? && ReaderRuns(s)
    case ReaderCancelled => s.stage.Cancelling? && !s.reader.NoReader? && !s.reader.Ended?
  }

  function Step(cfg: Config, s: System, a: Action): System
    requires Enabled(cfg, s, a)
  {
    match a
    case Connection(_, _) => DoConnection(cfg, s, a)
    case Dispatcher(work) => s.(dispatcher := D.Step(cfg.settings, s.dispatcher, work))
    case ReaderCloses(usesInline) =>
      s.(conn := C.DoClose(s.conn, usesInline, false), byReader := s.byReader || !C.Begun(s.conn))
    case TeardownBegins => DoTeardownBegins(cfg, s)
    case ReaderBegins => s.(reader := Looped(s.conn))
    case ReaderEmits(inlineContext) => DoReaderEmits(cfg, s, inlineContext)
    case ReaderTries => DoReaderTries(cfg, s)
    case ReaderHandled => s.(reader := Looped(s.conn))
    case ReaderStops => s.(reader := Ended)
    case ReaderCancelled => DoReaderCancelled(cfg, s)
  }

  function Next(cfg: Config, s: System, a: Action): System { if Enabled(cfg, s, a) then Step(cfg, s, a) else s }

  function RunFrom(cfg: Config, s: System, acts: seq<Action>): System
    decreases acts
  {
    if acts == [] then s else RunFrom(cfg, Next(cfg, s, acts[0]), acts[1..])
  }

  function Run(cfg: Config, acts: seq<Action>): System { RunFrom(cfg, INITIAL, acts) }

  // ---- where it goes wrong, exactly ------------------------------------------------------------

  // The read task can still bring a payload to the handler.
  predicate Live(s: System) { ReaderRuns(s) && (s.reader.Reading? || s.reader.Blocked?) }

  // A close event is due, being emitted or published, and a payload may follow it.
  ghost predicate Trails(cfg: Config, s: System) {
    (!s.conn.publication.NoPublication? || s.conn.published) && (Live(s) || !NoneQueued(s.dispatcher, cfg.id))
  }

  // The guards: the teardown leaves a read task alone that is reading or waits for
  // room, because a handler is active and delivery would be inline; a lifecycle task
  // is cancelled before its first step; or a stop asks for the close event after a
  // lifecycle task died before it dropped the queued payloads.
  ghost predicate Leaks(cfg: Config, s: System, a: Action) {
    match a
    case TeardownBegins =>
      && s.conn.life.Teardown? && s.stage.NotBegun? && (s.reader.Reading? || s.reader.Blocked?)
      && (s.conn.handlers > 0 || s.conn.starter == C.Opening(C.Handling))
      && (cfg.settings.inline || s.conn.life.origin.usesInline || !s.dispatcher.worker)
    case Connection(step, _) =>
      if step.LifeRaises? then s.conn.life.Teardown? && s.stage.NotBegun? && Live(s)
      else step.EnsureWaiter? && C.MayAskForWaiter(s.conn) && !NoneQueued(s.dispatcher, cfg.id)
    case _ => false
  }

  ghost predicate Tight(cfg: Config, s: System, acts: seq<Action>)
    decreases acts
  {
    acts == [] || (!Leaks(cfg, s, acts[0]) && Tight(cfg, Next(cfg, s, acts[0]), acts[1..]))
  }
}

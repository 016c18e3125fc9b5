// AsyncioEventDispatcher as a state machine.
//
// One action is the code between two awaits of an emitter, a blocked producer,
// the worker, a stopper or a closing resource.  `place` records for every
// emission where the event is or how it ended; it is history, like `emitted`,
// `accepted` and `handed`, and no decision depends on it.

module DispatcherSpec {
  import opened Common
  import opened EventQueue

  // `relays` says that the interpreter's Condition.wait, when its task is cancelled,
  // notifies the next waiting task; older interpreters do not.
  datatype Settings = Settings(inline: bool, policy: Policy, capacity: nat, relays: bool)

  datatype Future = Unresolved | Success | DropError | WorkerError

  datatype Place =
    | InlineMode       // delivered in the emitter's task, INLINE mode
    | Fallback         // delivered in the emitter's task, BACKGROUND mode
    | Producing        // its producer is inside _enqueue
    | Queued
    | InFlight
    | Delivered
    | DeliveryFailed
    | DroppedOldest
    | DroppedNewest
    | StopRejected
    | StopCleared
    | ResourceCleared
    | WorkerCleared
    | Cancelled        // its producer was cancelled inside _enqueue

  datatype Stats = Stats(
    emitCalls: nat,
    enqueued: nat,
    inlineFallback: nat,
    droppedOldest: nat,
    droppedNewest: nat,
    droppedStopPhase: nat,
    peak: nat)

  datatype History = History(emitted: seq<Item>, place: seq<Place>, accepted: seq<Item>, handed: seq<Item>)

  // `producers` are the tasks inside _enqueue; `parked` lists those of them that wait
  // for room and were not notified yet, in the order in which they will be.
  datatype Dispatcher = Dispatcher(
    queue: seq<Item>,
    inflight: Option<Item>,
    producers: map<nat, Item>,
    parked: seq<nat>,
    futures: map<nat, Future>,
    stopping: bool,
    worker: bool,
    stats: Stats,
    hist: History)

  const INITIAL := Dispatcher([], None, map[], [], map[], false, false, Stats(0, 0, 0, 0, 0, 0, 0),
                              History([], [], [], []))

  // What an emission looks like before it gets its ticket.
  datatype Event = Event(bytes: bool, resource: nat, barrier: bool, waits: bool)

  datatype Action =
    | Start
    | Emit(e: Event, inlineContext: bool, byWorker: bool)
    | Try(t: nat)
    | CancelProducer(t: nat)
    | Pop
    | Deliver(ok: bool)
    | WorkerExits
    | WorkerCancelled
    | StopBegins
    | StopClears
    | DropResource(r: nat)

  // ---- building blocks ------------------------------------------------------

  function Resolve(fs: map<nat, Future>, item: Item, outcome: Future): map<nat, Future> {
    if item.waits && item.ticket in fs && fs[item.ticket].Unresolved? then fs[item.ticket := outcome] else fs
  }

  function ResolveAll(fs: map<nat, Future>, items: seq<Item>, outcome: Future): map<nat, Future>
    decreases items
  {
    if items == [] then fs else ResolveAll(Resolve(fs, items[0], outcome), items[1..], outcome)
  }

  function Mark(ps: seq<Place>, t: nat, p: Place): (r: seq<Place>)
    ensures |r| == |ps|
  {
    if t < |ps| then ps[t := p] else ps
  }

  function MarkAll(ps: seq<Place>, items: seq<Item>, p: Place): (r: seq<Place>)
    ensures |r| == |ps|
    decreases items
  {
    if items == [] then ps else MarkAll(Mark(ps, items[0].ticket, p), items[1..], p)
  }

  function OfResource(items: seq<Item>, r: nat): seq<Item> {
    if items == [] then []
    else (if items[0].bytes && items[0].resource == r then [items[0]] else []) + OfResource(items[1..], r)
  }

  function NotOfResource(items: seq<Item>, r: nat): seq<Item> {
    if items == [] then []
    else (if items[0].bytes && items[0].resource == r then [] else [items[0]]) + NotOfResource(items[1..], r)
  }

  // ---- actions --------------------------------------------------------------

  // emit / emit_and_wait up to the first await of the chosen path.
  function EmitPlace(cfg: Settings, s: Dispatcher, inlineContext: bool, byWorker: bool): Place {
    if cfg.inline then InlineMode
    else if inlineContext then Fallback
    else if s.stopping then StopRejected
    else if byWorker || !s.worker then Fallback
    else Producing
  }

  function EmitCounted(st: Stats, p: Place): Stats {
    st.(emitCalls := st.emitCalls + 1,
        inlineFallback := st.inlineFallback + if p.Fallback? then 1 else 0,
        droppedStopPhase := st.droppedStopPhase + if p.StopRejected? then 1 else 0)
  }

  function DoEmit(cfg: Settings, s: Dispatcher, e: Event, inlineContext: bool, byWorker: bool): Dispatcher {
    var p := EmitPlace(cfg, s, inlineContext, byWorker);
    var t := |s.hist.place|;
    var item := Item(t, e.bytes, e.resource, e.barrier, e.waits);
    s.(producers := if p.Producing? then s.producers[t := item] else s.producers,
       futures := if p.Producing? && e.waits then s.futures[t := Unresolved] else s.futures,
       stats := EmitCounted(s.stats, p),
       hist := s.hist.(emitted := s.hist.emitted + [item], place := s.hist.place + [p]))
  }

  function Max(a: nat, b: nat): nat { if a < b then b else a }

  function Accept(s: Dispatcher, q: seq<Item>, item: Item): Dispatcher {
    s.(queue := q + [item],
       producers := s.producers - {item.ticket},
       stats := s.stats.(enqueued := s.stats.enqueued + 1, peak := Max(s.stats.peak, |q| + 1)),
       hist := s.hist.(place := Mark(s.hist.place, item.ticket, Queued), accepted := s.hist.accepted + [item]))
  }

  function Evict(s: Dispatcher, victim: Item): Dispatcher {
    s.(futures := Resolve(s.futures, victim, DropError),
       stats := s.stats.(droppedOldest := s.stats.droppedOldest + 1),
       hist := s.hist.(place := Mark(s.hist.place, victim.ticket, DroppedOldest)))
  }

  function Refuse(s: Dispatcher, item: Item): Dispatcher {
    s.(producers := s.producers - {item.ticket},
       futures := Resolve(s.futures, item, DropError),
       stats := s.stats.(droppedNewest := s.stats.droppedNewest + 1),
       hist := s.hist.(place := Mark(s.hist.place, item.ticket, DroppedNewest)))
  }

  function RejectForStop(s: Dispatcher, item: Item): Dispatcher {
    s.(producers := s.producers - {item.ticket},
       futures := Resolve(s.futures, item, DropError),
       stats := s.stats.(droppedStopPhase := s.stats.droppedStopPhase + 1),
       hist := s.hist.(place := Mark(s.hist.place, item.ticket, StopRejected)))
  }

  // One pass through the loop of _enqueue.
  function DoTry(cfg: Settings, s: Dispatcher, item: Item): Dispatcher {
    if s.stopping then RejectForStop(s, item)
    else
      match EventQueue.Decide(s.queue, cfg.capacity, cfg.policy, item)
      case Appended => Accept(s, s.queue, item)
      case Evicted(k) => Accept(Evict(s, s.queue[k]), Without(s.queue, k), item)
      case Refused => Refuse(s, item)
      case Blocked => s.(parked := s.parked + [item.ticket])
  }

  function Unlisted(ts: seq<nat>, t: nat): seq<nat> {
    if ts == [] then [] else (if ts[0] == t then [] else [ts[0]]) + Unlisted(ts[1..], t)
  }

  // Condition.notify and Condition.notify_all on _queue_not_full.
  function WakeOne(s: Dispatcher): Dispatcher { s.(parked := if s.parked == [] then [] else s.parked[1..]) }

  function WakeAll(s: Dispatcher): Dispatcher { s.(parked := []) }

  function CancelInside(s: Dispatcher, t: nat): Dispatcher {
    s.(producers := s.producers - {t}, hist := s.hist.(place := Mark(s.hist.place, t, Cancelled)))
  }

  function DoCancelProducer(cfg: Settings, s: Dispatcher, t: nat): Dispatcher {
    var d := CancelInside(s, t).(parked := Unlisted(s.parked, t));
    if cfg.relays then WakeOne(d) else d
  }

  function DoPop(s: Dispatcher): Dispatcher
    requires s.queue != []
  {
    var item := s.queue[0];
    s.(queue := s.queue[1..], inflight := Some(item),
       hist := s.hist.(place := Mark(s.hist.place, item.ticket, InFlight), handed := s.hist.handed + [item]))
  }

  function Clear(s: Dispatcher, items: seq<Item>, kept: seq<Item>, outcome: Future, p: Place): Dispatcher {
    s.(queue := kept,
       futures := ResolveAll(s.futures, items, outcome),
       hist := s.hist.(place := MarkAll(s.hist.place, items, p)))
  }

  function DoDelivered(s: Dispatcher): Dispatcher
    requires s.inflight.Some?
  {
    s.(inflight := None,
       futures := Resolve(s.futures, s.inflight.value, Success),
       hist := s.hist.(place := Mark(s.hist.place, s.inflight.value.ticket, Delivered)))
  }

  // Delivery raised: the worker dies of it, and fails what is still queued.
  function Failed(s: Dispatcher): Dispatcher
    requires s.inflight.Some?
  {
    s.(inflight := None, worker := false,
       futures := Resolve(s.futures, s.inflight.value, WorkerError),
       hist := s.hist.(place := Mark(s.hist.place, s.inflight.value.ticket, DeliveryFailed)))
  }

  function DoDeliveryFailed(s: Dispatcher): Dispatcher
    requires s.inflight.Some?
  {
    Clear(Failed(s), s.queue, [], WorkerError, WorkerCleared)
  }

  function CountStopPhase(s: Dispatcher, n: nat): Dispatcher {
    s.(stats := s.stats.(droppedStopPhase := s.stats.droppedStopPhase + n))
  }

  function DoDropResource(s: Dispatcher, r: nat): Dispatcher {
    var gone := OfResource(s.queue, r);
    var d := CountStopPhase(Clear(s, gone, NotOfResource(s.queue, r), DropError, ResourceCleared), |gone|);
    if gone == [] then d else WakeAll(d)
  }

  // ---- the transition relation ------------------------------------------------

  predicate Enabled(cfg: Settings, s: Dispatcher, a: Action) {
    match a
    case Start => !cfg.inline && !s.worker
    case Emit(_, _, byWorker) => byWorker ==> s.worker && s.inflight.Some?
    case Try(t) => t in s.producers && t !in s.parked
    case CancelProducer(t) => t in s.producers
    case Pop => s.worker && s.inflight.None? && s.queue != []
    case Deliver(_) => s.inflight.Some?
    case WorkerExits => s.worker && s.inflight.None? && s.queue == [] && s.stopping
    case WorkerCancelled => s.worker && s.inflight.None?
    case StopBegins => true
    case StopClears => s.stopping && s.worker
    case DropResource(_) => true
  }

  function Step(cfg: Settings, s: Dispatcher, a: Action): Dispatcher
    requires Enabled(cfg, s, a)
  {
    match a
    case Start => s.(stopping := false, worker := true)
    case Emit(e, inlineContext, byWorker) => DoEmit(cfg, s, e, inlineContext, byWorker)
    case Try(t) => DoTry(cfg, s, s.producers[t])
    case CancelProducer(t) => DoCancelProducer(cfg, s, t)
    case Pop => WakeOne(DoPop(s))
    case Deliver(ok) => if ok then DoDelivered(s) else DoDeliveryFailed(s)
    case WorkerExits => s.(worker := false)
    case WorkerCancelled => Clear(s.(worker := false), s.queue, [], WorkerError, WorkerCleared)
    case StopBegins => if s.worker then WakeAll(s.(stopping := true)) else s.(stopping := true)
    case StopClears => CountStopPhase(Clear(s, s.queue, [], DropError, StopCleared), |s.queue|)
    case DropResource(r) => DoDropResource(s, r)
  }

  function Next(cfg: Settings, s: Dispatcher, a: Action): Dispatcher {
    if Enabled(cfg, s, a) then Step(cfg, s, a) else s
  }

  function RunFrom(cfg: Settings, s: Dispatcher, acts: seq<Action>): Dispatcher
    decreases acts
  {
    if acts == [] then s else RunFrom(cfg, Next(cfg, s, acts[0]), acts[1..])
  }

  function Run(cfg: Settings, acts: seq<Action>): Dispatcher { RunFrom(cfg, INITIAL, acts) }
}

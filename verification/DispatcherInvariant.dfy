// The invariant of the dispatcher and its preservation, aspect by aspect.

module DispatcherInvariant {
  import opened Common
  import opened EventQueue
  import opened DispatcherSpec
  import opened DispatcherProofs

  ghost predicate ItemAt(h: History, x: Item, p: Place) {
    x.ticket < |h.place| && x.ticket < |h.emitted| && h.place[x.ticket] == p && h.emitted[x.ticket] == x
  }

  // Each queued, delivered or produced event sits at the place recorded for it,
  // and no barrier was discarded by backpressure.
  ghost predicate PlacesOk(s: Dispatcher) {
    && |s.hist.place| == |s.hist.emitted|
    && (forall t :: 0 <= t < |s.hist.emitted| ==> s.hist.emitted[t].ticket == t)
    && (forall i :: 0 <= i < |s.queue| ==> ItemAt(s.hist, s.queue[i], Queued))
    && Distinct(s.queue)
    && (s.inflight.Some? ==> ItemAt(s.hist, s.inflight.value, InFlight))
    && (forall t :: t in s.producers ==> s.producers[t].ticket == t && ItemAt(s.hist, s.producers[t], Producing))
    && (forall t :: 0 <= t < |s.hist.emitted| && s.hist.emitted[t].barrier ==>
          !s.hist.place[t].DroppedOldest? && !s.hist.place[t].DroppedNewest?)
  }

  // The accounting identities, for a tally of places and the sizes of the parts.
  predicate Balanced(cfg: Settings, t: Tally, st: Stats, producing: int, queued: int, inflight: int, handed: int,
                     accepted: int)
  {
    && t.fallback == st.inlineFallback
    && t.producing == producing
    && t.queued == queued
    && t.inFlight == inflight
    && t.inFlight + t.delivered + t.deliveryFailed == handed
    && t.droppedOldest == st.droppedOldest
    && t.droppedNewest == st.droppedNewest
    && t.stopRejected + t.stopCleared + t.resourceCleared == st.droppedStopPhase
    && accepted == st.enqueued
    && st.enqueued == handed + queued + t.droppedOldest + t.stopCleared + t.resourceCleared + t.workerCleared
    && queued <= st.peak <= cfg.capacity
    && (!cfg.policy.DropOldest? ==> st.droppedOldest == 0)
  }

  function InflightCount(s: Dispatcher): nat { if s.inflight.Some? then 1 else 0 }

  predicate CountsOk(cfg: Settings, s: Dispatcher) {
    && |s.hist.place| == s.stats.emitCalls
    && Balanced(cfg, TallyOf(s.hist.place), s.stats, |s.producers|, |s.queue|, InflightCount(s), |s.hist.handed|,
                |s.hist.accepted|)
  }

  predicate Handed(p: Place) { p.InFlight? || p.Delivered? || p.DeliveryFailed? }

  predicate Entered(p: Place) {
    Held(p) || p.DroppedOldest? || p.StopCleared? || p.ResourceCleared? || p.WorkerCleared?
  }

  // What was handed over and what is queued are the accepted events that were
  // not dropped, in the order of acceptance.
  ghost predicate OrderOk(s: Dispatcher) {
    && (forall x :: x in s.hist.accepted ==> x.ticket < |s.hist.place| && Entered(s.hist.place[x.ticket]))
    && (forall x :: x in s.hist.handed ==> x.ticket < |s.hist.place| && Handed(s.hist.place[x.ticket]))
    && Kept(s.hist.accepted, s.hist.place) == s.hist.handed + s.queue
  }

  // How the future of an event at place `p` stands.
  function Fate(p: Place): Future {
    match p
    case Delivered => Success
    case DeliveryFailed => WorkerError
    case WorkerCleared => WorkerError
    case DroppedOldest => DropError
    case DroppedNewest => DropError
    case StopRejected => DropError
    case StopCleared => DropError
    case ResourceCleared => DropError
    case _ => Unresolved
  }

  ghost predicate FuturesOk(s: Dispatcher) {
    forall t :: t in s.futures ==>
      t < |s.hist.place| && t < |s.hist.emitted| && s.hist.emitted[t].waits && s.futures[t] == Fate(s.hist.place[t])
  }

  ghost predicate Inv(cfg: Settings, s: Dispatcher) {
    PlacesOk(s) && CountsOk(cfg, s) && OrderOk(s) && FuturesOk(s)
  }

  // ---- accounting ---------------------------------------------------------------------

  lemma LessOne(m: map<nat, Item>, t: nat)
    requires t in m
    ensures |m - {t}| == |m| - 1
  {
    assert (m - {t}).Keys == m.Keys - {t};
    assert |m.Keys - {t}| == |m.Keys| - 1;
  }

  lemma OneMore(m: map<nat, Item>, t: nat, x: Item)
    requires t !in m
    ensures |m[t := x]| == |m| + 1
  {
    assert m[t := x].Keys == m.Keys + {t};
  }

  lemma EmitKeepsCounts(cfg: Settings, s: Dispatcher, e: Event, inlineContext: bool, byWorker: bool)
    requires CountsOk(cfg, s) && |s.hist.place| !in s.producers
    ensures CountsOk(cfg, DoEmit(cfg, s, e, inlineContext, byWorker))
  {
    hide TallyOf;
    var t := |s.hist.place|;
    SnocTally(s.hist.place, EmitPlace(cfg, s, inlineContext, byWorker));
    OneMore(s.producers, t, Item(t, e.bytes, e.resource, e.barrier, e.waits));
  }

  lemma AcceptKeepsCounts(cfg: Settings, s: Dispatcher, item: Item)
    requires CountsOk(cfg, s) && item.ticket in s.producers && ItemAt(s.hist, item, Producing)
    requires |s.queue| < cfg.capacity
    ensures CountsOk(cfg, Accept(s, s.queue, item))
  {
    hide TallyOf;
    MarkTally(s.hist.place, item.ticket, Queued);
    LessOne(s.producers, item.ticket);
  }

  lemma EvictKeepsCounts(cfg: Settings, s: Dispatcher, k: nat, item: Item)
    requires CountsOk(cfg, s) && item.ticket in s.producers && ItemAt(s.hist, item, Producing)
    requires k < |s.queue| && ItemAt(s.hist, s.queue[k], Queued) && cfg.policy.DropOldest?
    ensures CountsOk(cfg, Accept(Evict(s, s.queue[k]), Without(s.queue, k), item))
  {
    hide TallyOf;
    var t := s.queue[k].ticket;
    var ps := Mark(s.hist.place, t, DroppedOldest);
    MarkTally(s.hist.place, t, DroppedOldest);
    assert ps[item.ticket] == Producing;
    MarkTally(ps, item.ticket, Queued);
    LessOne(s.producers, item.ticket);
    hide Mark;
  }

  lemma ProducerEndsKeepCounts(cfg: Settings, s: Dispatcher, item: Item)
    requires CountsOk(cfg, s) && item.ticket in s.producers && ItemAt(s.hist, item, Producing)
    ensures CountsOk(cfg, Refuse(s, item))
    ensures CountsOk(cfg, RejectForStop(s, item))
    ensures CountsOk(cfg, CancelInside(s, item.ticket))
  {
    hide TallyOf;
    MarkTally(s.hist.place, item.ticket, DroppedNewest);
    MarkTally(s.hist.place, item.ticket, StopRejected);
    MarkTally(s.hist.place, item.ticket, Cancelled);
    LessOne(s.producers, item.ticket);
  }

  lemma PopKeepsCounts(cfg: Settings, s: Dispatcher)
    requires CountsOk(cfg, s) && s.queue != [] && s.inflight.None? && ItemAt(s.hist, s.queue[0], Queued)
    ensures CountsOk(cfg, DoPop(s))
  {
    hide TallyOf;
    MarkTally(s.hist.place, s.queue[0].ticket, InFlight);
  }

  lemma FailedKeepsCounts(cfg: Settings, s: Dispatcher)
    requires CountsOk(cfg, s) && s.inflight.Some? && ItemAt(s.hist, s.inflight.value, InFlight)
    ensures CountsOk(cfg, Failed(s))
  {
    hide TallyOf;
    MarkTally(s.hist.place, s.inflight.value.ticket, DeliveryFailed);
  }

  lemma DeliveredKeepsCounts(cfg: Settings, s: Dispatcher)
    requires CountsOk(cfg, s) && s.inflight.Some? && ItemAt(s.hist, s.inflight.value, InFlight)
    ensures CountsOk(cfg, DoDelivered(s))
  {
    hide TallyOf;
    MarkTally(s.hist.place, s.inflight.value.ticket, Delivered);
  }

  // Clearing part of the queue, with the counter the caller adds.
  lemma ClearKeepsCounts(cfg: Settings, s: Dispatcher, items: seq<Item>, kept: seq<Item>, outcome: Future, p: Place)
    requires CountsOk(cfg, s) && Distinct(items) && AllAt(items, s.hist.place, Queued)
    requires |items| + |kept| == |s.queue|
    ensures p.WorkerCleared? ==> CountsOk(cfg, Clear(s, items, kept, outcome, p))
    ensures
      p.StopCleared? || p.ResourceCleared? ==>
        CountsOk(cfg, CountStopPhase(Clear(s, items, kept, outcome, p), |items|))
  {
    hide TallyOf;
    if p.WorkerCleared? || p.StopCleared? || p.ResourceCleared? {
      MarkAllTally(s.hist.place, items, Queued, p);
      MarkAllAt(s.hist.place, items, p, 0);
    }
    hide MarkAll;
  }

  // ---- places ---------------------------------------------------------------------------

  lemma EmitKeepsPlaces(cfg: Settings, s: Dispatcher, e: Event, inlineContext: bool, byWorker: bool)
    requires PlacesOk(s)
    ensures PlacesOk(DoEmit(cfg, s, e, inlineContext, byWorker))
  {
  }

  lemma AcceptKeepsPlaces(s: Dispatcher, item: Item)
    requires PlacesOk(s) && item.ticket in s.producers && s.producers[item.ticket] == item
    ensures PlacesOk(Accept(s, s.queue, item))
  {
  }

  lemma EvictKeepsPlaces(s: Dispatcher, k: nat)
    requires PlacesOk(s) && k < |s.queue| && !s.queue[k].barrier
    ensures PlacesOk(Evict(s, s.queue[k]).(queue := Without(s.queue, k)))
  {
    var d := Evict(s, s.queue[k]).(queue := Without(s.queue, k));
    forall i | 0 <= i < |d.queue|
      ensures ItemAt(d.hist, d.queue[i], Queued)
    {
      assert d.queue[i] == if i < k then s.queue[i] else s.queue[i + 1];
    }
    forall i, j | 0 <= i < j < |d.queue|
      ensures d.queue[i].ticket != d.queue[j].ticket
    {
      assert d.queue[i] == if i < k then s.queue[i] else s.queue[i + 1];
      assert d.queue[j] == if j < k then s.queue[j] else s.queue[j + 1];
    }
  }

  lemma RejectKeepsPlaces(s: Dispatcher, item: Item)
    requires PlacesOk(s) && item.ticket in s.producers && s.producers[item.ticket] == item
    ensures PlacesOk(RejectForStop(s, item))
  {
  }

  lemma CancelKeepsPlaces(s: Dispatcher, item: Item)
    requires PlacesOk(s) && item.ticket in s.producers && s.producers[item.ticket] == item
    ensures PlacesOk(CancelInside(s, item.ticket))
  {
  }

  lemma RefuseKeepsPlaces(s: Dispatcher, item: Item)
    requires PlacesOk(s) && item.ticket in s.producers && s.producers[item.ticket] == item && !item.barrier
    ensures PlacesOk(Refuse(s, item))
  {
  }

  lemma PopKeepsPlaces(s: Dispatcher)
    requires PlacesOk(s) && s.queue != [] && s.inflight.None?
    ensures PlacesOk(DoPop(s))
  {
  }

  lemma DeliveredKeepsPlaces(s: Dispatcher)
    requires PlacesOk(s) && s.inflight.Some?
    ensures PlacesOk(DoDelivered(s))
  {
  }

  lemma ClearKeepsPlaces(s: Dispatcher, items: seq<Item>, kept: seq<Item>, outcome: Future, p: Place)
    requires PlacesOk(s) && Distinct(kept) && !p.DroppedOldest? && !p.DroppedNewest?
    requires forall x :: x in s.queue <==> x in items || x in kept
    requires forall i :: 0 <= i < |kept| ==> !Among(items, kept[i].ticket)
    ensures PlacesOk(Clear(s, items, kept, outcome, p))
  {
    hide MarkAll, ResolveAll;
    var d := Clear(s, items, kept, outcome, p);
    MarkAllAt(s.hist.place, items, p, 0);
    forall t: nat | t < |s.hist.place|
      ensures d.hist.place[t] == if Among(items, t) then p else s.hist.place[t]
    {
      MarkAllAt(s.hist.place, items, p, t);
    }
    forall t: nat | Among(items, t)
      ensures t < |s.hist.place| && s.hist.place[t] == Queued
    {
      var i :| 0 <= i < |items| && items[i].ticket == t;
      assert items[i] in s.queue;
    }
    forall i | 0 <= i < |kept|
      ensures ItemAt(d.hist, kept[i], Queued)
    {
      assert kept[i] in kept && kept[i] in s.queue;
      assert ItemAt(s.hist, kept[i], Queued);
    }
  }

  // ---- order --------------------------------------------------------------------------

  lemma EmitKeepsOrder(cfg: Settings, s: Dispatcher, e: Event, inlineContext: bool, byWorker: bool)
    requires OrderOk(s)
    ensures OrderOk(DoEmit(cfg, s, e, inlineContext, byWorker))
  {
    var d := DoEmit(cfg, s, e, inlineContext, byWorker);
    KeptSame(s.hist.accepted, s.hist.place, d.hist.place);
    hide Kept;
  }

  // One event that is not among the held ones changes to another such place.
  lemma OtherMarkKeepsOrder(s: Dispatcher, t: nat, p: Place)
    requires OrderOk(s) && t < |s.hist.place| && !Entered(s.hist.place[t]) && !Held(p)
    ensures OrderOk(s.(hist := s.hist.(place := Mark(s.hist.place, t, p))))
  {
    hide Kept;
    KeptSame(s.hist.accepted, s.hist.place, Mark(s.hist.place, t, p));
  }

  lemma AcceptKeepsOrder(s: Dispatcher, item: Item)
    requires OrderOk(s) && item.ticket < |s.hist.place| && s.hist.place[item.ticket].Producing?
    ensures OrderOk(Accept(s, s.queue, item))
  {
    hide Kept;
    var d := Accept(s, s.queue, item);
    KeptSame(s.hist.accepted, s.hist.place, d.hist.place);
    KeptSnoc(s.hist.accepted, item, d.hist.place);
    assert s.hist.handed + s.queue + [item] == s.hist.handed + (s.queue + [item]);
  }

  lemma EvictKeepsOrder(s: Dispatcher, k: nat)
    requires OrderOk(s) && PlacesOk(s) && k < |s.queue|
    ensures OrderOk(Evict(s, s.queue[k]).(queue := Without(s.queue, k)))
  {
    hide Kept, Minus;
    var t := s.queue[k].ticket;
    assert ItemAt(s.hist, s.queue[k], Queued);
    var ps := Mark(s.hist.place, t, DroppedOldest);
    KeptMinus(s.hist.accepted, s.hist.place, ps, {t});
    MinusConcat(s.hist.handed, s.queue, {t});
    MinusNone(s.hist.handed, {t});
    MinusAtIndex(s.queue, k);
  }

  lemma PopKeepsOrder(s: Dispatcher)
    requires OrderOk(s) && s.queue != [] && ItemAt(s.hist, s.queue[0], Queued)
    ensures OrderOk(DoPop(s))
  {
    hide Kept;
    var d := DoPop(s);
    KeptSame(s.hist.accepted, s.hist.place, d.hist.place);
    assert s.hist.handed + [s.queue[0]] + s.queue[1..] == s.hist.handed + s.queue;
  }

  lemma HandedMarkKeepsOrder(s: Dispatcher, t: nat, p: Place)
    requires OrderOk(s) && t < |s.hist.place| && Handed(s.hist.place[t]) && Handed(p)
    ensures OrderOk(s.(hist := s.hist.(place := Mark(s.hist.place, t, p))))
  {
    hide Kept;
    KeptSame(s.hist.accepted, s.hist.place, Mark(s.hist.place, t, p));
  }

  lemma ClearKeepsOrder(s: Dispatcher, items: seq<Item>, kept: seq<Item>, outcome: Future, p: Place)
    requires OrderOk(s) && AllAt(items, s.hist.place, Queued)
    requires p.StopCleared? || p.ResourceCleared? || p.WorkerCleared?
    requires kept == Minus(s.queue, Tickets(items))
    ensures OrderOk(Clear(s, items, kept, outcome, p))
  {
    hide Kept, Minus, MarkAll, ResolveAll;
    var d := Clear(s, items, kept, outcome, p);
    var ts := Tickets(items);
    MarkAllAt(s.hist.place, items, p, 0);
    forall t: nat
      ensures t in ts <==> Among(items, t)
      ensures t < |s.hist.place| ==> d.hist.place[t] == if Among(items, t) then p else s.hist.place[t]
      ensures Among(items, t) ==> t < |s.hist.place| && s.hist.place[t] == Queued
    {
      MarkAllAt(s.hist.place, items, p, t);
      if t in ts {
        var x :| x in items && x.ticket == t;
        var i :| 0 <= i < |items| && items[i] == x;
      }
    }
    KeptMinus(s.hist.accepted, s.hist.place, d.hist.place, ts);
    MinusConcat(s.hist.handed, s.queue, ts);
    MinusNone(s.hist.handed, ts);
  }

  // ---- futures ------------------------------------------------------------------------

  lemma {:induction false} ResolveAllAt(fs: map<nat, Future>, items: seq<Item>, outcome: Future, t: nat)
    requires Distinct(items) && !outcome.Unresolved?
    requires forall i :: 0 <= i < |items| && items[i].ticket in fs ==>
               items[i].waits && fs[items[i].ticket].Unresolved?
    ensures ResolveAll(fs, items, outcome).Keys == fs.Keys
    ensures t in fs ==> ResolveAll(fs, items, outcome)[t] == if Among(items, t) then outcome else fs[t]
    decreases items
  {
    if items != [] {
      AmongTail(items, t);
      ResolveAllAt(Resolve(fs, items[0], outcome), items[1..], outcome, t);
    }
  }

  lemma EmitKeepsFutures(cfg: Settings, s: Dispatcher, e: Event, inlineContext: bool, byWorker: bool)
    requires FuturesOk(s) && |s.hist.place| == |s.hist.emitted|
    ensures FuturesOk(DoEmit(cfg, s, e, inlineContext, byWorker))
  {
  }

  // An unresolved event changes place and its future is resolved accordingly.
  lemma ResolveKeepsFutures(s: Dispatcher, item: Item, from: Place, to: Place)
    requires FuturesOk(s) && ItemAt(s.hist, item, from) && Fate(from).Unresolved?
    ensures
      FuturesOk(s.(hist := s.hist.(place := Mark(s.hist.place, item.ticket, to)),
                   futures := if Fate(to).Unresolved? then s.futures else Resolve(s.futures, item, Fate(to))))
  {
  }

  lemma ClearKeepsFutures(s: Dispatcher, items: seq<Item>, kept: seq<Item>, p: Place)
    requires FuturesOk(s) && Distinct(items) && !Fate(p).Unresolved?
    requires forall i :: 0 <= i < |items| ==> ItemAt(s.hist, items[i], Queued)
    ensures FuturesOk(Clear(s, items, kept, Fate(p), p))
  {
    hide MarkAll, ResolveAll, Among;
    var d := Clear(s, items, kept, Fate(p), p);
    ClearedAt(s, items, p, 0);
    forall t: nat | t in s.futures
      ensures d.hist.place[t] == if Among(items, t) then p else s.hist.place[t]
      ensures d.futures[t] == if Among(items, t) then Fate(p) else s.futures[t]
    {
      ClearedAt(s, items, p, t);
    }
  }

  lemma ClearedAt(s: Dispatcher, items: seq<Item>, p: Place, t: nat)
    requires FuturesOk(s) && Distinct(items) && !Fate(p).Unresolved?
    requires forall i :: 0 <= i < |items| ==> ItemAt(s.hist, items[i], Queued)
    ensures
      var ps, fs := MarkAll(s.hist.place, items, p), ResolveAll(s.futures, items, Fate(p));
      && |ps| == |s.hist.place| && fs.Keys == s.futures.Keys
      && (t < |ps| ==> ps[t] == if Among(items, t) then p else s.hist.place[t])
      && (t in fs ==> fs[t] == if Among(items, t) then Fate(p) else s.futures[t])
  {
    hide MarkAll, ResolveAll;
    MarkAllAt(s.hist.place, items, p, t);
    ResolveAllAt(s.futures, items, Fate(p), t);
  }

  // ---- all actions ----------------------------------------------------------------------

  lemma EmitKeepsInv(cfg: Settings, s: Dispatcher, e: Event, inlineContext: bool, byWorker: bool)
    requires Inv(cfg, s)
    ensures Inv(cfg, DoEmit(cfg, s, e, inlineContext, byWorker))
  {
    hide CountsOk, OrderOk, FuturesOk, DoEmit;
    assert |s.hist.place| !in s.producers;
    EmitKeepsPlaces(cfg, s, e, inlineContext, byWorker);
    EmitKeepsCounts(cfg, s, e, inlineContext, byWorker);
    EmitKeepsOrder(cfg, s, e, inlineContext, byWorker);
    EmitKeepsFutures(cfg, s, e, inlineContext, byWorker);
  }

  lemma AcceptKeepsInv(cfg: Settings, s: Dispatcher, item: Item)
    requires Inv(cfg, s) && item.ticket in s.producers && s.producers[item.ticket] == item
    requires |s.queue| < cfg.capacity
    ensures Inv(cfg, Accept(s, s.queue, item))
  {
    hide CountsOk, OrderOk, FuturesOk, Accept;
    RoomMadeAccepts(s, item);
    AcceptKeepsCounts(cfg, s, item);
  }

  lemma EvictKeepsInv(cfg: Settings, s: Dispatcher, k: nat, item: Item)
    requires Inv(cfg, s) && item.ticket in s.producers && s.producers[item.ticket] == item
    requires k < |s.queue| && !s.queue[k].barrier && cfg.policy.DropOldest?
    ensures Inv(cfg, Accept(Evict(s, s.queue[k]), Without(s.queue, k), item))
  {
    VictimAndProducer(s, k, item);
    hide PlacesOk, CountsOk, OrderOk, FuturesOk, Accept, Evict, ItemAt;
    EvictKeepsCounts(cfg, s, k, item);
    VictimGone(s, k);
    MakingRoomAccepts(s, k, item);
    RoomMadeAccepts(MakingRoom(s, k), item);
  }

  // The state between the two: the victim is gone, and the new event not yet queued.
  function MakingRoom(s: Dispatcher, k: nat): Dispatcher
    requires k < |s.queue|
  {
    Evict(s, s.queue[k]).(queue := Without(s.queue, k))
  }

  lemma VictimAndProducer(s: Dispatcher, k: nat, item: Item)
    requires PlacesOk(s) && k < |s.queue| && item.ticket in s.producers && s.producers[item.ticket] == item
    ensures ItemAt(s.hist, s.queue[k], Queued) && ItemAt(s.hist, item, Producing)
    ensures ItemAt(MakingRoom(s, k).hist, item, Producing)
    ensures MakingRoom(s, k).producers == s.producers
  {
  }

  lemma MakingRoomAccepts(s: Dispatcher, k: nat, item: Item)
    requires k < |s.queue|
    ensures
      Accept(MakingRoom(s, k), MakingRoom(s, k).queue, item) == Accept(Evict(s, s.queue[k]), Without(s.queue, k), item)
  {
    hide Mark, Resolve;
  }

  lemma VictimGone(s: Dispatcher, k: nat)
    requires PlacesOk(s) && OrderOk(s) && FuturesOk(s) && k < |s.queue| && !s.queue[k].barrier
    ensures PlacesOk(MakingRoom(s, k)) && OrderOk(MakingRoom(s, k)) && FuturesOk(MakingRoom(s, k))
  {
    hide OrderOk;
    assert ItemAt(s.hist, s.queue[k], Queued);
    EvictKeepsPlaces(s, k);
    EvictKeepsOrder(s, k);
    ResolveKeepsFutures(s, s.queue[k], Queued, DroppedOldest);
    hide PlacesOk;
  }

  lemma RoomMadeAccepts(s: Dispatcher, item: Item)
    requires PlacesOk(s) && OrderOk(s) && FuturesOk(s)
    requires item.ticket in s.producers && s.producers[item.ticket] == item && ItemAt(s.hist, item, Producing)
    ensures
      var d := Accept(s, s.queue, item);
      PlacesOk(d) && OrderOk(d) && FuturesOk(d)
  {
    hide PlacesOk, OrderOk;
    AcceptKeepsPlaces(s, item);
    AcceptKeepsOrder(s, item);
    ResolveKeepsFutures(s, item, Producing, Queued);
  }

  // The three ways in which a producer leaves _enqueue without queueing.
  lemma RefuseKeepsInv(cfg: Settings, s: Dispatcher, item: Item)
    requires Inv(cfg, s) && item.ticket in s.producers && s.producers[item.ticket] == item && !item.barrier
    ensures Inv(cfg, Refuse(s, item))
  {
    hide CountsOk;
    RefuseKeepsPlaces(s, item);
    ProducerEndsKeepCounts(cfg, s, item);
    OtherMarkKeepsOrder(s, item.ticket, DroppedNewest);
    ResolveKeepsFutures(s, item, Producing, DroppedNewest);
  }

  lemma RejectKeepsInv(cfg: Settings, s: Dispatcher, item: Item)
    requires Inv(cfg, s) && item.ticket in s.producers && s.producers[item.ticket] == item
    ensures Inv(cfg, RejectForStop(s, item))
  {
    hide CountsOk;
    RejectKeepsPlaces(s, item);
    ProducerEndsKeepCounts(cfg, s, item);
    OtherMarkKeepsOrder(s, item.ticket, StopRejected);
    ResolveKeepsFutures(s, item, Producing, StopRejected);
  }

  // Nothing in the invariant depends on the two flags or on who waits for room.
  lemma FlagsKeepInv(cfg: Settings, s: Dispatcher, stopping: bool, worker: bool, parked: seq<nat>)
    requires Inv(cfg, s)
    ensures Inv(cfg, s.(stopping := stopping, worker := worker, parked := parked))
  {
    hide Distinct, ItemAt, TallyOf, Balanced, Kept, Fate, Entered, Handed;
  }

  lemma ParkingKeepsInv(cfg: Settings, s: Dispatcher, parked: seq<nat>)
    requires Inv(cfg, s)
    ensures Inv(cfg, s.(parked := parked))
  {
    hide Inv;
    FlagsKeepInv(cfg, s, s.stopping, s.worker, parked);
    assert s.(stopping := s.stopping, worker := s.worker, parked := parked) == s.(parked := parked);
  }

  lemma CancelInsideKeepsInv(cfg: Settings, s: Dispatcher, item: Item)
    requires Inv(cfg, s) && item.ticket in s.producers && s.producers[item.ticket] == item
    ensures Inv(cfg, CancelInside(s, item.ticket))
  {
    hide CountsOk, OrderOk, FuturesOk;
    CancelKeepsPlaces(s, item);
    ProducerEndsKeepCounts(cfg, s, item);
    CancelKeepsOrder(s, item);
    CancelKeepsFutures(s, item);
    hide CancelInside;
  }

  lemma CancelKeepsOrder(s: Dispatcher, item: Item)
    requires OrderOk(s) && ItemAt(s.hist, item, Producing)
    ensures OrderOk(CancelInside(s, item.ticket))
  {
    OtherMarkKeepsOrder(s, item.ticket, Cancelled);
    hide Kept;
  }

  lemma CancelKeepsFutures(s: Dispatcher, item: Item)
    requires FuturesOk(s) && ItemAt(s.hist, item, Producing)
    ensures FuturesOk(CancelInside(s, item.ticket))
  {
    ResolveKeepsFutures(s, item, Producing, Cancelled);
  }

  lemma CancelKeepsInv(cfg: Settings, s: Dispatcher, item: Item)
    requires Inv(cfg, s) && item.ticket in s.producers && s.producers[item.ticket] == item
    ensures Inv(cfg, DoCancelProducer(cfg, s, item.ticket))
  {
    CancelInsideKeepsInv(cfg, s, item);
    hide Inv, CancelInside, Unlisted;
    ParkingKeepsInv(cfg, CancelInside(s, item.ticket), DoCancelProducer(cfg, s, item.ticket).parked);
  }

  lemma ProducerTicket(cfg: Settings, s: Dispatcher, t: nat)
    requires Inv(cfg, s) && t in s.producers
    ensures s.producers[t].ticket == t
  {
    hide CountsOk, OrderOk, FuturesOk;
  }

  lemma TryAddsNoPlace(cfg: Settings, s: Dispatcher, item: Item)
    ensures |DoTry(cfg, s, item).hist.place| == |s.hist.place|
  {
    hide Mark, Resolve, FirstDroppable;
  }

  lemma TryKeepsInv(cfg: Settings, s: Dispatcher, t: nat)
    requires Inv(cfg, s) && t in s.producers
    ensures Inv(cfg, DoTry(cfg, s, s.producers[t]))
  {
    hide CountsOk, OrderOk, FuturesOk, Accept, Evict, Refuse, RejectForStop;
    var item := s.producers[t];
    if s.stopping {
      RejectKeepsInv(cfg, s, item);
    } else {
      match EventQueue.Decide(s.queue, cfg.capacity, cfg.policy, item)
      case Appended => AcceptKeepsInv(cfg, s, item);
      case Evicted(k) => EvictKeepsInv(cfg, s, k, item);
      case Refused => RefuseKeepsInv(cfg, s, item);
      case Blocked => ParkingKeepsInv(cfg, s, s.parked + [item.ticket]);
    }
  }

  lemma PopKeepsInv(cfg: Settings, s: Dispatcher)
    requires Inv(cfg, s) && s.queue != [] && s.inflight.None?
    ensures Inv(cfg, DoPop(s))
  {
    hide CountsOk, OrderOk;
    assert ItemAt(s.hist, s.queue[0], Queued);
    PopKeepsPlaces(s);
    PopKeepsCounts(cfg, s);
    PopKeepsOrder(s);
    ResolveKeepsFutures(s, s.queue[0], Queued, InFlight);
  }

  lemma DeliveredKeepsInv(cfg: Settings, s: Dispatcher)
    requires Inv(cfg, s) && s.inflight.Some?
    ensures Inv(cfg, DoDelivered(s))
  {
    hide CountsOk;
    DeliveredKeepsPlaces(s);
    DeliveredKeepsCounts(cfg, s);
    HandedMarkKeepsOrder(s, s.inflight.value.ticket, Delivered);
    ResolveKeepsFutures(s, s.inflight.value, InFlight, Delivered);
  }

  lemma FailedKeepsInv(cfg: Settings, s: Dispatcher)
    requires Inv(cfg, s) && s.inflight.Some?
    ensures Inv(cfg, Failed(s))
  {
    hide CountsOk, OrderOk, FuturesOk;
    FailedKeepsPlaces(s);
    FailedKeepsCounts(cfg, s);
    FailedKeepsOrder(s);
    FailedKeepsFutures(s);
    hide Failed;
  }

  lemma FailedKeepsPlaces(s: Dispatcher)
    requires PlacesOk(s) && s.inflight.Some?
    ensures PlacesOk(Failed(s))
  {
  }

  lemma FailedKeepsOrder(s: Dispatcher)
    requires OrderOk(s) && s.inflight.Some? && ItemAt(s.hist, s.inflight.value, InFlight)
    ensures OrderOk(Failed(s))
  {
    HandedMarkKeepsOrder(s, s.inflight.value.ticket, DeliveryFailed);
    hide Kept;
  }

  lemma FailedKeepsFutures(s: Dispatcher)
    requires FuturesOk(s) && s.inflight.Some? && ItemAt(s.hist, s.inflight.value, InFlight)
    ensures FuturesOk(Failed(s))
  {
    ResolveKeepsFutures(s, s.inflight.value, InFlight, DeliveryFailed);
  }

  // `items` leave the queue and `kept` stay.
  ghost predicate Splits(s: Dispatcher, items: seq<Item>, kept: seq<Item>) {
    && Distinct(items) && Distinct(kept)
    && |items| + |kept| == |s.queue|
    && (forall x :: x in s.queue <==> x in items || x in kept)
    && (forall i :: 0 <= i < |kept| ==> !Among(items, kept[i].ticket))
    && kept == Minus(s.queue, Tickets(items))
  }

  lemma ClearKeepsInv(cfg: Settings, s: Dispatcher, items: seq<Item>, kept: seq<Item>, p: Place)
    requires Inv(cfg, s) && Splits(s, items, kept)
    ensures p.WorkerCleared? ==> Inv(cfg, Clear(s, items, kept, Fate(p), p))
    ensures
      p.StopCleared? || p.ResourceCleared? ==>
        Inv(cfg, CountStopPhase(Clear(s, items, kept, Fate(p), p), |items|))
  {
    hide CountsOk, Minus, Kept, MarkAll, ResolveAll;
    if p.WorkerCleared? || p.StopCleared? || p.ResourceCleared? {
      forall i | 0 <= i < |items|
        ensures ItemAt(s.hist, items[i], Queued)
      {
        assert items[i] in s.queue;
      }
      ClearKeepsCounts(cfg, s, items, kept, Fate(p), p);
      ClearKeepsPlaces(s, items, kept, Fate(p), p);
      ClearKeepsOrder(s, items, kept, Fate(p), p);
      ClearKeepsFutures(s, items, kept, p);
    }
  }

  lemma WholeQueueSplits(s: Dispatcher)
    requires Distinct(s.queue)
    ensures Splits(s, s.queue, [])
  {
    MinusEverything(s.queue, Tickets(s.queue));
  }

  lemma ResourceSplits(s: Dispatcher, r: nat)
    requires PlacesOk(s)
    ensures Splits(s, OfResource(s.queue, r), NotOfResource(s.queue, r))
  {
    var items, kept := OfResource(s.queue, r), NotOfResource(s.queue, r);
    ResourceParts(s.queue, r);
    ResourcePartsDistinct(s.queue, r);
    forall x, y | x in s.queue && y in s.queue && x.ticket == y.ticket
      ensures x == y
    {
      assert ItemAt(s.hist, x, Queued) && ItemAt(s.hist, y, Queued);
    }
    forall y | y in s.queue
      ensures y.ticket in Tickets(items) <==> y.bytes && y.resource == r
    {
    }
    forall i | 0 <= i < |kept|
      ensures !Among(items, kept[i].ticket)
    {
      assert kept[i] in kept;
      assert forall x :: x in items ==> x.ticket != kept[i].ticket;
    }
    MinusResource(s.queue, r, Tickets(items));
  }

  // The whole queue is discarded.
  lemma EmptyingKeepsInv(cfg: Settings, s: Dispatcher, p: Place)
    requires Inv(cfg, s)
    ensures p.WorkerCleared? ==> Inv(cfg, Clear(s, s.queue, [], Fate(p), p))
    ensures p.StopCleared? ==> Inv(cfg, CountStopPhase(Clear(s, s.queue, [], Fate(p), p), |s.queue|))
  {
    hide Clear, Splits, CountsOk, OrderOk, FuturesOk, Fate, CountStopPhase;
    WholeQueueSplits(s);
    ClearKeepsInv(cfg, s, s.queue, [], p);
  }

  lemma ClearResourceKeepsInv(cfg: Settings, s: Dispatcher, r: nat)
    requires Inv(cfg, s)
    ensures
      var gone, kept := OfResource(s.queue, r), NotOfResource(s.queue, r);
      Inv(cfg, CountStopPhase(Clear(s, gone, kept, Fate(ResourceCleared), ResourceCleared), |gone|))
  {
    hide Clear, Splits, CountsOk, OrderOk, FuturesOk, Fate, CountStopPhase, OfResource, NotOfResource;
    ResourceSplits(s, r);
    ClearKeepsInv(cfg, s, OfResource(s.queue, r), NotOfResource(s.queue, r), ResourceCleared);
  }

  lemma DropResourceKeepsInv(cfg: Settings, s: Dispatcher, r: nat)
    requires Inv(cfg, s)
    ensures Inv(cfg, DoDropResource(s, r))
  {
    hide Inv, Clear, CountStopPhase, OfResource, NotOfResource;
    var gone, kept := OfResource(s.queue, r), NotOfResource(s.queue, r);
    ClearResourceKeepsInv(cfg, s, r);
    ParkingKeepsInv(cfg, CountStopPhase(Clear(s, gone, kept, DropError, ResourceCleared), |gone|), []);
  }

  lemma FailedDeliveryKeepsInv(cfg: Settings, s: Dispatcher)
    requires Inv(cfg, s) && s.inflight.Some?
    ensures Inv(cfg, DoDeliveryFailed(s))
  {
    hide Inv, Clear;
    FailedKeepsInv(cfg, s);
    EmptyingKeepsInv(cfg, Failed(s), WorkerCleared);
  }

  lemma WorkerCancelledKeepsInv(cfg: Settings, s: Dispatcher)
    requires Inv(cfg, s)
    ensures Inv(cfg, Clear(s.(worker := false), s.queue, [], WorkerError, WorkerCleared))
  {
    hide Inv, Clear;
    FlagsKeepInv(cfg, s, s.stopping, false, s.parked);
    EmptyingKeepsInv(cfg, s.(worker := false), WorkerCleared);
  }

  lemma StepKeepsInv(cfg: Settings, s: Dispatcher, a: Action)
    requires Inv(cfg, s) && Enabled(cfg, s, a)
    ensures Inv(cfg, Step(cfg, s, a))
  {
    hide DoEmit, DoTry, DoPop, DoDelivered, Failed, Clear, CountsOk, OrderOk, FuturesOk, DoDeliveryFailed,
      DoCancelProducer,
      DoDropResource;
    match a
    case Emit(e, i, w) => EmitKeepsInv(cfg, s, e, i, w);
    case Try(t) => TryKeepsInv(cfg, s, t);
    case CancelProducer(t) => CancelKeepsInv(cfg, s, s.producers[t]);
    case Pop =>
      PopKeepsInv(cfg, s);
      ParkingKeepsInv(cfg, DoPop(s), WakeOne(DoPop(s)).parked);
    case Deliver(ok) =>
      if ok {
        DeliveredKeepsInv(cfg, s);
      } else {
        FailedDeliveryKeepsInv(cfg, s);
      }
    case WorkerCancelled => WorkerCancelledKeepsInv(cfg, s);
    case StopClears => EmptyingKeepsInv(cfg, s, StopCleared);
    case DropResource(r) => DropResourceKeepsInv(cfg, s, r);
    case Start => FlagsKeepInv(cfg, s, false, true, s.parked);
    case WorkerExits => FlagsKeepInv(cfg, s, s.stopping, false, s.parked);
    case StopBegins => FlagsKeepInv(cfg, s, true, s.worker, if s.worker then [] else s.parked);
  }
}

// AsyncioEventDispatcher: its fields and the code it runs between two awaits.
// Each method is proved to be the action of DispatcherSpec that it implements.

module Dispatcher {
  import opened Common
  import opened EventQueue
  import Spec = DispatcherSpec
  import opened DispatcherSpec
  import Invariant = DispatcherInvariant
  import Shutdown = DispatcherShutdown

  // A pass through _enqueue finds no room and makes none.
  predicate Waits(cfg: Settings, s: Spec.Dispatcher, t: nat) {
    t in s.producers && !s.stopping && Decide(s.queue, cfg.capacity, cfg.policy, s.producers[t]).Blocked?
  }

  lemma EmitIs(cfg: Settings, s: Spec.Dispatcher, e: Event, inlineContext: bool, byWorker: bool)
    requires byWorker ==> s.worker && s.inflight.Some?
    ensures Next(cfg, s, Spec.Emit(e, inlineContext, byWorker)) == DoEmit(cfg, s, e, inlineContext, byWorker)
  {
  }

  lemma DropResourceIs(cfg: Settings, s: Spec.Dispatcher, r: nat)
    ensures Next(cfg, s, DropResource(r)) == DoDropResource(s, r)
  {
    hide DoDropResource;
  }

  class AsyncioEventDispatcher {
    const settings: Settings
    var queue: seq<Item>
    var inflight: Option<Item>
    var producers: map<nat, Item>
    var parked: seq<nat>
    var futures: map<nat, Future>
    var stopping: bool
    var worker: bool
    var stats: Stats
    var emissions: nat
    ghost var hist: History

    ghost function View(): Spec.Dispatcher
      reads this
    {
      Spec.Dispatcher(queue, inflight, producers, parked, futures, stopping, worker, stats, hist)
    }

    ghost predicate Valid()
      reads this
    {
      Invariant.Inv(settings, View()) && emissions == |hist.place|
    }

    constructor (cfg: Settings)
      ensures settings == cfg && View() == INITIAL && Valid()
    {
      settings := cfg;
      queue, inflight, producers, parked, futures, stopping, worker := [], None, map[], [], map[], false, false;
      stats, emissions, hist := INITIAL.stats, 0, INITIAL.hist;
    }

    // ---- queue items: the three ways to settle a waiter --------------------------------

    // complete_queued_event, drop_queued_event and fail_queued_event
    method SettleItem(item: Item, outcome: Future)
      modifies this`futures
      ensures futures == Resolve(old(futures), item, outcome)
    {
      if item.waits && item.ticket in futures && futures[item.ticket].Unresolved? {
        futures := futures[item.ticket := outcome];
      }
    }

    // The loop that settles each event of a batch and records its place.
    method SettleAll(items: seq<Item>, outcome: Future, ghost p: Place)
      modifies this`futures, this`hist
      ensures futures == ResolveAll(old(futures), items, outcome)
      ensures hist == old(hist).(place := MarkAll(old(hist).place, items, p))
    {
      var i := 0;
      while i < |items|
        invariant 0 <= i <= |items|
        invariant ResolveAll(futures, items[i..], outcome) == ResolveAll(old(futures), items, outcome)
        invariant MarkAll(hist.place, items[i..], p) == MarkAll(old(hist).place, items, p)
        invariant hist == old(hist).(place := hist.place)
      {
        assert items[i..][1..] == items[i + 1..];
        SettleItem(items[i], outcome);
        hist := hist.(place := Mark(hist.place, items[i].ticket, p));
        i := i + 1;
      }
    }

    // ---- start and emit ------------------------------------------------------------------

    method Start()
      requires Valid()
      modifies this`stopping, this`worker
      ensures View() == Next(settings, old(View()), Spec.Start) && Valid()
    {
      hide Invariant.Inv;
      Invariant.FlagsKeepInv(settings, View(), false, true, parked);
      if settings.inline || worker {
        return;
      }
      stopping := false;
      worker := true;
    }

    // emit / emit_and_wait: chooses and counts the path.
    method ChoosePath(inlineContext: bool, byWorker: bool) returns (path: Place)
      modifies this`stats
      ensures path == EmitPlace(settings, old(View()), inlineContext, byWorker)
      ensures stats == EmitCounted(old(stats), path)
    {
      stats := stats.(emitCalls := stats.emitCalls + 1);
      if settings.inline {
        return InlineMode;
      } else if inlineContext {
        stats := stats.(inlineFallback := stats.inlineFallback + 1);
        return Fallback;
      } else if stopping {
        stats := stats.(droppedStopPhase := stats.droppedStopPhase + 1);
        return StopRejected;
      } else if byWorker || !worker {
        stats := stats.(inlineFallback := stats.inlineFallback + 1);
        return Fallback;
      }
      return Producing;
    }

    // emit / emit_and_wait up to the first await of the chosen path.
    method Emit(e: Event, inlineContext: bool, byWorker: bool) returns (path: Place)
      requires Valid() && (byWorker ==> worker && inflight.Some?)
      modifies this`producers, this`futures, this`stats, this`emissions, this`hist
      ensures path == EmitPlace(settings, old(View()), inlineContext, byWorker)
      ensures View() == Next(settings, old(View()), Spec.Emit(e, inlineContext, byWorker)) && Valid()
    {
      hide Invariant.Inv, Next, EmitPlace, EmitCounted;
      EmitIs(settings, View(), e, inlineContext, byWorker);
      Invariant.EmitKeepsInv(settings, View(), e, inlineContext, byWorker);
      path := ChoosePath(inlineContext, byWorker);
      var item := Item(emissions, e.bytes, e.resource, e.barrier, e.waits);
      if path.Producing? {
        producers := producers[emissions := item];
        if e.waits {
          futures := futures[emissions := Unresolved];
        }
      }
      emissions := emissions + 1;
      hist := hist.(emitted := hist.emitted + [item], place := hist.place + [path]);
      assert View() == DoEmit(settings, old(View()), e, inlineContext, byWorker);
    }

    // ---- _enqueue ----------------------------------------------------------------------------

    // The index of the first pending event that may be dropped, if any.
    method FindDroppable() returns (k: nat)
      ensures k == FirstDroppable(queue)
    {
      k := 0;
      while k < |queue| && queue[k].barrier
        invariant k <= |queue|
        invariant forall i :: 0 <= i < k ==> queue[i].barrier
      {
        k := k + 1;
      }
      FirstDroppableIs(queue, k);
    }

    method Append(item: Item)
      modifies this
      ensures View() == Accept(old(View()), old(queue), item) && unchanged(`emissions)
    {
      hide Mark;
      queue := queue + [item];
      stats := stats.(enqueued := stats.enqueued + 1);
      if stats.peak < |queue| {
        stats := stats.(peak := |queue|);
      }
      producers := producers - {item.ticket};
      hist := hist.(place := Mark(hist.place, item.ticket, Queued), accepted := hist.accepted + [item]);
    }

    // The producer leaves _enqueue without having queued its event.
    method Leave(item: Item, byStop: bool)
      modifies this
      ensures View() == if byStop then RejectForStop(old(View()), item) else Refuse(old(View()), item)
      ensures unchanged(`emissions)
    {
      hide Resolve, Mark;
      if byStop {
        stats := stats.(droppedStopPhase := stats.droppedStopPhase + 1);
      } else {
        stats := stats.(droppedNewest := stats.droppedNewest + 1);
      }
      SettleItem(item, DropError);
      producers := producers - {item.ticket};
      hist := hist.(place := Mark(hist.place, item.ticket, if byStop then StopRejected else DroppedNewest));
    }

    // Makes room for `item` at the expense of the event at index `k`.
    method EvictAndAppend(k: nat, item: Item)
      requires k < |queue|
      modifies this
      ensures View() == Accept(Evict(old(View()), old(queue)[k]), Without(old(queue), k), item)
      ensures unchanged(`emissions)
    {
      var victim := queue[k];
      queue := queue[..k] + queue[k + 1..];
      SettleItem(victim, DropError);
      hist := hist.(place := Mark(hist.place, victim.ticket, DroppedOldest));
      stats := stats.(droppedOldest := stats.droppedOldest + 1);
      Append(item);
    }

    // One pass through the loop of _enqueue; `waits` says that the producer waits
    // for room.
    method TryEnqueue(t: nat) returns (waits: bool)
      requires Valid() && Enabled(settings, View(), Try(t))
      modifies this
      ensures View() == Next(settings, old(View()), Try(t)) && Valid()
      ensures waits == Waits(settings, old(View()), t)
    {
      hide FirstDroppable, Resolve, Mark, Invariant.Inv, Accept, Evict, Refuse, RejectForStop;
      Invariant.TryKeepsInv(settings, View(), t);
      Invariant.TryAddsNoPlace(settings, View(), producers[t]);
      Invariant.ProducerTicket(settings, View(), t);
      var item := producers[t];
      waits := false;
      if stopping {
        Leave(item, true);
      } else if |queue| < settings.capacity {
        Append(item);
      } else if settings.policy.Block? {
        waits := true;
      } else if settings.policy.DropOldest? {
        var k := FindDroppable();
        if k < |queue| {
          EvictAndAppend(k, item);
        } else if item.barrier {
          waits := true;
        } else {
          Leave(item, false);
        }
      } else if item.barrier {
        waits := true;
      } else {
        Leave(item, false);
      }
      if waits {
        parked := parked + [t];
      }
      assert View() == Next(settings, old(View()), Try(t));
    }

    // The task is cancelled inside _enqueue.
    method CancelProducer(t: nat)
      requires Valid() && Enabled(settings, View(), Spec.CancelProducer(t))
      modifies this`producers, this`parked, this`hist
      ensures View() == Next(settings, old(View()), Spec.CancelProducer(t)) && Valid()
    {
      hide Mark, Unlisted, Invariant.Inv;
      Invariant.ProducerTicket(settings, View(), t);
      Invariant.CancelKeepsInv(settings, View(), producers[t]);
      producers := producers - {t};
      parked := Unlisted(parked, t);
      if settings.relays {
        NotifyNotFull(1);
      }
      hist := hist.(place := Mark(hist.place, t, Cancelled));
      assert View() == Next(settings, old(View()), Spec.CancelProducer(t));
    }

    // _queue_not_full.notify(n): the tasks that waited longest.
    method NotifyNotFull(n: nat)
      modifies this`parked
      ensures parked == old(parked)[Min(n, |old(parked)|)..]
    {
      parked := parked[Min(n, |parked|)..];
    }

    // ---- the worker ------------------------------------------------------------------------

    method Pop() returns (item: Item)
      requires Valid() && Enabled(settings, View(), Spec.Pop)
      modifies this`queue, this`inflight, this`parked, this`hist
      ensures View() == Next(settings, old(View()), Spec.Pop) && Valid() && old(queue) == [item] + queue
    {
      hide Mark, Invariant.Inv;
      Invariant.StepKeepsInv(settings, View(), Spec.Pop);
      item := queue[0];
      NotifyNotFull(1);
      queue := queue[1..];
      inflight := Some(item);
      hist := hist.(place := Mark(hist.place, item.ticket, InFlight), handed := hist.handed + [item]);
      assert View() == Next(settings, old(View()), Spec.Pop);
    }

    // The handler returned, or its failure was dealt with.
    method Complete()
      requires Valid() && inflight.Some?
      modifies this`inflight, this`futures, this`hist
      ensures View() == Next(settings, old(View()), Deliver(true)) && Valid()
    {
      hide Resolve, Mark, Invariant.Inv;
      Invariant.DeliveredKeepsInv(settings, View());
      SettleItem(inflight.value, Success);
      hist := hist.(place := Mark(hist.place, inflight.value.ticket, Delivered));
      inflight := None;
      assert View() == Next(settings, old(View()), Deliver(true));
    }

    // The finally block of _run: what is still queued fails, the worker is gone.
    method WorkerLeaves()
      modifies this`queue, this`futures, this`hist, this`worker
      ensures View() == Clear(old(View()).(worker := false), old(queue), [], WorkerError, WorkerCleared)
    {
      SettleAll(queue, WorkerError, WorkerCleared);
      queue := [];
      worker := false;
    }

    method Fail()
      requires Valid() && inflight.Some?
      modifies this`queue, this`inflight, this`futures, this`hist, this`worker
      ensures View() == Next(settings, old(View()), Deliver(false)) && Valid()
    {
      hide Resolve, ResolveAll, Mark, MarkAll, Invariant.Inv;
      Invariant.FailedDeliveryKeepsInv(settings, View());
      SettleItem(inflight.value, WorkerError);
      hist := hist.(place := Mark(hist.place, inflight.value.ticket, DeliveryFailed));
      inflight := None;
      WorkerLeaves();
      assert View() == Next(settings, old(View()), Deliver(false));
    }

    // The loop of _run once stop() has begun, with no failing handler: the queue
    // only shrinks, so the loop ends, and the worker leaves with nothing to clear.
    method DrainAndExit()
      requires Valid() && stopping && worker && inflight.None?
      modifies this`queue, this`inflight, this`parked, this`futures, this`hist, this`worker
      ensures Valid() && View() == RunFrom(settings, old(View()), Shutdown.Drain(|old(queue)|))
      ensures queue == [] && !worker && hist.handed == old(hist.handed + queue)
    {
      hide Invariant.Inv, Mark, Resolve;
      Shutdown.DrainHandsEverything(settings, View());
      while queue != []
        invariant Valid() && stopping && worker && inflight.None?
        invariant RunFrom(settings, View(), Shutdown.Drain(|queue|))
                  == RunFrom(settings, old(View()), Shutdown.Drain(|old(queue)|))
        decreases |queue|
      {
        Shutdown.RunTwo(settings, View(), Spec.Pop, Deliver(true), Shutdown.Drain(|queue| - 1));
        var _ := Pop();
        Complete();
      }
      assert Shutdown.Drain(0)[1..] == [];
      Invariant.FlagsKeepInv(settings, View(), stopping, false, parked);
      WorkerLeaves();
    }

    // ---- stop and resource close -------------------------------------------------------------

    // stop(): an external caller then awaits the worker; a caller on the worker, or
    // one with a bypass token, discards what is queued instead.
    method Stop(bypass: bool) returns (awaits: bool)
      requires Valid()
      modifies this`stopping, this`queue, this`parked, this`futures, this`hist, this`stats
      ensures awaits == (old(worker) && !bypass) && Valid()
      ensures
        View() == var s := Next(settings, old(View()), StopBegins);
                  if bypass then Next(settings, s, StopClears) else s
    {
      hide Invariant.Inv;
      Invariant.StepKeepsInv(settings, View(), StopBegins);
      stopping := true;
      if !worker {
        return false;
      }
      NotifyNotFull(|parked|);
      assert View() == Next(settings, old(View()), StopBegins);
      if bypass {
        DiscardQueue();
      }
      return !bypass;
    }

    // What is still queued fails, and counts as dropped in the stop phase.
    method DiscardQueue()
      requires Valid() && stopping && worker
      modifies this`queue, this`futures, this`hist, this`stats
      ensures View() == Next(settings, old(View()), StopClears) && Valid()
    {
      hide ResolveAll, MarkAll, Invariant.Inv;
      Invariant.StepKeepsInv(settings, View(), StopClears);
      stats := stats.(droppedStopPhase := stats.droppedStopPhase + |queue|);
      SettleAll(queue, DropError, StopCleared);
      queue := [];
      assert View() == Next(settings, old(View()), StopClears);
    }

    // The queued payload events of one resource, and the other events.
    method SplitQueue(r: nat) returns (dropped: seq<Item>, kept: seq<Item>)
      ensures dropped == OfResource(queue, r) && kept == NotOfResource(queue, r)
    {
      var i := 0;
      dropped, kept := [], [];
      while i < |queue|
        invariant i <= |queue|
        invariant dropped + OfResource(queue[i..], r) == OfResource(queue, r)
        invariant kept + NotOfResource(queue[i..], r) == NotOfResource(queue, r)
      {
        assert queue[i..][1..] == queue[i + 1..];
        if queue[i].bytes && queue[i].resource == r {
          dropped := dropped + [queue[i]];
        } else {
          kept := kept + [queue[i]];
        }
        i := i + 1;
      }
    }

    // drop_queued_events_for_resource: also settles the waiters of what it drops.
    method DropQueuedEventsForResource(r: nat) returns (count: nat)
      requires Valid()
      modifies this`queue, this`parked, this`futures, this`hist, this`stats
      ensures View() == Next(settings, old(View()), DropResource(r)) && Valid()
      ensures count == |OfResource(old(queue), r)|
    {
      hide OfResource, NotOfResource, ResolveAll, MarkAll, Invariant.Inv, Next;
      DropResourceIs(settings, View(), r);
      Invariant.DropResourceKeepsInv(settings, View(), r);
      var dropped, kept := SplitQueue(r);
      if dropped == [] {
        NothingOfResource(queue, r);
      } else {
        NotifyNotFull(|parked|);
        queue := kept;
        stats := stats.(droppedStopPhase := stats.droppedStopPhase + |dropped|);
      }
      SettleAll(dropped, DropError, ResourceCleared);
      assert View() == DoDropResource(old(View()), r);
      return |dropped|;
    }
  }

  lemma {:induction false} NothingOfResource(items: seq<Item>, r: nat)
    requires OfResource(items, r) == []
    ensures NotOfResource(items, r) == items
  {
    if items != [] {
      NothingOfResource(items[1..], r);
    }
  }
}

// What becomes of an emission, from the circumstances in which it was made.

module DispatcherArrivals {
  import opened Common
  import opened EventQueue
  import opened DispatcherSpec
  import opened DispatcherProofs
  import opened DispatcherInvariant
  import opened DispatcherTheorems
  import DS = DispatcherShutdown

  // ---- an emission moves on, and stays where it ends ------------------------------------

  // From _enqueue into the queue or out of it, from there to the worker or away, and
  // from the worker to its outcome.
  predicate Onward(p: Place, q: Place) {
    match p
    case Producing => q.Queued? || q.DroppedNewest? || q.StopRejected? || q.Cancelled?
    case Queued => q.InFlight? || q.DroppedOldest? || q.StopCleared? || q.ResourceCleared? || q.WorkerCleared?
    case InFlight => q.Delivered? || q.DeliveryFailed?
    case _ => false
  }

  predicate MovesOn(s: Dispatcher, d: Dispatcher, t: nat) {
    t < |s.hist.place| ==>
      t < |d.hist.place| && (d.hist.place[t] == s.hist.place[t] || Onward(s.hist.place[t], d.hist.place[t]))
  }

  lemma TryMovesOn(cfg: Settings, s: Dispatcher, u: nat, t: nat)
    requires PlacesOk(s) && u in s.producers
    ensures MovesOn(s, DoTry(cfg, s, s.producers[u]), t)
  {
    hide FirstDroppable, Resolve;
    var item := s.producers[u];
    assert ItemAt(s.hist, item, Producing);
    if !s.stopping {
      match EventQueue.Decide(s.queue, cfg.capacity, cfg.policy, item)
      case Evicted(k) => assert ItemAt(s.hist, s.queue[k], Queued);
      case _ =>
    }
    hide PlacesOk, EventQueue.Decide;
  }

  lemma ClearMovesOn(s: Dispatcher, items: seq<Item>, kept: seq<Item>, outcome: Future, p: Place, t: nat)
    requires AllAt(items, s.hist.place, Queued) && Onward(Queued, p)
    ensures MovesOn(s, Clear(s, items, kept, outcome, p), t)
  {
    hide MarkAll, ResolveAll;
    MarkAllAt(s.hist.place, items, p, t);
    if Among(items, t) {
      var i :| 0 <= i < |items| && items[i].ticket == t;
      assert s.hist.place[items[i].ticket] == Queued;
    }
  }

  lemma PartsAreQueued(s: Dispatcher, r: nat)
    requires PlacesOk(s)
    ensures AllAt(s.queue, s.hist.place, Queued) && AllAt(OfResource(s.queue, r), s.hist.place, Queued)
  {
    forall i | 0 <= i < |s.queue|
      ensures s.queue[i].ticket < |s.hist.place| && s.hist.place[s.queue[i].ticket] == Queued
    {
      assert ItemAt(s.hist, s.queue[i], Queued);
    }
    ResourceParts(s.queue, r);
    var items := OfResource(s.queue, r);
    forall i | 0 <= i < |items|
      ensures items[i].ticket < |s.hist.place| && s.hist.place[items[i].ticket] == Queued
    {
      assert items[i] in items && items[i] in s.queue;
    }
  }

  lemma PopMovesOn(s: Dispatcher, t: nat)
    requires PlacesOk(s) && s.queue != []
    ensures MovesOn(s, WakeOne(DoPop(s)), t)
  {
    assert ItemAt(s.hist, s.queue[0], Queued);
    hide PlacesOk;
  }

  lemma DeliveredMovesOn(s: Dispatcher, t: nat)
    requires PlacesOk(s) && s.inflight.Some?
    ensures MovesOn(s, DoDelivered(s), t)
  {
    hide Resolve;
    assert ItemAt(s.hist, s.inflight.value, InFlight);
    hide PlacesOk;
  }

  lemma FailedMovesOn(s: Dispatcher, t: nat)
    requires PlacesOk(s) && s.inflight.Some?
    ensures MovesOn(s, DoDeliveryFailed(s), t)
  {
    hide Resolve, Clear;
    assert ItemAt(s.hist, s.inflight.value, InFlight);
    PartsAreQueued(s, 0);
    hide PlacesOk;
    assert AllAt(s.queue, Failed(s).hist.place, Queued);
    ClearMovesOn(Failed(s), s.queue, [], WorkerError, WorkerCleared, t);
  }

  lemma StepMovesOn(cfg: Settings, s: Dispatcher, a: Action, t: nat)
    requires PlacesOk(s) && Enabled(cfg, s, a)
    ensures MovesOn(s, Step(cfg, s, a), t)
  {
    hide DoEmit, DoTry, DoPop, DoDelivered, DoDeliveryFailed, Clear, OfResource, NotOfResource, Resolve;
    match a
    case Emit(e, i, w) => EmitAppends(cfg, s, e, i, w);
    case Try(u) => TryMovesOn(cfg, s, u, t);
    case CancelProducer(u) => assert ItemAt(s.hist, s.producers[u], Producing);
    case Pop => PopMovesOn(s, t);
    case Deliver(ok) =>
      if ok {
        DeliveredMovesOn(s, t);
      } else {
        FailedMovesOn(s, t);
      }
    case WorkerCancelled =>
      PartsAreQueued(s, 0);
      ClearMovesOn(s.(worker := false), s.queue, [], WorkerError, WorkerCleared, t);
    case StopClears =>
      PartsAreQueued(s, 0);
      ClearMovesOn(s, s.queue, [], DropError, StopCleared, t);
    case DropResource(r) =>
      PartsAreQueued(s, r);
      ClearMovesOn(s, OfResource(s.queue, r), NotOfResource(s.queue, r), DropError, ResourceCleared, t);
    case _ =>
  }

  lemma EmitAppends(cfg: Settings, s: Dispatcher, e: Event, inlineContext: bool, byWorker: bool)
    ensures
      var d := DoEmit(cfg, s, e, inlineContext, byWorker);
      |d.hist.place| == |s.hist.place| + 1 && d.hist.place[..|s.hist.place|] == s.hist.place
  {
  }

  // Once an emission has left queue and worker, or never entered _enqueue, its fate is
  // decided.
  predicate Decided(p: Place) { !p.Producing? && !p.Queued? && !p.InFlight? }

  lemma {:induction false} FateIsFinal(cfg: Settings, s: Dispatcher, acts: seq<Action>, t: nat)
    requires Inv(cfg, s) && t < |s.hist.place|
    ensures
      var d := RunFrom(cfg, s, acts);
      && t < |d.hist.place|
      && (Decided(s.hist.place[t]) ==> d.hist.place[t] == s.hist.place[t])
      && (!Decided(s.hist.place[t]) ==> !d.hist.place[t].InlineMode? && !d.hist.place[t].Fallback?)
    decreases acts
  {
    hide Inv, Step, Enabled;
    if acts != [] {
      if Enabled(cfg, s, acts[0]) {
        StepKeepsInv(cfg, s, acts[0]);
        PlacesOf(cfg, s);
        StepMovesOn(cfg, s, acts[0], t);
      }
      FateIsFinal(cfg, Next(cfg, s, acts[0]), acts[1..], t);
    }
  }

  lemma PlacesOf(cfg: Settings, s: Dispatcher)
    requires Inv(cfg, s)
    ensures PlacesOk(s)
  {
    hide CountsOk, OrderOk, FuturesOk, PlacesOk;
  }

  // ---- the circumstances, from the actions ---------------------------------------------

  // stop() was called, and no start() has taken effect since.
  ghost predicate Stopped(cfg: Settings, acts: seq<Action>) {
    acts != []
    && var before, last := acts[..|acts| - 1], acts[|acts| - 1];
       last.StopBegins? || (Stopped(cfg, before) && !(last.Start? && !cfg.inline && !Working(cfg, before)))
  }

  // A worker was created and neither left, was cancelled nor died of a delivery.
  ghost predicate Working(cfg: Settings, acts: seq<Action>) {
    acts != []
    && var before, last := acts[..|acts| - 1], acts[|acts| - 1];
       if last.Start? then !cfg.inline
       else Working(cfg, before) && !(Ends(last) && Enabled(cfg, Run(cfg, before), last))
  }

  predicate Ends(a: Action) { a.WorkerExits? || a.WorkerCancelled? || a == Deliver(false) }

  lemma RunSnoc(cfg: Settings, acts: seq<Action>, a: Action)
    ensures Run(cfg, acts + [a]) == Next(cfg, Run(cfg, acts), a)
  {
    DS.RunConcat(cfg, INITIAL, acts, [a]);
    assert [a][1..] == [];
  }

  lemma FlagsMove(cfg: Settings, s: Dispatcher, a: Action)
    requires cfg.inline ==> !s.worker
    requires s.inflight.Some? ==> s.worker
    ensures
      var d := Next(cfg, s, a);
      && d.stopping == (a.StopBegins? || (s.stopping && !(a.Start? && !cfg.inline && !s.worker)))
      && d.worker == (if a.Start? then !cfg.inline else s.worker && !(Ends(a) && Enabled(cfg, s, a)))
      && (cfg.inline ==> !d.worker) && (d.inflight.Some? ==> d.worker)
  {
    hide DoEmit, DoTry, Clear;
    if a.Emit? && Enabled(cfg, s, a) {
      EmitKeepsFlags(cfg, s, a.e, a.inlineContext, a.byWorker);
    }
    if a.Try? && Enabled(cfg, s, a) {
      TryKeepsFlags(cfg, s, s.producers[a.t]);
    }
    ClearKeepsFlags();
  }

  lemma EmitKeepsFlags(cfg: Settings, s: Dispatcher, e: Event, inlineContext: bool, byWorker: bool)
    ensures
      var d := DoEmit(cfg, s, e, inlineContext, byWorker);
      d.stopping == s.stopping && d.worker == s.worker && d.inflight == s.inflight
  {
  }

  lemma TryKeepsFlags(cfg: Settings, s: Dispatcher, item: Item)
    ensures
      var d := DoTry(cfg, s, item);
      d.stopping == s.stopping && d.worker == s.worker && d.inflight == s.inflight
  {
    hide FirstDroppable, Resolve, Mark;
  }

  lemma ClearKeepsFlags()
    ensures
      forall s, items, kept, outcome, p :: var d := Clear(s, items, kept, outcome, p);
        d.stopping == s.stopping && d.worker == s.worker && d.inflight == s.inflight
  {
  }

  lemma {:induction false} FlagsAre(cfg: Settings, acts: seq<Action>)
    ensures var s := Run(cfg, acts); (s.stopping <==> Stopped(cfg, acts)) && (s.worker <==> Working(cfg, acts))
    ensures var s := Run(cfg, acts); (cfg.inline ==> !s.worker) && (s.inflight.Some? ==> s.worker)
    decreases |acts|
  {
    hide RunFrom, Next, Enabled;
    if acts == [] {
      InitialFlags(cfg);
    } else {
      var before, last := acts[..|acts| - 1], acts[|acts| - 1];
      FlagsAre(cfg, before);
      assert acts == before + [last];
      RunSnoc(cfg, before, last);
      FlagsMove(cfg, Run(cfg, before), last);
    }
  }

  lemma InitialFlags(cfg: Settings)
    ensures Run(cfg, []) == INITIAL
  {
  }

  // ---- the fate of an emission, from its circumstances -----------------------------------

  // Over all runs, whatever follows: an emission is delivered in the task that made it
  // exactly if the mode is INLINE or, as a fallback, the task carries the inline context, or
  // no stop is under way and it is the worker or there is none; it is rejected on arrival,
  // for good, exactly if a stop is under way in BACKGROUND mode and the task carries no inline
  // context.
  lemma ArrivalDecides(
      cfg: Settings, before: seq<Action>, e: Event, inlineContext: bool, byWorker: bool, after: seq<Action>)
    requires Enabled(cfg, Run(cfg, before), Emit(e, inlineContext, byWorker))
    ensures
      var t := |Run(cfg, before).hist.place|;
      var arrived := Run(cfg, before + [Emit(e, inlineContext, byWorker)]).hist.place;
      var later := Run(cfg, before + [Emit(e, inlineContext, byWorker)] + after).hist.place;
      && t < |arrived| && t < |later|
      && (later[t].InlineMode? <==> cfg.inline)
      && (later[t].Fallback?
          <==> !cfg.inline && (inlineContext || (!Stopped(cfg, before) && (byWorker || !Working(cfg, before)))))
      && (arrived[t].StopRejected? <==> !cfg.inline && !inlineContext && Stopped(cfg, before))
      && (arrived[t].StopRejected? ==> later[t].StopRejected?)
  {
    hide RunFrom, Inv, Next, Enabled, Stopped, Working;
    var a := Emit(e, inlineContext, byWorker);
    FlagsAre(cfg, before);
    RunSnoc(cfg, before, a);
    DS.RunConcat(cfg, INITIAL, before + [a], after);
    EmitArrives(cfg, Run(cfg, before), e, inlineContext, byWorker);
    RunKeepsInv(cfg, before + [a]);
    FateIsFinal(cfg, Run(cfg, before + [a]), after, |Run(cfg, before).hist.place|);
  }

  lemma EmitArrives(cfg: Settings, s: Dispatcher, e: Event, inlineContext: bool, byWorker: bool)
    requires Enabled(cfg, s, Emit(e, inlineContext, byWorker))
    ensures
      var t := |s.hist.place|;
      var ps := Next(cfg, s, Emit(e, inlineContext, byWorker)).hist.place;
      && t < |ps|
      && (ps[t].InlineMode? <==> cfg.inline)
      && (ps[t].Fallback? <==> !cfg.inline && (inlineContext || (!s.stopping && (byWorker || !s.worker))))
      && (ps[t].StopRejected? <==> !cfg.inline && !inlineContext && s.stopping)
      && (ps[t].InlineMode? || ps[t].Fallback? || ps[t].StopRejected? || ps[t].Producing?)
  {
  }

  // ---- who has a waiter --------------------------------------------------------------------

  lemma {:induction false} KeysStay(cfg: Settings, s: Dispatcher, acts: seq<Action>, t: nat)
    requires t < |s.hist.place|
    ensures var d := RunFrom(cfg, s, acts); t < |d.hist.place| && (t in d.futures <==> t in s.futures)
    decreases acts
  {
    hide Step, Enabled;
    if acts != [] {
      if Enabled(cfg, s, acts[0]) {
        StepKeepsKeys(cfg, s, acts[0], t);
      }
      KeysStay(cfg, Next(cfg, s, acts[0]), acts[1..], t);
    }
  }

  lemma StepKeepsKeys(cfg: Settings, s: Dispatcher, a: Action, t: nat)
    requires Enabled(cfg, s, a) && t < |s.hist.place|
    ensures var d := Step(cfg, s, a); t < |d.hist.place| && (t in d.futures <==> t in s.futures)
  {
    hide ResolveAll, MarkAll, OfResource, NotOfResource, DoTry;
    match a
    case Try(u) => TryKeepsKeys(cfg, s, s.producers[u]);
    case Deliver(ok) =>
      if !ok {
        DS.SameKeys(Failed(s).futures, s.queue, WorkerError);
      }
    case WorkerCancelled => DS.SameKeys(s.futures, s.queue, WorkerError);
    case StopClears => DS.SameKeys(s.futures, s.queue, DropError);
    case DropResource(r) => DS.SameKeys(s.futures, OfResource(s.queue, r), DropError);
    case _ =>
  }

  lemma TryKeepsKeys(cfg: Settings, s: Dispatcher, item: Item)
    ensures
      var d := DoTry(cfg, s, item);
      d.futures.Keys == s.futures.Keys && |d.hist.place| == |s.hist.place|
  {
    hide FirstDroppable, Mark;
  }

  // Over all runs: an emission has a future exactly if its caller waits and it entered
  // _enqueue; every other one was delivered or rejected before emit_and_wait awaited anything.
  lemma WaitersExactly(
      cfg: Settings, before: seq<Action>, e: Event, inlineContext: bool, byWorker: bool, after: seq<Action>)
    requires Enabled(cfg, Run(cfg, before), Emit(e, inlineContext, byWorker))
    ensures
      var t := |Run(cfg, before).hist.place|;
      var arrived := Run(cfg, before + [Emit(e, inlineContext, byWorker)]).hist.place;
      var later := Run(cfg, before + [Emit(e, inlineContext, byWorker)] + after);
      t < |arrived| && (t in later.futures <==> e.waits && arrived[t].Producing?)
  {
    var a := Emit(e, inlineContext, byWorker);
    RunKeepsInv(cfg, before);
    FuturesBehind(cfg, Run(cfg, before));
    RunSnoc(cfg, before, a);
    DS.RunConcat(cfg, INITIAL, before + [a], after);
    FutureMade(cfg, Run(cfg, before), e, inlineContext, byWorker);
    hide RunFrom, Inv, Next, Enabled;
    KeysStay(cfg, Run(cfg, before + [a]), after, |Run(cfg, before).hist.place|);
  }

  lemma FuturesBehind(cfg: Settings, s: Dispatcher)
    requires Inv(cfg, s)
    ensures |s.hist.place| !in s.futures
  {
    hide CountsOk, OrderOk, PlacesOk;
  }

  lemma FutureMade(cfg: Settings, s: Dispatcher, e: Event, inlineContext: bool, byWorker: bool)
    requires Enabled(cfg, s, Emit(e, inlineContext, byWorker)) && |s.hist.place| !in s.futures
    ensures
      var t := |s.hist.place|;
      var d := Next(cfg, s, Emit(e, inlineContext, byWorker));
      t < |d.hist.place| && (t in d.futures <==> e.waits && d.hist.place[t].Producing?)
  {
  }

  // ---- who is notified -----------------------------------------------------------------------

  // In every state: a task that waits for room is notified, or leaves, exactly if it has waited
  // longest when a place is freed or a notified task's cancellation is relayed, is cancelled
  // itself, or everybody is notified, as by a stop that has a worker and by a resource close
  // that frees a place.
  lemma NotifiedExactly(cfg: Settings, s: Dispatcher, a: Action, t: nat)
    requires DS.WaitingOk(s) && Enabled(cfg, s, a) && t in s.parked
    ensures
      t !in Step(cfg, s, a).parked
      <==> match a
           case Pop => t == s.parked[0]
           case CancelProducer(u) =>
             t == u || (cfg.relays && Unlisted(s.parked, u) != [] && t == Unlisted(s.parked, u)[0])
           case StopBegins => s.worker
           case DropResource(r) => exists x :: x in s.queue && x.bytes && x.resource == r
           case _ => false
  {
    hide DoEmit, DoTry, Resolve, ResolveAll, Mark, MarkAll, Unlisted, OfResource, NotOfResource;
    match a
    case Emit(e, i, w) => EmitParksNobody(cfg, s, e, i, w);
    case Try(u) => TryOnlyParks(cfg, s, s.producers[u]);
    case CancelProducer(u) =>
      DS.UnlistedKeeps(s.parked, u);
      if t != u {
        UnlistedHasOthers(s.parked, u, t);
      }
    case DropResource(r) => SomeOfResource(s.queue, r);
    case _ =>
  }

  lemma EmitParksNobody(cfg: Settings, s: Dispatcher, e: Event, inlineContext: bool, byWorker: bool)
    ensures DoEmit(cfg, s, e, inlineContext, byWorker).parked == s.parked
  {
  }

  lemma TryOnlyParks(cfg: Settings, s: Dispatcher, item: Item)
    ensures s.parked <= DoTry(cfg, s, item).parked
  {
    hide FirstDroppable, Resolve, Mark;
  }

  lemma {:induction false} UnlistedHasOthers(ts: seq<nat>, u: nat, t: nat)
    requires t in ts && t != u
    ensures t in Unlisted(ts, u)
  {
    if ts[0] != t {
      UnlistedHasOthers(ts[1..], u, t);
    }
  }

  lemma {:induction false} SomeOfResource(items: seq<Item>, r: nat)
    ensures OfResource(items, r) != [] <==> exists x :: x in items && x.bytes && x.resource == r
  {
    if items != [] {
      SomeOfResource(items[1..], r);
      assert forall x :: x in items <==> x == items[0] || x in items[1..];
    }
  }

  // ---- what a handler's own stop publishes ----------------------------------------------------

  // So whatever is emitted in the inline context after a stop began, as the terminal events
  // of a handler's own stop are, is delivered there and then.
  lemma {:induction false} TerminalEventsAreDelivered(
      cfg: Settings, before: seq<Action>, es: seq<Event>, after: seq<Action>)
    ensures
      var first := |Run(cfg, before + [StopBegins]).hist.place|;
      var later := Run(cfg, before + [StopBegins] + InlineEmits(es) + after).hist.place;
      && first + |es| <= |later|
      && (forall i :: first <= i < first + |es| ==> later[i].InlineMode? || later[i].Fallback?)
    decreases |es|
  {
    hide RunFrom, Stopped, Working;
    var start := before + [StopBegins];
    if es == [] {
      assert start + InlineEmits(es) + after == start + after;
      DS.RunConcat(cfg, INITIAL, start, after);
      PlacesGrow(cfg, start, after);
    } else {
      var init, e := es[..|es| - 1], es[|es| - 1];
      var made := start + InlineEmits(init);
      assert start + InlineEmits(es) + after == made + [Emit(e, true, false)] + after;
      assert made + [Emit(e, true, false)] + after == made + ([Emit(e, true, false)] + after);
      TerminalEventsAreDelivered(cfg, before, init, [Emit(e, true, false)] + after);
      PlacesMade(cfg, before, init);
      ArrivalDecides(cfg, made, e, true, false, after);
    }
  }

  lemma PlacesGrow(cfg: Settings, acts: seq<Action>, after: seq<Action>)
    ensures |Run(cfg, acts).hist.place| <= |Run(cfg, acts + after).hist.place|
  {
    hide RunFrom, Inv;
    DS.RunConcat(cfg, INITIAL, acts, after);
    RunKeepsInv(cfg, acts);
    if Run(cfg, acts).hist.place != [] {
      FateIsFinal(cfg, Run(cfg, acts), after, |Run(cfg, acts).hist.place| - 1);
    }
  }

  // Emissions are numbered as they are made.
  lemma {:induction false} PlacesMade(cfg: Settings, before: seq<Action>, es: seq<Event>)
    ensures
      var start := before + [StopBegins];
      |Run(cfg, start + InlineEmits(es)).hist.place| == |Run(cfg, start).hist.place| + |es|
    decreases |es|
  {
    hide RunFrom;
    var start := before + [StopBegins];
    if es == [] {
      assert start + InlineEmits(es) == start;
    } else {
      var init, e := es[..|es| - 1], es[|es| - 1];
      assert start + InlineEmits(es) == start + InlineEmits(init) + [Emit(e, true, false)];
      PlacesMade(cfg, before, init);
      RunSnoc(cfg, start + InlineEmits(init), Emit(e, true, false));
      EmitAppends(cfg, Run(cfg, start + InlineEmits(init)), e, true, false);
    }
  }

  function InlineEmits(es: seq<Event>): seq<Action> {
    if es == [] then [] else InlineEmits(es[..|es| - 1]) + [Emit(es[|es| - 1], true, false)]
  }
}

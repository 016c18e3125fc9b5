// Backpressure seen from outside: what the dispatcher's queue holds after a series
// of emissions that the worker does not keep up with.

module DispatcherBackpressure {
  import opened Common
  import opened EventQueue
  import opened DispatcherSpec
  import opened DispatcherShutdown

  // The events `es` as they are numbered from `first` on.
  function ItemsOf(es: seq<Event>, first: nat): seq<Item> {
    if es == [] then []
    else
      var e := es[|es| - 1];
      ItemsOf(es[..|es| - 1], first) + [Item(first + |es| - 1, e.bytes, e.resource, e.barrier, e.waits)]
  }

  // Each emission with its first pass through _enqueue.
  function Offers(es: seq<Event>, first: nat): seq<Action> {
    if es == [] then []
    else Offers(es[..|es| - 1], first) + [Emit(es[|es| - 1], false, false), Try(first + |es| - 1)]
  }

  ghost predicate Accepting(s: Dispatcher) { s.worker && !s.stopping && WaitingOk(s) }

  lemma OneOffer(cfg: Settings, s: Dispatcher, e: Event)
    requires !cfg.inline && Accepting(s)
    ensures
      var t := |s.hist.place|;
      var item := Item(t, e.bytes, e.resource, e.barrier, e.waits);
      var d := RunFrom(cfg, s, [Emit(e, false, false), Try(t)]);
      && d.queue == After(s.queue, cfg.capacity, cfg.policy, item)
      && Accepting(d) && |d.hist.place| == t + 1
  {
    var t := |s.hist.place|;
    assert [Emit(e, false, false), Try(t)] == [Emit(e, false, false), Try(t)] + [];
    RunTwo(cfg, s, Emit(e, false, false), Try(t), []);
    RunKeepsWaiting(cfg, s, [Emit(e, false, false), Try(t)]);
    OfferOutcome(cfg, s, e);
    hide Next, WaitingOk;
  }

  lemma OfferOutcome(cfg: Settings, s: Dispatcher, e: Event)
    requires !cfg.inline && Accepting(s)
    ensures
      var t := |s.hist.place|;
      var item := Item(t, e.bytes, e.resource, e.barrier, e.waits);
      var d := Next(cfg, Next(cfg, s, Emit(e, false, false)), Try(t));
      && d.queue == After(s.queue, cfg.capacity, cfg.policy, item)
      && d.worker && !d.stopping && |d.hist.place| == t + 1
  {
    hide FirstDroppable, Resolve, Mark;
    var t := |s.hist.place|;
    var item := Item(t, e.bytes, e.resource, e.barrier, e.waits);
    var s1 := DoEmit(cfg, s, e, false, false);
    assert Next(cfg, s, Emit(e, false, false)) == s1;
    assert t !in s1.parked && s1.producers[t] == item;
    assert Next(cfg, s1, Try(t)) == DoTry(cfg, s1, item);
  }

  // The queue of the running dispatcher is what the series of offers amounts to.
  lemma {:induction false} OffersFillQueue(cfg: Settings, s: Dispatcher, es: seq<Event>)
    requires !cfg.inline && Accepting(s) && s.queue == []
    ensures
      var first := |s.hist.place|;
      var d := RunFrom(cfg, s, Offers(es, first));
      && d.queue == OfferAll(ItemsOf(es, first), cfg.capacity, cfg.policy)
      && Accepting(d) && |d.hist.place| == first + |es|
  {
    hide RunFrom, After, WaitingOk, OfferAll, ItemsOf, Offers;
    if es == [] {
      NothingOffered(cfg, s);
    } else {
      OneMoreOffer(es, |s.hist.place|);
      var first, init, e := |s.hist.place|, es[..|es| - 1], es[|es| - 1];
      OffersFillQueue(cfg, s, init);
      RunConcat(cfg, s, Offers(init, first), [Emit(e, false, false), Try(first + |es| - 1)]);
      OneOffer(cfg, RunFrom(cfg, s, Offers(init, first)), e);
      OneMoreItem(cfg, es, first);
    }
  }

  lemma NothingOffered(cfg: Settings, s: Dispatcher)
    ensures RunFrom(cfg, s, Offers([], |s.hist.place|)) == s
    ensures OfferAll(ItemsOf([], |s.hist.place|), cfg.capacity, cfg.policy) == []
  {
  }

  lemma OneMoreOffer(es: seq<Event>, first: nat)
    requires es != []
    ensures
      Offers(es, first)
      == Offers(es[..|es| - 1], first) + [Emit(es[|es| - 1], false, false), Try(first + |es| - 1)]
  {
  }

  lemma OneMoreItem(cfg: Settings, es: seq<Event>, first: nat)
    requires es != []
    ensures
      var init, e := es[..|es| - 1], es[|es| - 1];
      var item := Item(first + |es| - 1, e.bytes, e.resource, e.barrier, e.waits);
      OfferAll(ItemsOf(es, first), cfg.capacity, cfg.policy)
      == After(OfferAll(ItemsOf(init, first), cfg.capacity, cfg.policy), cfg.capacity, cfg.policy, item)
  {
    hide After;
    var items := ItemsOf(es, first);
    assert items[..|items| - 1] == ItemsOf(es[..|es| - 1], first);
  }

  // Under DROP_OLDEST the queue holds, of the longest part of the series whose
  // barriers fit, all barriers and the newest other events there is room for; under
  // the other policies it holds the first events.
  lemma QueueAfterOverload(cfg: Settings, s: Dispatcher, es: seq<Event>)
    requires !cfg.inline && Accepting(s) && s.queue == []
    ensures
      var items := ItemsOf(es, |s.hist.place|);
      var q := RunFrom(cfg, s, Offers(es, |s.hist.place|)).queue;
      if cfg.policy.DropOldest? then
        var p := UpToBarriers(items, cfg.capacity);
        Barriers(p) <= cfg.capacity && q == Survivors(p, Quota(p, cfg.capacity))
      else q == items[..Min(cfg.capacity, |items|)]
  {
    hide RunFrom, WaitingOk, Survivors, UpToBarriers, Barriers, ItemsOf, Offers, OfferAll;
    var items := ItemsOf(es, |s.hist.place|);
    OffersFillQueue(cfg, s, es);
    if cfg.policy.DropOldest? {
      DropOldestMeans(items, cfg.capacity);
    } else {
      OthersKeepFirst(items, cfg.capacity, cfg.policy);
    }
  }
}

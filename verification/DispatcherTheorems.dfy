// What the dispatcher promises over all runs.

module DispatcherTheorems {
  import opened Common
  import opened EventQueue
  import opened DispatcherSpec
  import opened DispatcherProofs
  import opened DispatcherInvariant

  // ---- runs ---------------------------------------------------------------------

  lemma InitialInv(cfg: Settings)
    ensures Inv(cfg, INITIAL)
  {
  }

  lemma {:induction false} RunFromKeepsInv(cfg: Settings, s: Dispatcher, acts: seq<Action>)
    requires Inv(cfg, s)
    ensures Inv(cfg, RunFrom(cfg, s, acts))
    decreases acts
  {
    hide Inv, Step, Enabled;
    if acts != [] {
      if Enabled(cfg, s, acts[0]) {
        StepKeepsInv(cfg, s, acts[0]);
      }
      RunFromKeepsInv(cfg, Next(cfg, s, acts[0]), acts[1..]);
    }
  }

  lemma RunKeepsInv(cfg: Settings, acts: seq<Action>)
    ensures Inv(cfg, Run(cfg, acts))
  {
    hide Inv, Step, Enabled;
    InitialInv(cfg);
    RunFromKeepsInv(cfg, INITIAL, acts);
  }

  // ---- conservation ---------------------------------------------------------------

  // Every emit call is accounted for, every accepted event is accounted for, and
  // the queue never exceeds its capacity.
  lemma Conservation(cfg: Settings, acts: seq<Action>)
    ensures
      var s := Run(cfg, acts);
      var st, ps := s.stats, s.hist.place;
      && st.emitCalls == N(ps, InlineMode) + st.inlineFallback + st.enqueued + st.droppedNewest + N(ps, StopRejected)
                         + |s.producers| + N(ps, Cancelled)
      && st.enqueued == |s.hist.handed| + st.droppedOldest + N(ps, StopCleared) + N(ps, ResourceCleared)
                        + N(ps, WorkerCleared) + |s.queue|
      && st.droppedStopPhase == N(ps, StopRejected) + N(ps, StopCleared) + N(ps, ResourceCleared)
      && |s.queue| <= st.peak <= cfg.capacity
  {
    hide PlacesOk, OrderOk, FuturesOk, Step, Enabled, RunFrom, N;
    RunKeepsInv(cfg, acts);
    TallyAddsUp(Run(cfg, acts).hist.place);
  }

  // ---- delivery order ---------------------------------------------------------------

  // `xs` arises from `ys` by leaving out elements.
  predicate Subsequence(xs: seq<Item>, ys: seq<Item>)
    decreases ys
  {
    xs == []
    || (ys != []
        && (Subsequence(xs, ys[..|ys| - 1])
            || (xs[|xs| - 1] == ys[|ys| - 1] && Subsequence(xs[..|xs| - 1], ys[..|ys| - 1]))))
  }

  lemma {:induction false} KeptIsSubsequence(xs: seq<Item>, ps: seq<Place>)
    ensures Subsequence(Kept(xs, ps), xs)
  {
    if xs != [] {
      var init := xs[..|xs| - 1];
      KeptIsSubsequence(init, ps);
      var k := Kept(xs, ps);
      if HeldAt(ps, xs[|xs| - 1].ticket) {
        assert k[..|k| - 1] == Kept(init, ps);
      } else {
        assert k == Kept(init, ps);
      }
    }
  }

  lemma {:induction false} KeptLength(xs: seq<Item>, ps: seq<Place>)
    ensures |Kept(xs, ps)| <= |xs|
    ensures |Kept(xs, ps)| == |xs| ==> Kept(xs, ps) == xs
    ensures forall x :: x in Kept(xs, ps) <==> x in xs && HeldAt(ps, x.ticket)
  {
    if xs != [] {
      var init := xs[..|xs| - 1];
      KeptLength(init, ps);
      assert xs == init + [xs[|xs| - 1]];
    }
  }

  function Lost(t: Tally): int { t.droppedOldest + t.stopCleared + t.resourceCleared + t.workerCleared }

  // Delivered, in-flight and queued events form an order-preserving subsequence
  // of the accepted ones, and they are all of them exactly when nothing accepted
  // was discarded.
  lemma DeliveryFollowsAcceptance(cfg: Settings, acts: seq<Action>)
    ensures
      var s := Run(cfg, acts);
      && Subsequence(s.hist.handed + s.queue, s.hist.accepted)
      && (s.hist.handed + s.queue == s.hist.accepted <==> Lost(TallyOf(s.hist.place)) == 0)
  {
    var s := Run(cfg, acts);
    RunKeepsInv(cfg, acts);
    KeptIsSubsequence(s.hist.accepted, s.hist.place);
    KeptLength(s.hist.accepted, s.hist.place);
    hide PlacesOk, FuturesOk, RunFrom, TallyOf, Kept, Subsequence;
    assert |s.hist.accepted| == |s.hist.handed| + |s.queue| + Lost(TallyOf(s.hist.place));
  }

  // An action that can discard an event the queue had accepted.
  predicate Discards(a: Action) {
    a.StopClears? || a.DropResource? || a.WorkerCancelled? || a == Deliver(false)
  }

  lemma StepLosesNothing(cfg: Settings, s: Dispatcher, a: Action)
    requires Inv(cfg, s) && Enabled(cfg, s, a) && !Discards(a) && !cfg.policy.DropOldest?
    requires s.hist.accepted == s.hist.handed + s.queue
    ensures
      var d := Step(cfg, s, a);
      d.hist.accepted == d.hist.handed + d.queue
  {
    hide Inv, Resolve, Mark, FirstDroppable;
    if a.Pop? {
      assert s.queue == [s.queue[0]] + s.queue[1..];
    }
    if a.Try? {
      TryAccepts(cfg, s, s.producers[a.t]);
    }
  }

  // What one pass through _enqueue does to the queue and to the accepted events.
  lemma TryAccepts(cfg: Settings, s: Dispatcher, item: Item)
    ensures
      var d := DoTry(cfg, s, item);
      && d.hist.handed == s.hist.handed
      && if s.stopping || Decide(s.queue, cfg.capacity, cfg.policy, item).Refused?
            || Decide(s.queue, cfg.capacity, cfg.policy, item).Blocked?
         then d.queue == s.queue && d.hist.accepted == s.hist.accepted
         else d.hist.accepted == s.hist.accepted + [item] && d.queue != [] && d.queue[|d.queue| - 1] == item
              && (!cfg.policy.DropOldest? ==> d.queue == s.queue + [item])
  {
  }

  // Under BLOCK (and DROP_NEWEST), with no resource closed, no handler-origin stop
  // and no dying worker, nothing that was accepted is lost or reordered.
  lemma BlockDeliversEverything(cfg: Settings, acts: seq<Action>)
    requires !cfg.policy.DropOldest? && forall a :: a in acts ==> !Discards(a)
    ensures var s := Run(cfg, acts); s.hist.accepted == s.hist.handed + s.queue
  {
    InitialInv(cfg);
    DeliversFrom(cfg, INITIAL, acts);
  }

  lemma {:induction false} DeliversFrom(cfg: Settings, s: Dispatcher, acts: seq<Action>)
    requires !cfg.policy.DropOldest? && forall a :: a in acts ==> !Discards(a)
    requires Inv(cfg, s) && s.hist.accepted == s.hist.handed + s.queue
    ensures var d := RunFrom(cfg, s, acts); d.hist.accepted == d.hist.handed + d.queue
    decreases acts
  {
    hide Inv, Step, Enabled;
    if acts != [] {
      if Enabled(cfg, s, acts[0]) {
        StepKeepsInv(cfg, s, acts[0]);
        StepLosesNothing(cfg, s, acts[0]);
      }
      DeliversFrom(cfg, Next(cfg, s, acts[0]), acts[1..]);
    }
  }

  // ---- waiters -------------------------------------------------------------------------

  // A resolved future keeps its outcome, and no future disappears.
  lemma {:induction false} ResolveAllOnce(fs: map<nat, Future>, items: seq<Item>, outcome: Future, t: nat)
    requires t in fs
    ensures t in ResolveAll(fs, items, outcome)
    ensures !fs[t].Unresolved? ==> ResolveAll(fs, items, outcome)[t] == fs[t]
    decreases items
  {
    if items != [] {
      ResolveAllOnce(Resolve(fs, items[0], outcome), items[1..], outcome, t);
    }
  }

  // The future of a settled event: it is there, and its outcome is final.
  predicate Keeps(s: Dispatcher, d: Dispatcher, t: nat) {
    t in s.futures ==> t in d.futures && (!s.futures[t].Unresolved? ==> d.futures[t] == s.futures[t])
  }

  lemma StepResolvesOnce(cfg: Settings, s: Dispatcher, a: Action, t: nat)
    requires FuturesOk(s) && Enabled(cfg, s, a)
    ensures Keeps(s, Step(cfg, s, a), t)
  {
    hide FirstDroppable, OfResource, NotOfResource, ResolveAll, MarkAll, Mark, Fate;
    if t in s.futures {
      assert t < |s.hist.place|;
      match a
      case Deliver(ok) =>
        if !ok {
          ResolveAllOnce(Failed(s).futures, s.queue, WorkerError, t);
        }
      case WorkerCancelled => ResolveAllOnce(s.futures, s.queue, WorkerError, t);
      case StopClears => ResolveAllOnce(s.futures, s.queue, DropError, t);
      case DropResource(r) => ResolveAllOnce(s.futures, OfResource(s.queue, r), DropError, t);
      case _ =>
    }
  }

  lemma {:induction false} RunResolvesOnce(cfg: Settings, s: Dispatcher, acts: seq<Action>, t: nat)
    requires Inv(cfg, s)
    ensures Keeps(s, RunFrom(cfg, s, acts), t)
    decreases acts
  {
    hide PlacesOk, CountsOk, OrderOk, FuturesOk, Step, Enabled;
    if acts != [] {
      if Enabled(cfg, s, acts[0]) {
        StepKeepsInv(cfg, s, acts[0]);
        StepResolvesOnce(cfg, s, acts[0], t);
      }
      RunResolvesOnce(cfg, Next(cfg, s, acts[0]), acts[1..], t);
    }
  }

  // Every waiter ends with the outcome that matches what became of its event.
  lemma WaiterLearnsFate(cfg: Settings, acts: seq<Action>, t: nat)
    requires t in Run(cfg, acts).futures
    ensures
      var s := Run(cfg, acts);
      && t < |s.hist.place|
      && (s.futures[t].Success? <==> s.hist.place[t].Delivered?)
      && (s.futures[t].WorkerError? <==> s.hist.place[t].DeliveryFailed? || s.hist.place[t].WorkerCleared?)
      && (s.futures[t].DropError? <==>
            s.hist.place[t] in {DroppedOldest, DroppedNewest, StopRejected, StopCleared, ResourceCleared})
  {
    RunKeepsInv(cfg, acts);
    hide PlacesOk, CountsOk, OrderOk, RunFrom;
  }

  lemma BarrierSurvivesBackpressure(cfg: Settings, acts: seq<Action>, t: nat)
    requires t < |Run(cfg, acts).hist.emitted| && Run(cfg, acts).hist.emitted[t].barrier
    ensures
      var s := Run(cfg, acts);
      t < |s.hist.place| && !s.hist.place[t].DroppedOldest? && !s.hist.place[t].DroppedNewest?
  {
    RunKeepsInv(cfg, acts);
    hide CountsOk, OrderOk, FuturesOk, RunFrom;
  }
}

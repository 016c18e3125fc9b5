// Stopping the dispatcher, and the order in which one producer's events arrive.

module DispatcherShutdown {
  import opened Common
  import opened EventQueue
  import opened DispatcherSpec
  import opened DispatcherProofs
  import opened DispatcherInvariant
  import opened DispatcherTheorems

  // ---- nothing enters after stop() began ---------------------------------------------

  predicate NoStart(acts: seq<Action>) { forall a :: a in acts ==> !a.Start? }

  // Relative to a moment when the dispatcher was stopping.
  predicate OnlyDrains(s: Dispatcher, d: Dispatcher) {
    && d.stopping
    && d.hist.accepted == s.hist.accepted
    && s.hist.handed <= d.hist.handed
    && |d.hist.handed| + |d.queue| <= |s.hist.handed| + |s.queue|
  }

  lemma {:induction false} PartIsShorter(items: seq<Item>, r: nat)
    ensures |NotOfResource(items, r)| <= |items|
  {
    if items != [] {
      PartIsShorter(items[1..], r);
    }
  }

  lemma StepOnlyDrains(cfg: Settings, s: Dispatcher, a: Action)
    requires s.stopping && !a.Start? && Enabled(cfg, s, a)
    ensures OnlyDrains(s, Step(cfg, s, a))
  {
    hide Resolve, ResolveAll, Mark, MarkAll, OfResource, NotOfResource, Decide, FirstDroppable;
    if a.DropResource? {
      PartIsShorter(s.queue, a.r);
    }
  }

  // The queue length bounds how many events the worker still takes.
  lemma {:induction false} StoppedRunOnlyDrains(cfg: Settings, s: Dispatcher, acts: seq<Action>)
    requires s.stopping && NoStart(acts)
    ensures OnlyDrains(s, RunFrom(cfg, s, acts))
    ensures |RunFrom(cfg, s, acts).hist.handed| - |s.hist.handed| <= |s.queue|
    decreases acts
  {
    hide Step, Enabled;
    if acts != [] {
      if Enabled(cfg, s, acts[0]) {
        StepOnlyDrains(cfg, s, acts[0]);
      }
      StoppedRunOnlyDrains(cfg, Next(cfg, s, acts[0]), acts[1..]);
    }
  }

  // ---- the worker drains and exits --------------------------------------------------------

  // The worker's way out with `n` events queued and no failing handler.
  function Drain(n: nat): seq<Action> { if n == 0 then [WorkerExits] else [Pop, Deliver(true)] + Drain(n - 1) }

  lemma RunTwo(cfg: Settings, s: Dispatcher, a: Action, b: Action, rest: seq<Action>)
    ensures RunFrom(cfg, s, [a, b] + rest) == RunFrom(cfg, Next(cfg, Next(cfg, s, a), b), rest)
  {
    var acts := [a, b] + rest;
    assert acts[1..] == [b] + rest && ([b] + rest)[1..] == rest;
    assert RunFrom(cfg, s, acts) == RunFrom(cfg, Next(cfg, s, a), [b] + rest);
  }

  lemma DrainOne(cfg: Settings, s: Dispatcher)
    requires s.stopping && s.worker && s.inflight.None? && s.queue != []
    ensures
      var d := Next(cfg, Next(cfg, s, Pop), Deliver(true));
      && d.stopping && d.worker && d.inflight.None? && d.queue == s.queue[1..]
      && d.hist.handed == s.hist.handed + [s.queue[0]]
      && d.hist.accepted == s.hist.accepted && d.producers == s.producers
  {
    hide Resolve, Mark;
    assert Next(cfg, s, Pop) == WakeOne(DoPop(s));
  }

  lemma {:induction false} DrainHandsEverything(cfg: Settings, s: Dispatcher)
    requires s.stopping && s.worker && s.inflight.None?
    ensures
      var d := RunFrom(cfg, s, Drain(|s.queue|));
      && d.hist.handed == s.hist.handed + s.queue
      && d.queue == [] && d.inflight.None? && !d.worker && d.stopping
      && d.hist.accepted == s.hist.accepted && d.producers == s.producers
    decreases |s.queue|
  {
    hide Next, RunFrom;
    if s.queue == [] {
      WorkerExitsIs(cfg, s);
    } else {
      DrainOne(cfg, s);
      RunTwo(cfg, s, Pop, Deliver(true), Drain(|s.queue| - 1));
      DrainHandsEverything(cfg, Next(cfg, Next(cfg, s, Pop), Deliver(true)));
      assert s.hist.handed + [s.queue[0]] + s.queue[1..] == s.hist.handed + s.queue;
    }
  }

  // ---- who waits for room -------------------------------------------------------------------------

  // Whoever waits is inside _enqueue, and a stopping dispatcher with a worker has
  // notified everybody.
  ghost predicate WaitingOk(s: Dispatcher) {
    && (forall t :: t in s.producers ==> t < |s.hist.place| && s.producers[t].ticket == t)
    && (forall t :: t in s.parked ==> t in s.producers)
    && (forall i, j :: 0 <= i < j < |s.parked| ==> s.parked[i] != s.parked[j])
    && (s.stopping && s.worker ==> s.parked == [])
  }

  lemma {:induction false} UnlistedKeeps(ts: seq<nat>, t: nat)
    requires forall i, j :: 0 <= i < j < |ts| ==> ts[i] != ts[j]
    ensures var us := Unlisted(ts, t); forall i, j :: 0 <= i < j < |us| ==> us[i] != us[j]
    ensures t !in Unlisted(ts, t) && forall u :: u in Unlisted(ts, t) ==> u in ts
    ensures t !in ts ==> Unlisted(ts, t) == ts
  {
    if ts != [] {
      UnlistedKeeps(ts[1..], t);
      assert ts[0] !in ts[1..];
    }
  }

  lemma TryKeepsWaiting(cfg: Settings, s: Dispatcher, t: nat)
    requires WaitingOk(s) && Enabled(cfg, s, Try(t))
    ensures WaitingOk(DoTry(cfg, s, s.producers[t]))
  {
    hide Resolve, Mark, FirstDroppable;
  }

  lemma StepKeepsWaiting(cfg: Settings, s: Dispatcher, a: Action)
    requires WaitingOk(s) && Enabled(cfg, s, a)
    ensures WaitingOk(Step(cfg, s, a))
  {
    hide Resolve, ResolveAll, Mark, MarkAll, OfResource, NotOfResource, DoTry, DoEmit, DoCancelProducer, WaitingOk;
    match a
    case Emit(e, i, w) => EmitKeepsWaiting(cfg, s, e, i, w);
    case Try(t) => TryKeepsWaiting(cfg, s, t);
    case CancelProducer(t) => CancelKeepsWaiting(cfg, s, t);
    case _ => NotifyingKeepsWaiting(s, Step(cfg, s, a));
  }

  lemma EmitKeepsWaiting(cfg: Settings, s: Dispatcher, e: Event, inlineContext: bool, byWorker: bool)
    requires WaitingOk(s)
    ensures WaitingOk(DoEmit(cfg, s, e, inlineContext, byWorker))
  {
  }

  lemma CancelKeepsWaiting(cfg: Settings, s: Dispatcher, t: nat)
    requires WaitingOk(s) && t in s.producers
    ensures WaitingOk(DoCancelProducer(cfg, s, t))
  {
    hide Unlisted, Mark, WaitingOk;
    var d := CancelInside(s, t).(parked := Unlisted(s.parked, t));
    LeavingKeepsWaiting(s, t);
    NotifyingKeepsWaiting(d, DoCancelProducer(cfg, s, t));
  }

  lemma LeavingKeepsWaiting(s: Dispatcher, t: nat)
    requires WaitingOk(s) && t in s.producers
    ensures WaitingOk(CancelInside(s, t).(parked := Unlisted(s.parked, t)))
  {
    UnlistedKeeps(s.parked, t);
    hide Unlisted, Mark;
  }

  // Nobody enters, and those who waited longest are notified, or all, or nobody.
  lemma NotifyingKeepsWaiting(s: Dispatcher, d: Dispatcher)
    requires WaitingOk(s) && d.producers == s.producers && |d.hist.place| == |s.hist.place|
    requires d.parked == s.parked || d.parked == [] || (s.parked != [] && d.parked == s.parked[1..])
    requires d.stopping && d.worker ==> d.parked == [] || (s.stopping && s.worker)
    ensures WaitingOk(d)
  {
  }

  lemma {:induction false} RunKeepsWaiting(cfg: Settings, s: Dispatcher, acts: seq<Action>)
    requires WaitingOk(s)
    ensures WaitingOk(RunFrom(cfg, s, acts))
    decreases acts
  {
    hide WaitingOk, Step, Enabled;
    if acts != [] {
      if Enabled(cfg, s, acts[0]) {
        StepKeepsWaiting(cfg, s, acts[0]);
      }
      RunKeepsWaiting(cfg, Next(cfg, s, acts[0]), acts[1..]);
    }
  }

  // ---- what a stop leaves behind ---------------------------------------------------------------

  // Futures belong to events that went through the queue, and whoever has not
  // been decided yet is still inside _enqueue.
  ghost predicate Tracked(s: Dispatcher) {
    && (forall t :: t in s.futures ==>
          t < |s.hist.place| && !s.hist.place[t].InlineMode? && !s.hist.place[t].Fallback?)
    && (forall t :: 0 <= t < |s.hist.place| && s.hist.place[t].Producing? ==> t in s.producers)
  }

  lemma ClearKeepsTracked(s: Dispatcher, items: seq<Item>, kept: seq<Item>, outcome: Future, p: Place)
    requires Tracked(s) && (p.WorkerCleared? || p.StopCleared? || p.ResourceCleared?)
    ensures Tracked(Clear(s, items, kept, outcome, p))
  {
    hide MarkAll, ResolveAll;
    MarkAllAt(s.hist.place, items, p, 0);
    var d := Clear(s, items, kept, outcome, p);
    forall t: nat | t < |s.hist.place|
      ensures d.hist.place[t] == s.hist.place[t] || d.hist.place[t] == p
    {
      MarkAllAt(s.hist.place, items, p, t);
    }
    SameKeys(s.futures, items, outcome);
  }

  lemma {:induction false} SameKeys(fs: map<nat, Future>, items: seq<Item>, outcome: Future)
    ensures ResolveAll(fs, items, outcome).Keys == fs.Keys
    decreases items
  {
    if items != [] {
      SameKeys(Resolve(fs, items[0], outcome), items[1..], outcome);
    }
  }

  lemma EmitKeepsTracked(cfg: Settings, s: Dispatcher, e: Event, inlineContext: bool, byWorker: bool)
    requires Tracked(s)
    ensures Tracked(DoEmit(cfg, s, e, inlineContext, byWorker))
  {
  }

  lemma TryKeepsTracked(cfg: Settings, s: Dispatcher, item: Item)
    requires Tracked(s)
    ensures Tracked(DoTry(cfg, s, item))
  {
    hide EventQueue.Decide;
    if !s.stopping {
      match EventQueue.Decide(s.queue, cfg.capacity, cfg.policy, item)
      case Evicted(k) => {
        assert Tracked(Evict(s, s.queue[k]));
        AcceptKeepsTracked(Evict(s, s.queue[k]), Without(s.queue, k), item);
      }
      case _ =>
    }
  }

  lemma AcceptKeepsTracked(s: Dispatcher, q: seq<Item>, item: Item)
    requires Tracked(s)
    ensures Tracked(Accept(s, q, item))
  {
  }

  lemma StepKeepsTracked(cfg: Settings, s: Dispatcher, a: Action)
    requires Tracked(s) && Enabled(cfg, s, a)
    ensures Tracked(Step(cfg, s, a))
  {
    hide DoEmit, DoTry, OfResource, NotOfResource, Clear, Tracked, Mark, Resolve;
    match a
    case Emit(e, i, w) => EmitKeepsTracked(cfg, s, e, i, w);
    case Try(t) => TryKeepsTracked(cfg, s, s.producers[t]);
    case CancelProducer(t) => MarkKeepsTracked(s, Step(cfg, s, a), t, Cancelled);
    case Pop => MarkKeepsTracked(s, Step(cfg, s, a), s.queue[0].ticket, InFlight);
    case Deliver(ok) =>
      ResolveKeepsKeys(s.futures, s.inflight.value);
      if ok {
        MarkKeepsTracked(s, DoDelivered(s), s.inflight.value.ticket, Delivered);
      } else {
        MarkKeepsTracked(s, Failed(s), s.inflight.value.ticket, DeliveryFailed);
        ClearKeepsTracked(Failed(s), s.queue, [], WorkerError, WorkerCleared);
      }
    case WorkerCancelled =>
      SameTracked(s, s.(worker := false));
      ClearKeepsTracked(s.(worker := false), s.queue, [], WorkerError, WorkerCleared);
    case StopClears =>
      ClearKeepsTracked(s, s.queue, [], DropError, StopCleared);
      SameTracked(Clear(s, s.queue, [], DropError, StopCleared), Step(cfg, s, a));
    case DropResource(r) =>
      var kept := NotOfResource(s.queue, r);
      ClearKeepsTracked(s, OfResource(s.queue, r), kept, DropError, ResourceCleared);
      SameTracked(Clear(s, OfResource(s.queue, r), kept, DropError, ResourceCleared), Step(cfg, s, a));
    case _ => SameTracked(s, Step(cfg, s, a));
  }

  lemma SameTracked(s: Dispatcher, d: Dispatcher)
    requires Tracked(s) && d.futures == s.futures && d.hist.place == s.hist.place && d.producers == s.producers
    ensures Tracked(d)
  {
  }

  lemma ResolveKeepsKeys(fs: map<nat, Future>, item: Item)
    ensures forall outcome :: Resolve(fs, item, outcome).Keys == fs.Keys
  {
  }

  // One event leaves its place, and its producer _enqueue if it was there.
  lemma MarkKeepsTracked(s: Dispatcher, d: Dispatcher, t: nat, p: Place)
    requires Tracked(s) && d.futures.Keys == s.futures.Keys && d.hist.place == Mark(s.hist.place, t, p)
    requires !p.InlineMode? && !p.Fallback? && !p.Producing?
    requires forall u :: u in s.producers && u != t ==> u in d.producers
    ensures Tracked(d)
  {
  }

  lemma {:induction false} RunKeepsTracked(cfg: Settings, s: Dispatcher, acts: seq<Action>)
    requires Tracked(s)
    ensures Tracked(RunFrom(cfg, s, acts))
    decreases acts
  {
    hide Tracked, Step, Enabled;
    if acts != [] {
      if Enabled(cfg, s, acts[0]) {
        StepKeepsTracked(cfg, s, acts[0]);
      }
      RunKeepsTracked(cfg, Next(cfg, s, acts[0]), acts[1..]);
    }
  }

  lemma {:induction false} NobodyAt(ps: seq<Place>, p: Place, t: nat)
    requires N(ps, p) == 0 && t < |ps|
    ensures ps[t] != p
  {
    if t < |ps| - 1 {
      NobodyAt(ps[..|ps| - 1], p, t);
    }
  }

  // The worker has left through the stop path and nothing restarted it.
  predicate Exited(s: Dispatcher) { s.stopping && !s.worker && s.queue == [] && s.inflight.None? }

  lemma StepStaysExited(cfg: Settings, s: Dispatcher, a: Action)
    requires Exited(s) && !a.Start? && Enabled(cfg, s, a)
    ensures Exited(Step(cfg, s, a))
  {
  }

  lemma {:induction false} RunStaysExited(cfg: Settings, s: Dispatcher, acts: seq<Action>)
    requires Exited(s) && NoStart(acts)
    ensures Exited(RunFrom(cfg, s, acts))
    decreases acts
  {
    hide Step, Enabled, Exited;
    if acts != [] {
      if Enabled(cfg, s, acts[0]) {
        StepStaysExited(cfg, s, acts[0]);
      }
      RunStaysExited(cfg, Next(cfg, s, acts[0]), acts[1..]);
    }
  }

  lemma {:induction false} RunConcat(cfg: Settings, s: Dispatcher, xs: seq<Action>, ys: seq<Action>)
    ensures RunFrom(cfg, s, xs + ys) == RunFrom(cfg, RunFrom(cfg, s, xs), ys)
    decreases xs
  {
    hide Step, Enabled;
    if xs == [] {
      assert xs + ys == ys;
    } else {
      assert (xs + ys)[0] == xs[0] && (xs + ys)[1..] == xs[1..] + ys;
      RunConcat(cfg, Next(cfg, s, xs[0]), xs[1..], ys);
    }
  }

  predicate Discarded(p: Place) {
    p.DroppedOldest? || p.StopCleared? || p.ResourceCleared? || p.WorkerCleared?
  }

  // Once the worker has exited: every accepted event was handed to the handler
  // unless it was discarded, and the only waiters without an outcome belong to
  // producers still inside _enqueue or cancelled there.
  lemma ExitSettlesEverything(cfg: Settings, before: seq<Action>, after: seq<Action>)
    requires Enabled(cfg, Run(cfg, before), WorkerExits) && NoStart(after)
    ensures
      var s := Run(cfg, before + [WorkerExits] + after);
      && Exited(s)
      && (forall x :: x in s.hist.accepted ==>
            x in s.hist.handed || (x.ticket < |s.hist.place| && Discarded(s.hist.place[x.ticket])))
      && (forall t :: t in s.futures && s.futures[t].Unresolved? ==>
            t in s.producers || (t < |s.hist.place| && s.hist.place[t].Cancelled?))
  {
    hide RunFrom, Step, Enabled, Inv, Tracked, Exited;
    var acts := before + [WorkerExits] + after;
    RunConcat(cfg, INITIAL, before + [WorkerExits], after);
    RunConcat(cfg, INITIAL, before, [WorkerExits]);
    WorkerExitsIs(cfg, Run(cfg, before));
    RunStaysExited(cfg, Run(cfg, before + [WorkerExits]), after);
    RunKeepsInv(cfg, acts);
    InitiallyTracked();
    RunKeepsTracked(cfg, INITIAL, acts);
    EmptyQueueSettles(cfg, Run(cfg, acts));
  }

  lemma InitiallyTracked()
    ensures Tracked(INITIAL)
  {
  }

  lemma WorkerExitsIs(cfg: Settings, s: Dispatcher)
    requires Enabled(cfg, s, WorkerExits)
    ensures s.stopping && s.worker
    ensures RunFrom(cfg, s, [WorkerExits]) == s.(worker := false) && Exited(s.(worker := false))
  {
    assert [WorkerExits][1..] == [];
  }

  lemma EmptyQueueSettles(cfg: Settings, s: Dispatcher)
    requires Inv(cfg, s) && Tracked(s) && Exited(s)
    ensures
      && (forall x :: x in s.hist.accepted ==>
            x in s.hist.handed || (x.ticket < |s.hist.place| && Discarded(s.hist.place[x.ticket])))
      && (forall t :: t in s.futures && s.futures[t].Unresolved? ==>
            t in s.producers || (t < |s.hist.place| && s.hist.place[t].Cancelled?))
  {
    hide CountsOk, PlacesOk, FuturesOk, Tracked, Kept;
    KeptLength(s.hist.accepted, s.hist.place);
    forall t | t in s.futures && s.futures[t].Unresolved?
      ensures t in s.producers || (t < |s.hist.place| && s.hist.place[t].Cancelled?)
    {
      EmptyQueueSettlesWaiter(cfg, s, t);
    }
  }

  lemma EmptyQueueSettlesWaiter(cfg: Settings, s: Dispatcher, t: nat)
    requires Inv(cfg, s) && Tracked(s) && Exited(s) && t in s.futures && s.futures[t].Unresolved?
    ensures t in s.producers || (t < |s.hist.place| && s.hist.place[t].Cancelled?)
  {
    hide N, OrderOk, PlacesOk;
    NobodyAt(s.hist.place, Queued, t);
    NobodyAt(s.hist.place, InFlight, t);
  }

  // The producers that stop() wakes all leave _enqueue, and their waiters learn it.
  function Retries(ts: seq<nat>): seq<Action> { if ts == [] then [] else [Try(ts[0])] + Retries(ts[1..]) }

  lemma {:induction false} WokenProducersLeave(cfg: Settings, s: Dispatcher, ts: seq<nat>)
    requires s.stopping && s.parked == [] && forall t :: t in s.producers ==> t in ts && s.producers[t].ticket == t
    ensures RunFrom(cfg, s, Retries(ts)).producers == map[]
    ensures Exited(s) ==> Exited(RunFrom(cfg, s, Retries(ts)))
    decreases ts
  {
    if ts != [] {
      assert Retries(ts)[0] == Try(ts[0]) && Retries(ts)[1..] == Retries(ts[1..]);
      WokenProducersLeave(cfg, Next(cfg, s, Try(ts[0])), ts[1..]);
    }
  }

  // After the worker's exit and the wake-up, no waiter is left pending unless its
  // own caller was cancelled while it was blocked.
  lemma StopLeavesNoWaiter(cfg: Settings, before: seq<Action>, ts: seq<nat>)
    requires Enabled(cfg, Run(cfg, before), WorkerExits)
    requires forall t :: t in Run(cfg, before).producers ==> t in ts
    ensures
      var s := Run(cfg, before + [WorkerExits] + Retries(ts));
      forall t :: t in s.futures && s.futures[t].Unresolved? ==>
        t < |s.hist.place| && s.hist.place[t].Cancelled?
  {
    AfterExit(cfg, before, ts);
    OnlyTries(ts);
    ExitSettlesEverything(cfg, before, Retries(ts));
  }

  lemma AfterExit(cfg: Settings, before: seq<Action>, ts: seq<nat>)
    requires Enabled(cfg, Run(cfg, before), WorkerExits)
    requires forall t :: t in Run(cfg, before).producers ==> t in ts
    ensures Run(cfg, before + [WorkerExits] + Retries(ts)).producers == map[]
  {
    var s0 := Run(cfg, before);
    RunKeepsWaiting(cfg, INITIAL, before);
    RunConcat(cfg, INITIAL, before + [WorkerExits], Retries(ts));
    RunConcat(cfg, INITIAL, before, [WorkerExits]);
    WorkerExitsIs(cfg, s0);
    hide RunFrom, Enabled;
    WokenProducersLeave(cfg, s0.(worker := false), ts);
  }

  lemma {:induction false} OnlyTries(ts: seq<nat>)
    ensures NoStart(Retries(ts))
  {
    if ts != [] {
      OnlyTries(ts[1..]);
    }
  }

  // ---- an event queued without a worker ---------------------------------------------------------

  // A queued barrier that no resource close removes stays where it is for as long
  // as there is no worker, whether or not stop() is called.
  predicate Marooned(s: Dispatcher, x: Item) {
    !s.worker && s.inflight.None? && x in s.queue && x.barrier && !x.bytes
  }

  lemma EvictingSparesBarriers(q: seq<Item>, k: nat, x: Item)
    requires k < |q| && !q[k].barrier && x in q && x.barrier
    ensures x in Without(q, k)
  {
    var i :| 0 <= i < |q| && q[i] == x;
    if i < k {
      assert Without(q, k)[i] == x;
    } else {
      assert Without(q, k)[i - 1] == x;
    }
  }

  lemma StepStaysMarooned(cfg: Settings, s: Dispatcher, a: Action, x: Item)
    requires Marooned(s, x) && !a.Start? && Enabled(cfg, s, a)
    ensures Marooned(Step(cfg, s, a), x)
  {
    hide Resolve, ResolveAll, Mark, MarkAll, OfResource, NotOfResource;
    match a
    case Try(t) => {
      if !s.stopping && Decide(s.queue, cfg.capacity, cfg.policy, s.producers[t]).Evicted? {
        EvictingSparesBarriers(s.queue, FirstDroppable(s.queue), x);
      }
    }
    case DropResource(r) => ResourceParts(s.queue, r);
    case _ =>
  }

  lemma {:induction false} WithoutWorkerNothingMoves(cfg: Settings, s: Dispatcher, acts: seq<Action>, x: Item)
    requires Inv(cfg, s) && Marooned(s, x) && NoStart(acts)
    ensures
      var d := RunFrom(cfg, s, acts);
      Marooned(d, x) && (x.ticket in d.futures ==> d.futures[x.ticket].Unresolved?)
    decreases acts
  {
    hide Step, Enabled, CountsOk, OrderOk;
    if acts == [] {
      var i :| 0 <= i < |s.queue| && s.queue[i] == x;
      assert ItemAt(s.hist, s.queue[i], Queued);
    } else {
      if Enabled(cfg, s, acts[0]) {
        StepKeepsInv(cfg, s, acts[0]);
        StepStaysMarooned(cfg, s, acts[0], x);
      }
      WithoutWorkerNothingMoves(cfg, Next(cfg, s, acts[0]), acts[1..], x);
    }
  }

  // ---- one producer's events arrive in emission order ----------------------------------------

  // `mine` are the tickets of one task, which awaits each emit before the next.
  ghost predicate Sequential(cfg: Settings, s: Dispatcher, acts: seq<Action>, mine: iset<nat>)
    decreases acts
  {
    acts == []
    || ((acts[0].Emit? && |s.hist.place| in mine ==> forall t :: t in s.producers ==> t !in mine)
        && Sequential(cfg, Next(cfg, s, acts[0]), acts[1..], mine))
  }

  ghost predicate Ascending(xs: seq<Item>, mine: iset<nat>) {
    forall i, j :: 0 <= i < j < |xs| && xs[i].ticket in mine && xs[j].ticket in mine ==> xs[i].ticket < xs[j].ticket
  }

  // Accepted in order, and whatever is still on its way is later.
  ghost predicate InOrder(s: Dispatcher, mine: iset<nat>) {
    && Ascending(s.hist.accepted, mine)
    && (forall t, u :: t in s.producers && u in s.producers && t in mine && u in mine ==> t == u)
    && (forall t, x :: t in s.producers && t in mine && x in s.hist.accepted && x.ticket in mine ==> x.ticket < t)
  }

  lemma EmitKeepsInOrder(cfg: Settings, s: Dispatcher, e: Event, inlineContext: bool, byWorker: bool, mine: iset<nat>)
    requires InOrder(s, mine) && OrderOk(s)
    requires |s.hist.place| in mine ==> forall t :: t in s.producers ==> t !in mine
    ensures InOrder(DoEmit(cfg, s, e, inlineContext, byWorker), mine)
  {
    hide Kept, Entered, Handed;
  }

  lemma TryKeepsInOrder(cfg: Settings, s: Dispatcher, item: Item, mine: iset<nat>)
    requires InOrder(s, mine) && item.ticket in s.producers
    ensures InOrder(DoTry(cfg, s, item), mine)
  {
    hide FirstDroppable, Resolve, Mark;
  }

  lemma {:induction false} RunKeepsInOrder(cfg: Settings, s: Dispatcher, acts: seq<Action>, mine: iset<nat>)
    requires Inv(cfg, s) && InOrder(s, mine) && Sequential(cfg, s, acts, mine)
    ensures InOrder(RunFrom(cfg, s, acts), mine)
    decreases acts
  {
    hide Step, Enabled, CountsOk, FuturesOk, InOrder;
    if acts != [] {
      if Enabled(cfg, s, acts[0]) {
        StepKeepsInv(cfg, s, acts[0]);
        StepKeepsInOrder(cfg, s, acts[0], mine);
      }
      RunKeepsInOrder(cfg, Next(cfg, s, acts[0]), acts[1..], mine);
    }
  }

  lemma StepKeepsInOrder(cfg: Settings, s: Dispatcher, a: Action, mine: iset<nat>)
    requires Inv(cfg, s) && InOrder(s, mine) && Enabled(cfg, s, a)
    requires a.Emit? && |s.hist.place| in mine ==> forall t :: t in s.producers ==> t !in mine
    ensures InOrder(Step(cfg, s, a), mine)
  {
    hide DoEmit, DoTry, Resolve, ResolveAll, Mark, MarkAll, OfResource, NotOfResource, CountsOk, FuturesOk,
      OrderOk, InOrder;
    match a
    case Emit(e, i, w) => EmitKeepsInOrder(cfg, s, e, i, w, mine);
    case Try(t) => {
      ProducerTicket(cfg, s, t);
      TryKeepsInOrder(cfg, s, s.producers[t], mine);
    }
    case _ => NobodyNewKeepsInOrder(s, Step(cfg, s, a), mine);
  }

  lemma NobodyNewKeepsInOrder(s: Dispatcher, d: Dispatcher, mine: iset<nat>)
    requires InOrder(s, mine) && d.hist.accepted == s.hist.accepted && forall t :: t in d.producers ==> t in s.producers
    ensures InOrder(d, mine)
  {
  }

  lemma {:induction false} SubsequenceAscends(xs: seq<Item>, ys: seq<Item>, mine: iset<nat>)
    requires Subsequence(xs, ys) && Ascending(ys, mine)
    ensures Ascending(xs, mine) && forall x :: x in xs ==> x in ys
    decreases ys
  {
    if xs != [] {
      var init, last := ys[..|ys| - 1], ys[|ys| - 1];
      if Subsequence(xs, init) {
        SubsequenceAscends(xs, init, mine);
      } else {
        var front := xs[..|xs| - 1];
        SubsequenceAscends(front, init, mine);
        assert xs == front + [last];
        forall i | 0 <= i < |front| && front[i].ticket in mine && last.ticket in mine
          ensures front[i].ticket < last.ticket
        {
          assert front[i] in init;
        }
      }
    }
  }

  // Whatever else runs: the events of one sequential producer are handed to the
  // handler in the order in which it emitted them.
  lemma ProducerOrderPreserved(cfg: Settings, acts: seq<Action>, mine: iset<nat>)
    requires Sequential(cfg, INITIAL, acts, mine)
    ensures var s := Run(cfg, acts); Ascending(s.hist.handed + s.queue, mine)
  {
    hide RunFrom, Inv, Step, Enabled;
    var s := Run(cfg, acts);
    InitialInv(cfg);
    RunKeepsInOrder(cfg, INITIAL, acts, mine);
    DeliveryFollowsAcceptance(cfg, acts);
    SubsequenceAscends(s.hist.handed + s.queue, s.hist.accepted, mine);
  }
}

// Events that reach the queue of a dispatcher whose worker is gone.
//
// A producer that was notified of room, but has not resumed when the worker dies,
// finds room and no stop in progress: it queues its event, and the queue has no worker.

module DispatcherMarooning {
  import opened Common
  import opened EventQueue
  import opened DispatcherSpec
  import opened DispatcherTheorems
  import opened DispatcherShutdown

  predicate Abandoned(s: Dispatcher) { !s.worker && s.inflight.None? && s.queue == [] }

  // Some run without a start() puts an event into the queue.
  ghost predicate CanMaroon(cfg: Settings, s: Dispatcher) {
    exists acts :: NoStart(acts) && RunFrom(cfg, s, acts).queue != []
  }

  // A producer can resume: it was notified, or the cancellation of one that waits
  // notifies the next.
  ghost predicate SomebodyResumes(cfg: Settings, s: Dispatcher) {
    (exists t :: t in s.producers && t !in s.parked) || (cfg.relays && |s.parked| > 1)
  }

  ghost predicate Exposed(cfg: Settings, s: Dispatcher) {
    !s.stopping && cfg.capacity > 0 && SomebodyResumes(cfg, s)
  }

  // ---- nobody can resume: the queue stays empty -----------------------------------------

  // Without a worker only a producer that is already inside _enqueue reaches the queue.
  lemma StaysUnexposed(cfg: Settings, s: Dispatcher, a: Action)
    requires WaitingOk(s) && Abandoned(s) && !Exposed(cfg, s) && Enabled(cfg, s, a) && !a.Start?
    ensures Abandoned(Step(cfg, s, a)) && !Exposed(cfg, Step(cfg, s, a))
  {
    hide Resolve, ResolveAll, Mark, MarkAll;
    if a.CancelProducer? && !SomebodyResumes(cfg, s) {
      CancellingWakesNobody(cfg, s, a.t);
    }
    if a.DropResource? {
      assert OfResource(s.queue, a.r) == [] && NotOfResource(s.queue, a.r) == [];
    }
  }

  lemma CancellingWakesNobody(cfg: Settings, s: Dispatcher, t: nat)
    requires WaitingOk(s) && !SomebodyResumes(cfg, s) && t in s.producers
    ensures !SomebodyResumes(cfg, DoCancelProducer(cfg, s, t))
  {
    hide Mark, Unlisted;
    assert t in s.parked;
    UnlistedRemoves(s.parked, t);
  }

  lemma {:induction false} UnlistedRemoves(ts: seq<nat>, t: nat)
    requires forall i, j :: 0 <= i < j < |ts| ==> ts[i] != ts[j]
    ensures forall u :: u in Unlisted(ts, t) <==> u in ts && u != t
    ensures |Unlisted(ts, t)| == |ts| - if t in ts then 1 else 0
  {
    if ts != [] {
      UnlistedRemoves(ts[1..], t);
      assert ts[0] !in ts[1..];
      assert t in ts <==> t == ts[0] || t in ts[1..];
    }
  }

  lemma {:induction false} RunStaysUnexposed(cfg: Settings, s: Dispatcher, acts: seq<Action>)
    requires WaitingOk(s) && Abandoned(s) && !Exposed(cfg, s) && NoStart(acts)
    ensures RunFrom(cfg, s, acts).queue == []
    decreases acts
  {
    hide Step, Enabled, WaitingOk, Exposed;
    if acts != [] {
      if Enabled(cfg, s, acts[0]) {
        StepKeepsWaiting(cfg, s, acts[0]);
        StaysUnexposed(cfg, s, acts[0]);
      }
      RunStaysUnexposed(cfg, Next(cfg, s, acts[0]), acts[1..]);
    }
  }

  // ---- somebody can resume ---------------------------------------------------------------

  lemma ResumingMaroons(cfg: Settings, s: Dispatcher, t: nat)
    requires Abandoned(s) && !s.stopping && cfg.capacity > 0 && t in s.producers && t !in s.parked
    ensures var d := Next(cfg, s, Try(t)); d.queue == [s.producers[t]] && !d.worker && d.inflight.None?
  {
    hide Mark, Resolve, FirstDroppable;
  }

  lemma CancellingWakesNext(cfg: Settings, s: Dispatcher)
    requires WaitingOk(s) && Abandoned(s) && !s.stopping && cfg.relays && |s.parked| > 1
    ensures
      var d := Next(cfg, s, CancelProducer(s.parked[0]));
      Abandoned(d) && !d.stopping && s.parked[1] in d.producers && s.parked[1] !in d.parked
  {
    var ts := s.parked;
    FirstUnlisted(ts);
    assert ts[0] in ts && ts[1] in ts;
    hide Mark, Unlisted;
  }

  lemma FirstUnlisted(ts: seq<nat>)
    requires |ts| > 1 && forall i, j :: 0 <= i < j < |ts| ==> ts[i] != ts[j]
    ensures Unlisted(ts, ts[0]) == ts[1..] && ts[1..][1..] == ts[2..] && ts[1] !in ts[2..] && ts[0] != ts[1]
  {
    assert ts[0] !in ts[1..];
    UnlistedKeeps(ts[1..], ts[0]);
  }

  lemma ExposedCanMaroon(cfg: Settings, s: Dispatcher)
    requires WaitingOk(s) && Abandoned(s) && Exposed(cfg, s)
    ensures CanMaroon(cfg, s)
  {
    hide Next, Enabled;
    if t :| t in s.producers && t !in s.parked {
      ResumingMaroons(cfg, s, t);
      var acts := [Try(t)];
      assert acts[1..] == [] && RunFrom(cfg, s, acts) == RunFrom(cfg, Next(cfg, s, Try(t)), []);
    } else {
      CancellingWakesNext(cfg, s);
      var first, t := CancelProducer(s.parked[0]), s.parked[1];
      ResumingMaroons(cfg, Next(cfg, s, first), t);
      RunTwo(cfg, s, first, Try(t), []);
      var acts := [first, Try(t)] + [];
      assert RunFrom(cfg, s, acts).queue != [];
    }
  }

  // In every reachable state without a worker: whether an event can still be queued
  // with nobody to deliver it.
  lemma MaroonsExactly(cfg: Settings, acts: seq<Action>)
    ensures var s := Run(cfg, acts); Abandoned(s) ==> (CanMaroon(cfg, s) <==> Exposed(cfg, s))
  {
    hide WaitingOk, Exposed, Abandoned;
    var s := Run(cfg, acts);
    assert WaitingOk(INITIAL) by { InitialWaiting(); }
    RunKeepsWaiting(cfg, INITIAL, acts);
    if Abandoned(s) {
      if Exposed(cfg, s) {
        ExposedCanMaroon(cfg, s);
      }
      if more :| NoStart(more) && RunFrom(cfg, s, more).queue != [] && !Exposed(cfg, s) {
        RunStaysUnexposed(cfg, s, more);
      }
    }
  }

  lemma InitialWaiting()
    ensures WaitingOk(INITIAL)
  {
  }

  // ---- the whole run -------------------------------------------------------------------------

  const BARRIER := Event(false, 0, true, true)

  function Barrier(t: nat): Item { Item(t, false, 0, true, true) }

  // A queue of one is full, a second producer waits; the worker takes the first event,
  // notifies, and dies of it before the second producer runs.
  const DYING: seq<Action> :=
    [Start, Emit(BARRIER, false, false)] + ([Try(0), Emit(BARRIER, false, false)] + ([Try(1), Pop] + [Deliver(false)]))

  lemma FirstQueued(cfg: Settings)
    requires !cfg.inline && cfg.capacity == 1
    ensures
      var d := RunFrom(cfg, INITIAL, [Start, Emit(BARRIER, false, false)] + [Try(0)]);
      && d.worker && !d.stopping && d.inflight.None? && d.queue == [Barrier(0)]
      && d.producers == map[] && d.parked == [] && |d.hist.place| == 1
  {
    hide Resolve;
    RunTwo(cfg, INITIAL, Start, Emit(BARRIER, false, false), [Try(0)]);
    var s1 := INITIAL.(worker := true);
    var s2 := DoEmit(cfg, s1, BARRIER, false, false);
    assert Next(cfg, s1, Emit(BARRIER, false, false)) == s2;
    assert [Try(0)][1..] == [];
    var d := Accept(s2, [], Barrier(0));
    assert Next(cfg, s2, Try(0)) == d;
    assert d.producers == map[];
  }

  lemma SecondParks(cfg: Settings, s: Dispatcher)
    requires !cfg.inline && cfg.capacity == 1
    requires s.worker && !s.stopping && s.inflight.None? && s.queue == [Barrier(0)] && s.producers == map[]
    requires s.parked == []
    requires |s.hist.place| == 1
    ensures
      var d := RunFrom(cfg, s, [Emit(BARRIER, false, false), Try(1)] + []);
      && d.worker && !d.stopping && d.inflight.None? && d.queue == [Barrier(0)]
      && d.producers == map[1 := Barrier(1)] && d.parked == [1]
  {
    hide Resolve, Mark;
    RunTwo(cfg, s, Emit(BARRIER, false, false), Try(1), []);
    var s1 := DoEmit(cfg, s, BARRIER, false, false);
    assert Next(cfg, s, Emit(BARRIER, false, false)) == s1;
    assert FirstDroppable(s.queue) == 1;
  }

  lemma WorkerDies(cfg: Settings, s: Dispatcher)
    requires s.worker && !s.stopping && s.inflight.None? && s.queue == [Barrier(0)]
    requires s.producers == map[1 := Barrier(1)] && s.parked == [1]
    ensures
      var d := RunFrom(cfg, s, [Pop, Deliver(false)] + []);
      Abandoned(d) && !d.stopping && d.producers == map[1 := Barrier(1)] && d.parked == []
  {
    hide Resolve, Mark, ResolveAll, MarkAll;
    RunTwo(cfg, s, Pop, Deliver(false), []);
    var s1 := WakeOne(DoPop(s));
    assert Next(cfg, s, Pop) == s1 && s1.queue == [];
  }

  // The notified producer queues its barrier after that; the stop that follows finds no
  // worker to wait for, and without a start() the event stays.
  lemma DyingWorkerMaroons(cfg: Settings)
    requires !cfg.inline && cfg.capacity == 1
    ensures var s := Run(cfg, DYING); Abandoned(s) && Exposed(cfg, s)
    ensures var d := Run(cfg, DYING + [Try(1), StopBegins]); Marooned(d, Barrier(1)) && d.stopping
  {
    hide Next, Enabled;
    var emit := Emit(BARRIER, false, false);
    var first, second, third := [Start, emit] + [Try(0)], [emit, Try(1)] + [], [Pop, Deliver(false)] + [];
    assert DYING == first + (second + third);
    RunConcat(cfg, INITIAL, first, second + third);
    FirstQueued(cfg);
    var s1 := RunFrom(cfg, INITIAL, first);
    RunConcat(cfg, s1, second, third);
    SecondParks(cfg, s1);
    WorkerDies(cfg, RunFrom(cfg, s1, second));
    var s := Run(cfg, DYING);
    assert 1 in s.producers && 1 !in s.parked;
    RunConcat(cfg, INITIAL, DYING, [Try(1), StopBegins]);
    assert [Try(1), StopBegins] == [Try(1), StopBegins] + [];
    RunTwo(cfg, s, Try(1), StopBegins, []);
    ResumingMaroons(cfg, s, 1);
    StoppingKeeps(cfg, Next(cfg, s, Try(1)));
  }

  lemma StoppingKeeps(cfg: Settings, s: Dispatcher)
    requires !s.worker
    ensures Next(cfg, s, StopBegins) == s.(stopping := true)
  {
  }
}

// The stop() calls of a datagram receiver: which of them can still be completed, exactly
// when one waits for ever for its close event, which of them lose their STOPPING event,
// and what a stop() finds when it returns.

module DatagramStops {
  import opened Common
  import L = Lifecycle
  import opened DatagramSpec
  import opened DatagramProofs
  import opened DatagramTheorems

  // ---- runs -----------------------------------------------------------------------

  lemma RunCons(r: Receiver, a: Action, rest: seq<Action>)
    ensures RunFrom(r, [a] + rest) == RunFrom(Next(r, a), rest)
  {
    assert ([a] + rest)[1..] == rest;
  }

  lemma {:induction false} RunConcat(r: Receiver, xs: seq<Action>, ys: seq<Action>)
    ensures RunFrom(r, xs + ys) == RunFrom(RunFrom(r, xs), ys)
    decreases xs
  {
    hide Next;
    if xs == [] {
      assert xs + ys == ys;
    } else {
      assert (xs + ys)[0] == xs[0] && (xs + ys)[1..] == xs[1..] + ys;
      RunConcat(Next(r, xs[0]), xs[1..], ys);
    }
  }

  lemma RunFour(r: Receiver, a: Action, b: Action, c: Action, d: Action)
    ensures RunFrom(r, [a, b, c, d]) == Next(Next(Next(Next(r, a), b), c), d)
  {
    assert [a, b, c, d][1..] == [b, c, d] && [b, c, d][1..] == [c, d] && [c, d][1..] == [d] && [d][1..] == [];
    var r1 := Next(r, a);
    assert RunFrom(r, [a, b, c, d]) == RunFrom(r1, [b, c, d]);
    assert RunFrom(r1, [b, c, d]) == RunFrom(Next(r1, b), [c, d]);
    assert RunFrom(Next(Next(r1, b), c), [d]) == Next(Next(Next(r1, b), c), d);
  }

  lemma RunTwo(r: Receiver, a: Action, b: Action)
    ensures RunFrom(r, [a, b]) == Next(Next(r, a), b)
  {
    assert [a, b][1..] == [b] && [b][1..] == [];
    assert RunFrom(r, [a, b]) == RunFrom(Next(r, a), [b]);
  }

  lemma RunOne(r: Receiver, a: Action)
    ensures RunFrom(r, [a]) == Next(r, a)
  {
    assert [a][1..] == [];
  }

  // ---- what one enabled action does ----------------------------------------------------------

  lemma StartBeginsIs(r: Receiver)
    requires r.track.state.Stopped?
    ensures Next(r, StartBegins) == DoStartBegins(r)
  {
    hide DoStartBegins;
  }

  lemma StartingDeliveredIs(r: Receiver, ok: bool)
    requires r.starters.starting > 0
    ensures Next(r, StartingDelivered(ok)) == DoStartingDelivered(r, ok)
  {
    hide DoStartingDelivered;
  }

  lemma RunningEmittedIs(r: Receiver, id: nat, ok: bool)
    requires IsAt(r, id, Announcing)
    ensures Next(r, RunningEmitted(id, ok)) == DoRunningEmitted(r, id, ok)
  {
    hide DoRunningEmitted;
  }

  lemma OpenedHandledIs(r: Receiver, id: nat, ok: bool)
    requires IsAt(r, id, Delivering)
    ensures Next(r, OpenedHandled(id, ok)) == DoOpenedHandled(r, id, ok)
  {
    hide DoOpenedHandled;
  }

  lemma StarterLooksIs(r: Receiver, id: nat, ok: bool)
    requires IsAt(r, id, Looking) || IsAt(r, id, Failing)
    ensures Next(r, StarterLooks(id, ok)) == DoStarterLooks(r, id, ok)
  {
    hide DoStarterLooks;
  }

  lemma StopIs(r: Receiver, deferred: bool, sparesTask: bool)
    requires r.owner.NoOwner? && !FullyStopped(r)
    ensures Next(r, Stop(deferred, sparesTask)) == DoStop(r, deferred, sparesTask)
  {
    hide DoStop;
  }

  lemma StopAnnouncesIs(r: Receiver, ok: bool)
    requires r.owner.Owner? && r.owner.phase.Announce?
    ensures Next(r, StopAnnounces(ok)) == DoStopAnnounces(r, ok)
  {
    hide DoStopAnnounces;
  }

  lemma StopTearsDownIs(r: Receiver, outcome: Torn)
    requires r.owner.Owner? && r.owner.phase.Teardown? && (outcome.TornDown? || r.owner.plan.awaits)
    ensures Next(r, StopTearsDown(outcome)) == DoStopTearsDown(r, outcome)
  {
    hide DoStopTearsDown;
  }

  lemma StopClosesIs(r: Receiver, handlerActive: bool, ok: bool)
    requires r.owner.Owner? && r.owner.phase.Close? && (r.opening.Some? ==> NobodyLooking(r))
    ensures Next(r, StopCloses(handlerActive, ok)) == DoStopCloses(r, handlerActive, ok)
  {
    hide DoStopCloses;
  }

  lemma StopFinishesIs(r: Receiver)
    requires r.owner.Owner? && r.owner.phase.Finish?
    ensures Next(r, StopFinishes) == DoStopFinishes(r)
  {
    hide DoStopFinishes;
  }

  // ---- every ordinary stop can end ---------------------------------------------------

  const FINISH := [StopFinishes, StopEnds]

  lemma FinishEnds(r: Receiver)
    requires Inv(r) && r.owner.Owner? && r.owner.phase.Finish?
    ensures
      var d := RunFrom(r, FINISH);
      d.track.state.Stopped? && d.owner.NoOwner? && d.closed == r.closed && d.leaked == r.leaked
  {
    RunTwo(r, StopFinishes, StopEnds);
    hide SocketsOk, L.IsPath;
  }

  lemma CloseEnds(r: Receiver, published: bool)
    requires Inv(r) && r.owner.Owner? && r.owner.phase.Close? && r.opening.None?
    ensures
      var d := RunFrom(r, [StopCloses(false, published)] + FINISH);
      d.track.state.Stopped? && d.owner.NoOwner? && d.closed == r.closed && d.leaked == r.leaked
  {
    hide Inv, RunFrom, Next;
    StopClosesIs(r, false, published);
    ClosingKeepsInv(r, false, published);
    RunCons(r, StopCloses(false, published), FINISH);
    FinishEnds(DoStopCloses(r, false, published));
  }

  function Rest(closes: bool, published: bool): seq<Action> {
    (if closes then [StopCloses(false, published)] else []) + FINISH
  }

  lemma TeardownEnds(r: Receiver, outcome: Torn, published: bool)
    requires Inv(r) && r.owner.Owner? && !r.owner.deferred && r.owner.phase.Teardown? && r.opening.None?
    requires outcome.TornDown? || r.owner.plan.awaits
    ensures
      var d := RunFrom(r, [StopTearsDown(outcome)] + Rest(outcome.TornDown? && !r.owner.plan.failed, published));
      && d.track.state.Stopped? && d.owner.NoOwner?
      && (r.owner.plan.sock.Some? ==>
            if outcome.TaskRaised? then r.owner.plan.sock.value in d.leaked else r.owner.plan.sock.value in d.closed)
  {
    hide Inv, RunFrom, Next;
    StopTearsDownIs(r, outcome);
    TeardownKeepsInv(r, outcome);
    var closes := outcome.TornDown? && !r.owner.plan.failed;
    RunCons(r, StopTearsDown(outcome), Rest(closes, published));
    if closes {
      CloseEnds(DoStopTearsDown(r, outcome), published);
    } else {
      assert Rest(closes, published) == FINISH;
      FinishEnds(DoStopTearsDown(r, outcome));
    }
  }

  lemma AnnouncedStop(r: Receiver, sparesTask: bool, announced: bool)
    requires Inv(r) && r.owner.NoOwner? && !FullyStopped(r)
    ensures
      var d := Next(Next(r, Stop(false, sparesTask)), StopAnnounces(announced));
      && Inv(d) && d.owner.Owner? && !d.owner.deferred && d.owner.phase.Teardown? && d.opening == r.opening
      && d.owner.plan.sock == r.rt.sock && d.owner.plan.awaits == (r.rt.task.Some? && !sparesTask)
      && d.owner.plan.failed == !announced
  {
    StopKeepsInv(r, false, sparesTask);
    StopIs(r, false, sparesTask);
    var r1 := DoStop(r, false, sparesTask);
    hide Inv, Next;
    AnnouncingKeepsInv(r1, announced);
    StopAnnouncesIs(r1, announced);
  }

  // A stop() call with no active handler and no opened event under way runs to its
  // end, whatever fails on the way.  The socket it found is closed, unless the receive
  // task that it awaited ended with its own exception: then it leaks.
  lemma OrdinaryStopEnds(r: Receiver, sparesTask: bool, announced: bool, outcome: Torn, published: bool)
    requires Inv(r) && r.owner.NoOwner? && !FullyStopped(r) && r.opening.None?
    requires outcome.TornDown? || (r.rt.task.Some? && !sparesTask)
    ensures
      var acts := [Stop(false, sparesTask), StopAnnounces(announced)]
                  + ([StopTearsDown(outcome)] + Rest(outcome.TornDown? && announced, published));
      var d := RunFrom(r, acts);
      && d.track.state.Stopped? && d.owner.NoOwner?
      && (r.rt.sock.Some? ==> if outcome.TaskRaised? then r.rt.sock.value in d.leaked else r.rt.sock.value in d.closed)
  {
    hide Inv, RunFrom, Next, Rest;
    AnnouncedStop(r, sparesTask, announced);
    var asks := [Stop(false, sparesTask), StopAnnounces(announced)];
    RunConcat(r, asks, [StopTearsDown(outcome)] + Rest(outcome.TornDown? && announced, published));
    RunTwo(r, Stop(false, sparesTask), StopAnnounces(announced));
    TeardownEnds(RunFrom(r, asks), outcome, published);
  }

  // ---- a stop that waits for its close event ---------------------------------------------

  predicate WillLook(g: Stage) { g.Delivering? || g.Looking? || g.Failing? }

  // Somebody will still look for a deferred close event.
  ghost predicate SomebodyLooks(r: Receiver) {
    r.publisher || exists id :: id in r.starters.at && WillLook(r.starters.at[id])
  }

  ghost predicate Stalled(r: Receiver) { CloseDeferred(r) && !SomebodyLooks(r) }

  lemma StaysStalled(r: Receiver, a: Action)
    requires Inv(r) && Stalled(r) && Enabled(r, a)
    ensures Stalled(Step(r, a))
  {
    hide SocketsOk, L.IsPath;
    var d := Step(r, a);
    assert forall id :: id in d.starters.at && WillLook(d.starters.at[id]) ==>
      id in r.starters.at && WillLook(r.starters.at[id]);
  }

  lemma {:induction false} RunStaysStalled(r: Receiver, acts: seq<Action>)
    requires Inv(r) && Stalled(r)
    ensures Stalled(RunFrom(r, acts))
    decreases acts
  {
    hide Inv, Stalled, Step, Enabled;
    if acts != [] {
      if Enabled(r, acts[0]) {
        StepKeepsInv(r, acts[0]);
        StaysStalled(r, acts[0]);
      }
      RunStaysStalled(Next(r, acts[0]), acts[1..]);
    }
  }

  // The owner leaves its close event to a start() call that has looked already.
  ghost predicate StallsOn(r: Receiver, a: Action) {
    a.StopCloses? && Enabled(r, a) && r.owner.plan.closes && r.opening.Some? && !SomebodyLooks(r)
  }

  lemma StallsExactly(r: Receiver, a: Action)
    requires Inv(r) && !Stalled(r) && Enabled(r, a)
    ensures Stalled(Step(r, a)) <==> StallsOn(r, a)
  {
    hide SocketsOk, L.IsPath, AttachedOk;
    var d := Step(r, a);
    if a.StopCloses? {
      assert d.starters == r.starters;
    } else if CloseDeferred(r) && CloseDeferred(d) {
      StillLooks(r, a);
    }
  }

  lemma StillLooks(r: Receiver, a: Action)
    requires Inv(r) && Enabled(r, a) && CloseDeferred(r) && CloseDeferred(Step(r, a)) && SomebodyLooks(r)
    ensures SomebodyLooks(Step(r, a))
  {
    hide SocketsOk, L.IsPath, AttachedOk;
    var d := Step(r, a);
    if !r.publisher {
      var id :| id in r.starters.at && WillLook(r.starters.at[id]);
      assert id in d.starters.at && WillLook(d.starters.at[id]);
    }
  }

  ghost predicate StallsAt(r: Receiver, acts: seq<Action>, i: int) {
    0 <= i < |acts| && StallsOn(RunFrom(r, acts[..i]), acts[i])
  }

  lemma {:induction false} StalledSince(r: Receiver, acts: seq<Action>)
    requires Inv(r) && !Stalled(r) && Stalled(RunFrom(r, acts))
    ensures exists i :: StallsAt(r, acts, i)
    decreases acts
  {
    hide Inv, Stalled, Enabled, Step, StallsOn;
    if acts != [] {
      var d := Next(r, acts[0]);
      if Enabled(r, acts[0]) {
        StepKeepsInv(r, acts[0]);
        StallsExactly(r, acts[0]);
      }
      if Stalled(d) {
        assert acts[..0] == [];
        assert StallsAt(r, acts, 0);
      } else {
        StalledSince(d, acts[1..]);
        var i :| StallsAt(d, acts[1..], i);
        assert acts[..i + 1][0] == acts[0] && acts[..i + 1][1..] == acts[1..][..i];
        assert StallsAt(r, acts, i + 1);
      }
    }
  }

  lemma StallsForGood(r: Receiver, a: Action, more: seq<Action>)
    requires Inv(r) && StallsOn(r, a)
    ensures Stalled(RunFrom(r, [a] + more))
  {
    hide Inv, RunFrom, SomebodyLooks;
    assert !CloseDeferred(r);
    StallsExactly(r, a);
    hide Step, Enabled, CloseDeferred, StallsOn;
    StepKeepsInv(r, a);
    RunCons(r, a, more);
    RunStaysStalled(Step(r, a), more);
  }

  lemma StalledAfter(r: Receiver, acts: seq<Action>, i: int)
    requires Inv(r) && StallsAt(r, acts, i)
    ensures Stalled(RunFrom(r, acts))
  {
    hide Inv, RunFrom, StallsOn, Stalled;
    RunFromKeepsInv(r, acts[..i]);
    assert acts == acts[..i] + ([acts[i]] + acts[i + 1..]);
    RunConcat(r, acts[..i], [acts[i]] + acts[i + 1..]);
    StallsForGood(RunFrom(r, acts[..i]), acts[i], acts[i + 1..]);
  }

  // Over all runs: a stop waits for ever exactly if it once found the slot of the
  // opened event taken and nobody left to look.
  lemma WaitsForEverExactly(acts: seq<Action>)
    ensures Stalled(Run(acts)) <==> exists i :: StallsAt(INITIAL, acts, i)
  {
    hide RunFrom, StallsOn, SomebodyLooks;
    if Stalled(Run(acts)) {
      StalledSince(INITIAL, acts);
    }
    if i :| StallsAt(INITIAL, acts, i) {
      StalledAfter(INITIAL, acts, i);
    }
  }

  // ---- which stops can still be completed ------------------------------------------------

  // A call holds the slot only from its opened event to its end.
  ghost predicate SlotOk(r: Receiver) {
    && (forall id :: id in r.starters.at ==> id < r.nextSock)
    && (r.opening.Some? ==>
          var id := r.opening.value;
          id in r.starters.at && (IsAt(r, id, Delivering) || IsAt(r, id, Failing) || IsAt(r, id, Clearing)))
  }

  lemma DeliveredKeepsSlot(r: Receiver, socketOk: bool)
    requires SlotOk(r) && r.starters.starting > 0
    ensures SlotOk(DoStartingDelivered(r, socketOk))
  {
  }

  lemma CallKeepsSlot(r: Receiver, a: Action)
    requires SlotOk(r) && Enabled(r, a)
    requires (a.RunningEmitted? || a.OpenedHandled? || a.OpeningCleared? || a.ReceiverStarts?)
    ensures SlotOk(Step(r, a))
  {
  }

  lemma LookingKeepsSlot(r: Receiver, a: Action)
    requires SlotOk(r) && Enabled(r, a) && (a.StarterLooks? || a.PublisherLooks?)
    ensures SlotOk(Step(r, a))
  {
    hide Looked, CloseDeferred;
    LookingMoves(r, a.ok);
  }

  lemma StepKeepsSlot(r: Receiver, a: Action)
    requires SlotOk(r) && Enabled(r, a)
    ensures SlotOk(Step(r, a))
  {
    match a
    case StartingDelivered(socketOk) => {
      hide SlotOk, DoStartingDelivered;
      DeliveredKeepsSlot(r, socketOk);
    }
    case RunningEmitted(_, _) => {
      hide SlotOk, Step, Enabled;
      CallKeepsSlot(r, a);
    }
    case OpenedHandled(_, _) => {
      hide SlotOk, Step, Enabled;
      CallKeepsSlot(r, a);
    }
    case OpeningCleared(_) => {
      hide SlotOk, Step, Enabled;
      CallKeepsSlot(r, a);
    }
    case ReceiverStarts(_) => {
      hide SlotOk, Step, Enabled;
      CallKeepsSlot(r, a);
    }
    case StarterLooks(_, _) => {
      hide SlotOk, Step, Enabled;
      LookingKeepsSlot(r, a);
    }
    case PublisherLooks(_) => {
      hide SlotOk, Step, Enabled;
      LookingKeepsSlot(r, a);
    }
    case _ => {
      hide IsAt;
      var d := Step(r, a);
      assert d.starters.at == r.starters.at && d.opening == r.opening && d.nextSock == r.nextSock;
    }
  }

  lemma {:induction false} RunKeepsSlot(r: Receiver, acts: seq<Action>)
    requires SlotOk(r)
    ensures SlotOk(RunFrom(r, acts))
    decreases acts
  {
    hide SlotOk, Step, Enabled;
    if acts != [] {
      if Enabled(r, acts[0]) {
        StepKeepsSlot(r, acts[0]);
      }
      RunKeepsSlot(Next(r, acts[0]), acts[1..]);
    }
  }

  // Some continuation completes the stop: its owner is gone, and STOPPED was applied.  An
  // owner that gives up leaves STOPPING behind.
  ghost predicate Completes(r: Receiver, acts: seq<Action>) {
    var d := RunFrom(r, acts);
    d.owner.NoOwner? && !d.track.state.Stopping?
  }

  ghost predicate CanComplete(r: Receiver) { exists acts :: Completes(r, acts) }

  lemma NextCompletes(r: Receiver, a: Action)
    requires CanComplete(Next(r, a))
    ensures CanComplete(r)
  {
    hide Next, RunFrom;
    var acts :| Completes(Next(r, a), acts);
    RunCons(r, a, acts);
    assert Completes(r, [a] + acts);
  }

  lemma EndingCompletes(r: Receiver)
    requires Inv(r) && r.owner.Owner? && r.owner.phase.Ending?
    ensures CanComplete(r)
  {
    hide L.IsPath, SocketsOk;
    var d := Next(r, StopEnds);
    assert Completes(d, []);
    NextCompletes(r, StopEnds);
  }

  lemma FinishCompletes(r: Receiver)
    requires Inv(r) && r.owner.Owner? && r.owner.phase.Finish?
    ensures CanComplete(r)
  {
    hide Inv, Next, CanComplete;
    StopFinishesIs(r);
    FinishingKeepsInv(r);
    EndingCompletes(DoStopFinishes(r));
    NextCompletes(r, StopFinishes);
  }

  lemma FreeCloseCompletes(r: Receiver)
    requires Inv(r) && r.owner.Owner? && r.owner.phase.Close? && r.opening.None?
    ensures CanComplete(r)
  {
    hide Inv, Next, CanComplete;
    StopClosesIs(r, false, true);
    ClosingKeepsInv(r, false, true);
    FinishCompletes(DoStopCloses(r, false, true));
    NextCompletes(r, StopCloses(false, true));
  }

  // The call that holds the slot goes on until it is empty.
  lemma CloseCompletes(r: Receiver)
    requires Inv(r) && SlotOk(r) && r.owner.Owner? && r.owner.phase.Close?
    ensures CanComplete(r)
    decreases if r.opening.None? then 0 else if IsAt(r, r.opening.value, Failing) then 2 else 1
  {
    if r.opening.None? {
      FreeCloseCompletes(r);
    } else {
      var id := r.opening.value;
      var a := if IsAt(r, id, Delivering) then OpenedHandled(id, true)
               else if IsAt(r, id, Failing) then StarterLooks(id, true)
               else OpeningCleared(id);
      StepKeepsInv(r, a);
      StepKeepsSlot(r, a);
      hide Inv, SlotOk, CanComplete;
      CloseCompletes(Step(r, a));
      NextCompletes(r, a);
    }
  }

  lemma AnnounceCompletes(r: Receiver)
    requires Inv(r) && SlotOk(r) && r.owner.Owner? && r.owner.phase.Announce? && r.owner.deferred
    ensures CanComplete(r)
  {
    hide Inv, SlotOk, CanComplete, Next;
    StopAnnouncesIs(r, true);
    StepKeepsSlot(r, StopAnnounces(true));
    AnnouncingKeepsInv(r, true);
    CloseCompletes(DoStopAnnounces(r, true));
    NextCompletes(r, StopAnnounces(true));
  }

  lemma BypassCompletes(r: Receiver)
    requires Inv(r) && SlotOk(r) && r.owner.Owner? && (r.owner.phase.Bypass? || r.owner.phase.Unwind?)
    ensures CanComplete(r)
    decreases r.owner.phase.Bypass?
  {
    var a := if r.owner.phase.Bypass? then StopBypasses(true) else HandlersUnwind;
    StepKeepsInv(r, a);
    StepKeepsSlot(r, a);
    hide L.IsPath, SocketsOk, AttachedOk, SlotOk, CanComplete;
    if a.StopBypasses? {
      BypassCompletes(Step(r, a));
    } else {
      AnnounceCompletes(Step(r, a));
    }
    NextCompletes(r, a);
  }

  lemma TeardownCompletes(r: Receiver)
    requires Inv(r) && SlotOk(r) && r.owner.Owner? && r.owner.phase.Teardown?
    ensures CanComplete(r)
  {
    hide Inv, SlotOk, CanComplete, Next;
    StopTearsDownIs(r, TornDown);
    StepKeepsSlot(r, StopTearsDown(TornDown));
    TeardownKeepsInv(r, TornDown);
    var d := DoStopTearsDown(r, TornDown);
    if r.owner.deferred {
      BypassCompletes(d);
    } else if d.owner.phase.Close? {
      CloseCompletes(d);
    } else {
      FinishCompletes(d);
    }
    NextCompletes(r, StopTearsDown(TornDown));
  }

  lemma OrdinaryAnnounceCompletes(r: Receiver)
    requires Inv(r) && SlotOk(r) && r.owner.Owner? && r.owner.phase.Announce? && !r.owner.deferred
    ensures CanComplete(r)
  {
    hide Inv, SlotOk, CanComplete, Next;
    StopAnnouncesIs(r, true);
    StepKeepsSlot(r, StopAnnounces(true));
    AnnouncingKeepsInv(r, true);
    TeardownCompletes(DoStopAnnounces(r, true));
    NextCompletes(r, StopAnnounces(true));
  }

  // Whoever looks publishes the deferred close event and tells the owner.
  lemma LookerCompletes(r: Receiver, a: Action)
    requires Inv(r) && CloseDeferred(r) && Enabled(r, a) && (a.StarterLooks? || a.PublisherLooks?)
    ensures CanComplete(r)
  {
    LookingIs(r, a);
    hide Inv, CanComplete, Step, Enabled;
    StepKeepsInv(r, a);
    FinishCompletes(Step(r, a));
    NextCompletes(r, a);
  }

  lemma AwaitCloseCompletes(r: Receiver)
    requires Inv(r) && CloseDeferred(r) && SomebodyLooks(r)
    ensures CanComplete(r)
  {
    hide Inv, CanComplete;
    if r.publisher {
      LookerCompletes(r, PublisherLooks(true));
    } else {
      var id :| id in r.starters.at && WillLook(r.starters.at[id]);
      if r.starters.at[id].Delivering? {
        var a := OpenedHandled(id, false);
        StepKeepsInv(r, a);
        LookerCompletes(Step(r, a), StarterLooks(id, true));
        NextCompletes(r, a);
      } else {
        LookerCompletes(r, StarterLooks(id, true));
      }
    }
  }

  lemma CompletesUnlessStalled(r: Receiver)
    requires Inv(r) && SlotOk(r) && r.owner.Owner? && !Stalled(r)
    ensures CanComplete(r)
  {
    hide Inv, SlotOk, SomebodyLooks, CanComplete;
    match r.owner.phase
    case Announce => if r.owner.deferred { AnnounceCompletes(r); } else { OrdinaryAnnounceCompletes(r); }
    case Teardown => TeardownCompletes(r);
    case Close => CloseCompletes(r);
    case AwaitClose => AwaitCloseCompletes(r);
    case Finish => FinishCompletes(r);
    case Ending => EndingCompletes(r);
    case _ => BypassCompletes(r);
  }

  // In every reachable state, whatever has failed on the way: a stop under way can still be
  // completed, with STOPPED applied, exactly if it does not wait for a close event that
  // nobody will publish.
  lemma StopCompletesExactly(acts: seq<Action>)
    requires Run(acts).owner.Owner?
    ensures CanComplete(Run(acts)) <==> !Stalled(Run(acts))
  {
    var r := Run(acts);
    RunFromKeepsInv(INITIAL, acts);
    RunKeepsSlot(INITIAL, acts);
    hide Inv, SlotOk, SomebodyLooks, RunFrom;
    if Stalled(r) {
      forall more
        ensures !Completes(r, more)
      {
        RunStaysStalled(r, more);
      }
    } else {
      CompletesUnlessStalled(r);
    }
  }

  // ---- STOPPING events that are lost ---------------------------------------------------------

  function Stoppings(log: seq<Event>): nat {
    if log == [] then 0
    else Stoppings(log[..|log| - 1]) + if EventRank(log[|log| - 1]) == 3 then 1 else 0
  }

  lemma StoppingsSnoc(log: seq<Event>, e: Event)
    ensures Stoppings(log + [e]) == Stoppings(log) + if EventRank(e) == 3 then 1 else 0
  {
    assert (log + [e])[..|log|] == log;
  }

  // The owner still has its STOPPING event to publish.
  function ToAnnounce(r: Receiver): nat { if Unannounced(r.owner) && r.owner.plan.stopping.Some? then 1 else 0 }

  // A handler-side stop gives up before it has announced itself: its teardown fails, or
  // the dispatcher does not stop.
  predicate GivesUp(r: Receiver, a: Action) {
    && Enabled(r, a) && r.owner.Owner? && r.owner.deferred && r.owner.plan.stopping.Some?
    && ((a.StopTearsDown? && !a.outcome.TornDown?) || a == StopBypasses(false))
  }

  function GivenUp(r: Receiver, acts: seq<Action>): nat
    decreases acts
  {
    if acts == [] then 0 else (if GivesUp(r, acts[0]) then 1 else 0) + GivenUp(Next(r, acts[0]), acts[1..])
  }

  function Applied(r: Receiver): nat { L.Count(r.track.applied, L.Stopping) }

  predicate Accounts(r: Receiver, d: Receiver, lost: nat) {
    Applied(d) - Applied(r) == Stoppings(d.log) - Stoppings(r.log) + ToAnnounce(d) - ToAnnounce(r) + lost
  }

  lemma StartingHasNoOwner(r: Receiver)
    requires Inv(r) && r.track.state.Starting?
    ensures r.owner.NoOwner? || r.owner.phase.Ending?
  {
  }

  lemma StartAccounts(r: Receiver, a: Action)
    requires Enabled(r, a) && (a.StartBegins? || a.StartingDelivered? || a.StartingFails?)
    requires r.track.state.Starting? ==> r.owner.NoOwner? || r.owner.phase.Ending?
    ensures Accounts(r, Step(r, a), 0)
  {
    hide L.Count, Stoppings;
    var target := if a.StartBegins? then L.Starting
                  else if a.StartingDelivered? && a.socketOk then L.Running
                  else L.Stopped;
    L.CountApply(r.track, target, L.Stopping);
    StoppingsSnoc(r.log, Life(L.Transition(r.track.state, target)));
  }

  lemma OpeningAccounts(r: Receiver, a: Action)
    requires Enabled(r, a) && (a.OpenedHandled? || a.OpeningCleared? || a.ReceiverStarts?)
    ensures Accounts(r, Step(r, a), 0)
  {
    var d := Step(r, a);
    assert d.track == r.track && d.log == r.log && d.owner == r.owner;
    hide Applied, Stoppings, ToAnnounce, Step, Enabled;
  }

  lemma OpenedAccounts(r: Receiver, id: nat, ok: bool)
    ensures Accounts(r, DoRunningEmitted(r, id, ok), 0)
  {
    StoppingsSnoc(r.log, Opened(id));
    hide L.Count, Stoppings;
  }

  lemma CallsDoNotCount(r: Receiver, d: Receiver, e: Receiver)
    requires Accounts(r, d, 0) && e.track == d.track && e.log == d.log && e.owner == d.owner
    ensures Accounts(r, e, 0)
  {
  }

  lemma LookedAccounts(r: Receiver, ok: bool)
    ensures Accounts(r, Looked(r, ok), 0)
  {
    hide L.Count, Stoppings;
    if CloseDeferred(r) {
      StoppingsSnoc(r.log, ClosedEvent(r.owner.plan.previous));
      assert ToAnnounce(r) == 0 && ToAnnounce(Looked(r, ok)) == 0;
    }
  }

  lemma LookingAccounts(r: Receiver, a: Action)
    requires Enabled(r, a) && (a.StarterLooks? || a.PublisherLooks?)
    ensures Accounts(r, Step(r, a), 0)
  {
    LookedAccounts(r, a.ok);
    hide Looked, Accounts, Step, Enabled;
    LookingIs(r, a);
    CallsDoNotCount(r, Looked(r, a.ok), Step(r, a));
  }

  lemma StopAccounts(r: Receiver, deferred: bool, sparesTask: bool)
    requires Inv(r) && Enabled(r, Stop(deferred, sparesTask))
    ensures Accounts(r, DoStop(r, deferred, sparesTask), 0)
  {
    L.CountApply(r.track, L.Stopping, L.Stopping);
    hide SocketsOk, L.IsPath, L.Count, Stoppings;
  }

  lemma OwnerAccounts(r: Receiver, a: Action)
    requires Inv(r) && Enabled(r, a)
    requires a.StopTearsDown? || a.StopBypasses? || a.HandlersUnwind? || a.StopEnds?
    ensures Accounts(r, Step(r, a), if GivesUp(r, a) then 1 else 0)
  {
    hide SocketsOk, L.IsPath, L.Count, Stoppings;
  }

  lemma AnnouncingAccounts(r: Receiver, ok: bool)
    requires PlanRank(r) && Enabled(r, StopAnnounces(ok))
    ensures Accounts(r, DoStopAnnounces(r, ok), 0)
  {
    hide L.Count, Stoppings;
    if r.owner.plan.stopping.Some? {
      StoppingsSnoc(r.log, Life(r.owner.plan.stopping.value));
    }
  }

  lemma ClosingAccounts(r: Receiver, handlerActive: bool, ok: bool)
    requires Enabled(r, StopCloses(handlerActive, ok))
    ensures Accounts(r, DoStopCloses(r, handlerActive, ok), 0)
  {
    hide L.Count, Stoppings;
    StoppingsSnoc(r.log, ClosedEvent(r.owner.plan.previous));
  }

  lemma FinishingAccounts(r: Receiver)
    requires Enabled(r, StopFinishes)
    ensures Accounts(r, DoStopFinishes(r), 0)
  {
    hide L.Count, Stoppings;
    L.CountApply(r.track, L.Stopped, L.Stopping);
    StoppingsSnoc(r.log, Life(L.Transition(r.track.state, L.Stopped)));
  }

  lemma StepAccounts(r: Receiver, a: Action)
    requires Inv(r) && PlanRank(r) && Enabled(r, a)
    ensures Accounts(r, Step(r, a), if GivesUp(r, a) then 1 else 0)
  {
    hide Inv, Accounts, PlanRank, DoRunningEmitted, DoStop, DoStopAnnounces, DoStopCloses, DoStopFinishes;
    if r.track.state.Starting? {
      StartingHasNoOwner(r);
    }
    match a
    case StartBegins => StartAccounts(r, a);
    case StartingDelivered(_) => StartAccounts(r, a);
    case StartingFails => StartAccounts(r, a);
    case RunningEmitted(id, ok) => OpenedAccounts(r, id, ok);
    case OpenedHandled(_, _) => OpeningAccounts(r, a);
    case OpeningCleared(_) => OpeningAccounts(r, a);
    case ReceiverStarts(_) => OpeningAccounts(r, a);
    case StarterLooks(_, _) => LookingAccounts(r, a);
    case PublisherLooks(_) => LookingAccounts(r, a);
    case Stop(deferred, sparesTask) => StopAccounts(r, deferred, sparesTask);
    case StopTearsDown(_) => OwnerAccounts(r, a);
    case StopBypasses(_) => OwnerAccounts(r, a);
    case HandlersUnwind => OwnerAccounts(r, a);
    case StopEnds => OwnerAccounts(r, a);
    case StopAnnounces(ok) => AnnouncingAccounts(r, ok);
    case StopCloses(handlerActive, ok) => ClosingAccounts(r, handlerActive, ok);
    case StopFinishes => FinishingAccounts(r);
  }

  lemma {:induction false} RunAccounts(r: Receiver, acts: seq<Action>)
    requires Inv(r) && OrderInv(r)
    ensures Accounts(r, RunFrom(r, acts), GivenUp(r, acts))
    decreases acts
  {
    hide Inv, Step, Enabled, InOrder, Bound, LastRank, PlanRank, Applied, Stoppings, ToAnnounce;
    if acts != [] {
      if Enabled(r, acts[0]) {
        StepKeepsInv(r, acts[0]);
        StepKeepsOrder(r, acts[0]);
        StepAccounts(r, acts[0]);
      }
      RunAccounts(Next(r, acts[0]), acts[1..]);
    }
  }

  // Over all runs: the STOPPING transitions that were applied are those that were
  // published, the one whose owner has it still before it, and one for each stop that
  // gave up.  So STOPPING is lost exactly by the stops that give up.
  lemma StoppingLostExactly(acts: seq<Action>)
    ensures var r := Run(acts); Applied(r) == Stoppings(r.log) + ToAnnounce(r) + GivenUp(INITIAL, acts)
  {
    RunAccounts(INITIAL, acts);
    hide RunFrom, GivenUp;
  }

  // ---- what a stop() finds when it returns -------------------------------------------------------

  // Everybody who awaits a stop returns when its owner releases the waiter.  STOPPED is
  // applied before that, and a start() need not wait for it.
  predicate ReturnsActive(r: Receiver) { r.owner.Owner? && r.owner.phase.Ending? && L.Active(r.track.state) }

  // A new life begins while a stop call still holds its waiter.
  predicate Restarts(r: Receiver, a: Action) { a.StartBegins? && Enabled(r, a) && r.owner.Owner? }

  ghost predicate Patient(r: Receiver, acts: seq<Action>)
    decreases acts
  {
    acts == [] || (!Restarts(r, acts[0]) && Patient(Next(r, acts[0]), acts[1..]))
  }

  predicate Quieted(r: Receiver) { r.owner.Owner? ==> !L.Active(r.track.state) }

  lemma StepStaysQuieted(r: Receiver, a: Action)
    requires Inv(r) && Quieted(r) && Enabled(r, a)
    ensures Quieted(Step(r, a)) <==> !Restarts(r, a)
  {
    hide L.IsPath, SocketsOk;
  }

  lemma {:induction false} RunStaysQuieted(r: Receiver, acts: seq<Action>)
    requires Inv(r) && Quieted(r) && Patient(r, acts)
    ensures Inv(RunFrom(r, acts)) && Quieted(RunFrom(r, acts))
    decreases acts
  {
    hide Inv, Quieted, Step, Enabled, Restarts;
    if acts != [] {
      if Enabled(r, acts[0]) {
        StepKeepsInv(r, acts[0]);
        StepStaysQuieted(r, acts[0]);
      }
      RunStaysQuieted(Next(r, acts[0]), acts[1..]);
    }
  }

  // Some continuation without a further such beginning lets a stop() return on an active
  // receiver.
  ghost predicate CanReturnActive(r: Receiver) { exists acts :: Patient(r, acts) && ReturnsActive(RunFrom(r, acts)) }

  lemma QuietedCannotReturnActive(r: Receiver)
    requires Inv(r) && Quieted(r)
    ensures !CanReturnActive(r)
  {
    hide Inv, RunFrom, Patient;
    forall acts | Patient(r, acts)
      ensures !ReturnsActive(RunFrom(r, acts))
    {
      RunStaysQuieted(r, acts);
    }
  }

  lemma RestartReturnsActive(r: Receiver)
    requires Inv(r) && Restarts(r, StartBegins)
    ensures CanReturnActive(Step(r, StartBegins))
  {
    hide SocketsOk, L.IsPath;
    var d := Step(r, StartBegins);
    assert Patient(d, []) && ReturnsActive(RunFrom(d, []));
  }

  // After any run in which no life began beside a stop's waiter: an action makes it
  // possible that a stop() returns on an active receiver exactly if it begins such a life.
  lemma ReturnsActiveExactly(before: seq<Action>, a: Action)
    requires Patient(INITIAL, before)
    ensures CanReturnActive(Next(Run(before), a)) <==> Restarts(Run(before), a)
  {
    var r := Run(before);
    RunStaysQuieted(INITIAL, before);
    hide Inv, Quieted, RunFrom, Patient, CanReturnActive, Step, Enabled;
    if Restarts(r, a) {
      RestartReturnsActive(r);
    } else {
      if Enabled(r, a) {
        StepKeepsInv(r, a);
        StepStaysQuieted(r, a);
      }
      QuietedCannotReturnActive(Next(r, a));
    }
  }

  ghost predicate RestartsAt(acts: seq<Action>, i: int) {
    0 <= i < |acts| && Restarts(Run(acts[..i]), acts[i])
  }

  lemma {:induction false} RestartedSomewhere(r: Receiver, acts: seq<Action>) returns (i: nat)
    requires !Patient(r, acts)
    ensures i < |acts| && Restarts(RunFrom(r, acts[..i]), acts[i])
    decreases acts
  {
    hide Restarts, Next;
    if Restarts(r, acts[0]) {
      i := 0;
      assert acts[..0] == [];
    } else {
      var k := RestartedSomewhere(Next(r, acts[0]), acts[1..]);
      i := k + 1;
      assert acts[..k + 1][0] == acts[0] && acts[..k + 1][1..] == acts[1..][..k];
    }
  }

  // Over all runs: whoever awaited a stop finds the receiver inactive when the waiter is
  // released, unless a life began beside a stop's waiter.
  lemma ReturnedStopMeansInactive(acts: seq<Action>)
    ensures ReturnsActive(Run(acts)) ==> exists i :: RestartsAt(acts, i)
  {
    hide RunFrom, Restarts;
    if Patient(INITIAL, acts) {
      hide Patient;
      RunStaysQuieted(INITIAL, acts);
      hide Inv;
    } else {
      var i := RestartedSomewhere(INITIAL, acts);
      assert RestartsAt(acts, i);
    }
  }
}

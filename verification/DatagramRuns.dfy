// Where a datagram receiver does less than it promises: concrete runs, and the exact
// guard under which a close event overtakes the opened handler.

module DatagramRuns {
  import opened Common
  import L = Lifecycle
  import opened DatagramSpec
  import opened DatagramProofs
  import opened DatagramTheorems
  import opened DatagramStops

  // ---- a close event before the opened handler has ended ----------------------------------

  ghost predicate NoneDelivering(r: Receiver) { forall id: nat :: !IsAt(r, id, Delivering) }

  // The close event was published, and the opened handler of the connection still runs.
  ghost predicate Behind(r: Receiver) { Parse(r.log).Last? && !NoneDelivering(r) }

  // The handler-side publisher of an earlier life finds the deferred close event of the
  // present one, whose opened handler it does not wait for.
  ghost predicate Overtakes(r: Receiver, a: Action) {
    a.PublisherLooks? && r.publisher && CloseDeferred(r) && !NoneDelivering(r)
  }

  // The opened handler that runs is the slot's own, a start() call that is about to look
  // belongs to it, and none runs once the close event was published.
  ghost predicate DeliveryOk(r: Receiver, p: Place) {
    && (forall id: nat :: IsAt(r, id, Delivering) ==> r.opening == Some(id))
    && (forall id: nat :: !IsAt(r, id, Failing))
    && (CloseDeferred(r) && r.opening.Some? ==> NobodyLooking(r))
    && (p.Idle? || p.Begun? || p.Up? || p.Rolling? || p.Last? ==> NoneDelivering(r))
  }

  ghost predicate SettledInv(r: Receiver) { Inv(r) && CleanInv(r) && DeliveryOk(r, Parse(r.log)) }

  // Nobody begins to deliver, fails or is about to look.
  ghost predicate NobodyNew(r: Receiver, d: Receiver) {
    && (forall id: nat :: IsAt(d, id, Delivering) ==> IsAt(r, id, Delivering))
    && (forall id: nat :: IsAt(d, id, Failing) ==> IsAt(r, id, Failing))
    && (forall id: nat :: IsAt(d, id, Looking) ==> IsAt(r, id, Looking))
  }

  // Without a further call at one of those stages the slot decides.
  lemma SameSlotStaysSettled(r: Receiver, d: Receiver)
    requires DeliveryOk(r, Parse(r.log)) && NobodyNew(r, d) && d.opening == r.opening
    requires CloseDeferred(d) ==> CloseDeferred(r) || d.opening.None? || NobodyLooking(d)
    requires var q := Parse(d.log); q.Idle? || q.Begun? || q.Up? || q.Rolling? || q.Last? ==> NoneDelivering(d)
    ensures DeliveryOk(d, Parse(d.log))
  {
    hide Parse, CloseDeferred;
  }

  lemma BeginningStaysSettled(r: Receiver)
    requires SettledInv(r) && Enabled(r, StartBegins)
    ensures var d := DoStartBegins(r); DeliveryOk(d, Parse(d.log))
  {
    hide Parse, SocketsOk, L.IsPath;
    ParseSnoc(r.log, Life(L.Transition(r.track.state, L.Starting)));
    assert NobodyNew(r, DoStartBegins(r));
    SameSlotStaysSettled(r, DoStartBegins(r));
  }

  lemma StartStaysSettled(r: Receiver, socketOk: bool)
    requires SettledInv(r) && Enabled(r, StartingDelivered(socketOk))
    ensures var d := DoStartingDelivered(r, socketOk); DeliveryOk(d, Parse(d.log))
  {
    hide Parse, SocketsOk, L.IsPath;
    ParseSnoc(r.log, Life(L.Transition(r.track.state, L.Running)));
    ParseSnoc(r.log, Life(L.Transition(r.track.state, L.Stopped)));
    var d := DoStartingDelivered(r, socketOk);
    assert NobodyNew(r, d);
    assert !CloseDeferred(d) || CloseDeferred(r);
    hide IsAt;
    SameSlotStaysSettled(r, d);
  }

  lemma AnnouncingStaysSettled(r: Receiver, id: nat)
    requires SettledInv(r) && IsAt(r, id, Announcing)
    ensures var d := DoRunningEmitted(r, id, true); DeliveryOk(d, Parse(d.log))
  {
    hide Parse, SocketsOk, L.IsPath;
    ParseSnoc(r.log, Opened(id));
    var d := DoRunningEmitted(r, id, true);
    if StillMine(r, id) {
      assert !CloseDeferred(r);
      assert forall k: nat :: IsAt(d, k, Delivering) ==> k == id || IsAt(r, k, Delivering);
      assert forall k: nat :: IsAt(d, k, Failing) ==> IsAt(r, k, Failing);
    } else {
      assert NobodyNew(r, d);
      SameSlotStaysSettled(r, d);
    }
  }

  lemma HandledStaysSettled(r: Receiver, id: nat)
    requires SettledInv(r) && IsAt(r, id, Delivering)
    ensures var d := DoOpenedHandled(r, id, true); DeliveryOk(d, Parse(d.log))
  {
    hide Parse, SocketsOk, L.IsPath, CleanInv, OwnerOk;
    var d := DoOpenedHandled(r, id, true);
    assert d.opening.None?;
    assert forall k: nat :: IsAt(d, k, Delivering) ==> IsAt(r, k, Delivering) && k != id;
    assert forall k: nat :: IsAt(d, k, Failing) ==> IsAt(r, k, Failing);
  }

  lemma LeavingStaysSettled(r: Receiver, a: Action)
    requires SettledInv(r) && Enabled(r, a) && (a.OpeningCleared? || a.ReceiverStarts?)
    ensures DeliveryOk(Step(r, a), Parse(Step(r, a).log))
  {
    hide Parse, SocketsOk, L.IsPath, CleanInv, OwnerOk;
    var d := Step(r, a);
    assert NobodyNew(r, d);
    assert forall id: nat :: IsAt(d, id, Delivering) ==> r.opening == Some(id) && (a.OpeningCleared? ==> id != a.id);
    if d.opening == r.opening {
      SameSlotStaysSettled(r, d);
    }
  }

  lemma LookingStaysSettled(r: Receiver, a: Action)
    requires SettledInv(r) && Enabled(r, a) && Clean(a) && (a.StarterLooks? || a.PublisherLooks?)
    ensures Overtakes(r, a) || DeliveryOk(Step(r, a), Parse(Step(r, a).log))
    ensures Overtakes(r, a) ==> Behind(Step(r, a))
  {
    hide Parse, SocketsOk, L.IsPath;
    var d := Step(r, a);
    assert NobodyNew(r, d) && (forall id: nat :: IsAt(r, id, Delivering) ==> IsAt(d, id, Delivering));
    if CloseDeferred(r) {
      ParseSnoc(r.log, ClosedEvent(r.owner.plan.previous));
      assert a.StarterLooks? ==> IsAt(r, a.id, Looking) && a.id in r.starters.at;
      assert a.StarterLooks? ==> r.opening.None?;
    }
    hide IsAt;
    if !Overtakes(r, a) {
      SameSlotStaysSettled(r, d);
    }
  }

  lemma StoppingStaysSettled(r: Receiver, a: Action)
    requires SettledInv(r) && Enabled(r, a) && Clean(a) && (a.StopAnnounces? || a.StopCloses? || a.StopFinishes?)
    ensures DeliveryOk(Step(r, a), Parse(Step(r, a).log))
  {
    hide Parse, SocketsOk, L.IsPath;
    if a.StopAnnounces? {
      ParseSnoc(r.log, Life(r.owner.plan.stopping.value));
    }
    ParseSnoc(r.log, ClosedEvent(r.owner.plan.previous));
    ParseSnoc(r.log, Life(L.Transition(L.Stopping, L.Stopped)));
    var d := Step(r, a);
    assert NobodyNew(r, d) && (NobodyLooking(r) ==> NobodyLooking(d));
    hide IsAt, NobodyLooking;
    SameSlotStaysSettled(r, d);
  }

  lemma OtherStaysSettled(r: Receiver, a: Action)
    requires SettledInv(r) && Enabled(r, a) && Clean(a)
    requires a.Stop? || a.StopTearsDown? || a.StopBypasses? || a.HandlersUnwind? || a.StopEnds?
    ensures DeliveryOk(Step(r, a), Parse(Step(r, a).log))
  {
    hide Parse, SocketsOk, L.IsPath;
    var d := Step(r, a);
    assert NobodyNew(r, d);
    hide IsAt;
    SameSlotStaysSettled(r, d);
  }

  lemma BeginningIs(r: Receiver)
    requires SettledInv(r) && Enabled(r, StartBegins)
    ensures var d := Step(r, StartBegins); DeliveryOk(d, Parse(d.log))
  {
    hide SettledInv, DeliveryOk, DoStartBegins;
    BeginningStaysSettled(r);
  }

  lemma StartIs(r: Receiver, socketOk: bool)
    requires SettledInv(r) && Enabled(r, StartingDelivered(socketOk))
    ensures var d := Step(r, StartingDelivered(socketOk)); DeliveryOk(d, Parse(d.log))
  {
    hide SettledInv, DeliveryOk, DoStartingDelivered;
    StartStaysSettled(r, socketOk);
  }

  lemma AnnouncingIs(r: Receiver, id: nat)
    requires SettledInv(r) && Enabled(r, RunningEmitted(id, true))
    ensures var d := Step(r, RunningEmitted(id, true)); DeliveryOk(d, Parse(d.log))
  {
    hide SettledInv, DeliveryOk, DoRunningEmitted;
    AnnouncingStaysSettled(r, id);
  }

  lemma HandledIs(r: Receiver, id: nat)
    requires SettledInv(r) && Enabled(r, OpenedHandled(id, true))
    ensures var d := Step(r, OpenedHandled(id, true)); DeliveryOk(d, Parse(d.log))
  {
    hide SettledInv, DeliveryOk, DoOpenedHandled;
    HandledStaysSettled(r, id);
  }

  lemma StepStaysSettled(r: Receiver, a: Action)
    requires SettledInv(r) && Enabled(r, a) && Clean(a)
    ensures !Overtakes(r, a) ==> SettledInv(Step(r, a))
    ensures Overtakes(r, a) ==> Behind(Step(r, a))
  {
    StepKeepsInv(r, a);
    StepStaysClean(r, a);
    hide Inv, CleanInv, DeliveryOk, Step, Enabled, Behind, NoneDelivering;
    match a
    case StartBegins => BeginningIs(r);
    case StartingDelivered(socketOk) => StartIs(r, socketOk);
    case RunningEmitted(id, _) => AnnouncingIs(r, id);
    case OpenedHandled(id, _) => HandledIs(r, id);
    case OpeningCleared(_) => LeavingStaysSettled(r, a);
    case ReceiverStarts(_) => LeavingStaysSettled(r, a);
    case StarterLooks(_, _) => LookingStaysSettled(r, a);
    case PublisherLooks(_) => LookingStaysSettled(r, a);
    case StopAnnounces(_) => StoppingStaysSettled(r, a);
    case StopCloses(_, _) => StoppingStaysSettled(r, a);
    case StopFinishes => StoppingStaysSettled(r, a);
    case _ => OtherStaysSettled(r, a);
  }

  ghost predicate Undisturbed(r: Receiver, acts: seq<Action>)
    decreases acts
  {
    acts == [] || (!Overtakes(r, acts[0]) && Undisturbed(Next(r, acts[0]), acts[1..]))
  }

  lemma {:induction false} RunStaysSettled(r: Receiver, acts: seq<Action>)
    requires SettledInv(r) && Undisturbed(r, acts) && forall a :: a in acts ==> Clean(a)
    ensures SettledInv(RunFrom(r, acts))
    decreases acts
  {
    hide SettledInv, Step, Enabled, Overtakes;
    if acts != [] {
      if Enabled(r, acts[0]) {
        StepStaysSettled(r, acts[0]);
      }
      RunStaysSettled(Next(r, acts[0]), acts[1..]);
    }
  }

  lemma SettledIsNotBehind(r: Receiver)
    requires SettledInv(r)
    ensures !Behind(r)
  {
  }

  // Without publication errors: the close event of a connection overtakes its opened
  // handler exactly if the publisher of an earlier life finds it.
  lemma CloseOvertakesExactly(before: seq<Action>, a: Action)
    requires (forall b :: b in before ==> Clean(b)) && Clean(a) && Undisturbed(INITIAL, before)
    ensures Behind(Next(Run(before), a)) <==> Overtakes(Run(before), a)
  {
    var r := Run(before);
    assert SettledInv(INITIAL);
    RunStaysSettled(INITIAL, before);
    hide SettledInv, Behind, Step, RunFrom, Undisturbed;
    if Enabled(r, a) {
      StepStaysSettled(r, a);
      if !Overtakes(r, a) {
        SettledIsNotBehind(Step(r, a));
      }
    } else {
      SettledIsNotBehind(r);
    }
  }

  // An ordinary stop of a running receiver up to its close event.
  lemma StopsUpToClose(r: Receiver)
    requires r.owner.NoOwner? && r.track.state.Running?
    ensures
      var d := Next(Next(Next(r, Stop(false, false)), StopAnnounces(true)), StopTearsDown(TornDown));
      && d.owner.Owner? && d.owner.phase.Close? && d.owner.plan.closes && d.owner.plan.toStopped
      && d.track.state.Stopping? && d.starters == r.starters && d.opening == r.opening
      && d.publisher == r.publisher && d.nextSock == r.nextSock
  {
    StopIs(r, false, false);
    hide Next;
    var r1 := DoStop(r, false, false);
    StopAnnouncesIs(r1, true);
    var r2 := DoStopAnnounces(r1, true);
    assert r2.track == r1.track && r2.starters == r.starters && r2.opening == r.opening && r2.publisher == r.publisher;
    assert r2.owner.Owner? && r2.owner.phase.Teardown? && r2.owner.plan == r1.owner.plan;
    hide DoStop, DoStopAnnounces;
    StopTearsDownIs(r2, TornDown);
  }

  // ---- runs from the start -------------------------------------------------------------------

  const STARTED := [StartBegins, StartingDelivered(true), RunningEmitted(0, true), OpenedHandled(0, true)]
  const RECEIVING := [StarterLooks(0, true), ReceiverStarts(0)]

  const PATH := [L.Transition(L.Stopped, L.Starting), L.Transition(L.Starting, L.Running)]
  const OPENED_LOG := [Life(L.Transition(L.Stopped, L.Starting)), Life(L.Transition(L.Starting, L.Running)), Opened(0)]

  const DELIVERING :=
    Receiver(L.Track(L.Running, PATH), Runtime(true, Some(0), None, Connected), NoOwner,
             Starters(0, map[0 := Delivering]), Some(0), false, 1, OPENED_LOG, [], [])
  const LOOKING := DELIVERING.(starters := Starters(0, map[0 := Looking]), opening := None)
  const UP := LOOKING.(starters := Starters(0, map[]), rt := Runtime(true, Some(0), Some(0), Connected))

  lemma StartsRunning()
    ensures
      var r2 := Next(Next(INITIAL, StartBegins), StartingDelivered(true));
      r2 == DELIVERING.(starters := Starters(0, map[0 := Announcing]), opening := None, log := OPENED_LOG[..2])
  {
    StartBeginsIs(INITIAL);
    hide Next;
    var r1 := DoStartBegins(INITIAL);
    assert r1.track == L.Track(L.Starting, [PATH[0]]) && r1.log == [OPENED_LOG[0]];
    StartingDeliveredIs(r1, true);
    var r2 := Next(r1, StartingDelivered(true));
    assert r2.track == L.Track(L.Running, PATH) && r2.log == OPENED_LOG[..2] && r2.starters.at == map[0 := Announcing];
  }

  lemma StartsDelivering()
    ensures Next(Next(Next(INITIAL, StartBegins), StartingDelivered(true)), RunningEmitted(0, true)) == DELIVERING
  {
    hide Next;
    StartsRunning();
    var r2 := Next(Next(INITIAL, StartBegins), StartingDelivered(true));
    RunningEmittedIs(r2, 0, true);
    assert r2.starters.at[0 := Delivering] == map[0 := Delivering];
    assert r2.log + [Opened(0)] == OPENED_LOG;
  }

  lemma Starts()
    ensures RunFrom(INITIAL, STARTED) == LOOKING
  {
    RunFour(INITIAL, StartBegins, StartingDelivered(true), RunningEmitted(0, true), OpenedHandled(0, true));
    hide Next, RunFrom;
    StartsDelivering();
    OpenedHandledIs(DELIVERING, 0, true);
    assert DELIVERING.starters.at[0 := Looking] == map[0 := Looking];
  }

  lemma Receives()
    ensures Run(STARTED + RECEIVING) == UP
  {
    Starts();
    RunConcat(INITIAL, STARTED, RECEIVING);
    RunTwo(LOOKING, StarterLooks(0, true), ReceiverStarts(0));
    hide RunFrom;
    Attaches();
  }

  lemma Attaches()
    ensures Next(Next(LOOKING, StarterLooks(0, true)), ReceiverStarts(0)) == UP
  {
    StarterLooksIs(LOOKING, 0, true);
    assert LOOKING.starters.at[0 := Attaching] == map[0 := Attaching];
    var r1 := LOOKING.(starters := Starters(0, map[0 := Attaching]));
    assert DoStarterLooks(LOOKING, 0, true) == r1;
    assert map[0 := Attaching] - {0} == map[];
    hide DoStarterLooks;
    assert Next(r1, ReceiverStarts(0)) == DoReceiverStarts(r1, 0);
  }

  // The receive task ends with its own exception while an ordinary stop awaits it: the
  // receiver reaches STOPPED, and its socket is never closed.
  const LEAKING := [Stop(false, false), StopAnnounces(true), StopTearsDown(TaskRaised), StopFinishes]

  lemma SocketLeaks()
    ensures
      var d := Run(STARTED + RECEIVING + LEAKING);
      d.track.state.Stopped? && d.leaked == [0] && d.closed == []
  {
    Receives();
    RunConcat(INITIAL, STARTED + RECEIVING, LEAKING);
    hide RunFrom;
    RunFour(UP, Stop(false, false), StopAnnounces(true), StopTearsDown(TaskRaised), StopFinishes);
    hide Next;
    StopIs(UP, false, false);
    var r1 := DoStop(UP, false, false);
    StopAnnouncesIs(r1, true);
    var r2 := DoStopAnnounces(r1, true);
    StopTearsDownIs(r2, TaskRaised);
    StopFinishesIs(DoStopTearsDown(r2, TaskRaised));
  }

  // ---- a stop that gives up ------------------------------------------------------------------

  const RETRY := [Stop(false, false), StopAnnounces(true), StopTearsDown(TornDown), StopCloses(false, true)]

  // Whoever gave up leaves the lifecycle at STOPPING and its STOPPING event
  // unpublished.  A later stop brings the receiver to its close event, but STOPPING is
  // never published, and the close event reports CLOSED instead of the state the
  // connection had.
  lemma GivingUpLosesStopping(r: Receiver, a: Action)
    requires Inv(r) && GivesUp(r, a) && r.opening.None?
    ensures
      var gone := Next(r, a);
      var d := RunFrom(gone, RETRY);
      && gone.owner.NoOwner? && gone.track.state.Stopping? && gone.log == r.log
      && d.owner.Owner? && d.owner.phase.Finish? && d.log == r.log + [ClosedEvent(Closed)]
  {
    var gone := Step(r, a);
    StepKeepsInv(r, a);
    assert gone.track.state.Stopping? && gone.rt.sock.None? && gone.opening.None?;
    Retries(gone);
  }

  lemma Retries(gone: Receiver)
    requires Inv(gone) && gone.owner.NoOwner? && gone.track.state.Stopping? && gone.opening.None?
    ensures
      var d := RunFrom(gone, RETRY);
      d.owner.Owner? && d.owner.phase.Finish? && d.log == gone.log + [ClosedEvent(Closed)]
  {
    RunFour(gone, Stop(false, false), StopAnnounces(true), StopTearsDown(TornDown), StopCloses(false, true));
    StopIs(gone, false, false);
    var r1 := DoStop(gone, false, false);
    assert r1.owner == Owner(false, Announce, Plan(None, true, true, Closed, None, false, false));
    hide Next, RunFrom, Inv, DoStop;
    StopAnnouncesIs(r1, true);
    var r2 := DoStopAnnounces(r1, true);
    StopTearsDownIs(r2, TornDown);
    var r3 := DoStopTearsDown(r2, TornDown);
    StopClosesIs(r3, false, true);
  }

  // Both ways to give up: the awaited receive task raises, or the bypass of the dispatcher
  // does, for which the code gives no cause.
  lemma StopsGiveUp()
    ensures GivesUp(Run(STARTED + RECEIVING + [Stop(true, false)]), StopTearsDown(TaskRaised))
    ensures GivesUp(Run(STARTED + RECEIVING + [Stop(true, false), StopTearsDown(TornDown)]), StopBypasses(false))
  {
    Receives();
    RunConcat(INITIAL, STARTED + RECEIVING, [Stop(true, false)]);
    RunConcat(INITIAL, STARTED + RECEIVING, [Stop(true, false), StopTearsDown(TornDown)]);
    RunOne(UP, Stop(true, false));
    RunTwo(UP, Stop(true, false), StopTearsDown(TornDown));
    hide RunFrom, Next;
    StopIs(UP, true, false);
    StopTearsDownIs(DoStop(UP, true, false), TornDown);
  }

  // ---- a stop that waits for ever ---------------------------------------------------------------

  const FAILED := [StartBegins, StartingDelivered(true), RunningEmitted(0, true), OpenedHandled(0, false)]
  const LOOKED_TOO_EARLY := [Stop(false, false), StopAnnounces(true), StopTearsDown(TornDown), StarterLooks(0, true)]

  // The opened event fails, its start() call looks for a deferred close event, and the
  // stop defers its own before the slot is cleared.
  lemma StopStalls()
    ensures StallsOn(Run(FAILED + LOOKED_TOO_EARLY), StopCloses(false, true))
  {
    Fails();
    RunConcat(INITIAL, FAILED, LOOKED_TOO_EARLY);
    RunFour(FAILING, Stop(false, false), StopAnnounces(true), StopTearsDown(TornDown), StarterLooks(0, true));
    hide RunFrom, StallsOn, Next;
    StopsUpToClose(FAILING);
    LooksTooEarly(Next(Next(Next(FAILING, Stop(false, false)), StopAnnounces(true)), StopTearsDown(TornDown)));
  }

  const FAILING := DELIVERING.(starters := Starters(0, map[0 := Failing]))

  lemma Fails()
    ensures RunFrom(INITIAL, FAILED) == FAILING
  {
    RunFour(INITIAL, StartBegins, StartingDelivered(true), RunningEmitted(0, true), OpenedHandled(0, false));
    hide RunFrom, Next;
    StartsDelivering();
    OpenedHandledIs(DELIVERING, 0, false);
    assert DELIVERING.starters.at[0 := Failing] == map[0 := Failing];
  }

  lemma LooksTooEarly(r: Receiver)
    requires r.owner.Owner? && r.owner.phase.Close? && r.owner.plan.closes
    requires r.starters == FAILING.starters && r.opening == FAILING.opening && !r.publisher
    ensures StallsOn(Next(r, StarterLooks(0, true)), StopCloses(false, true))
  {
    StarterLooksIs(r, 0, true);
    var d := DoStarterLooks(r, 0, true);
    assert d.starters.at == map[0 := Clearing];
    hide Next;
  }

  // ---- a publisher left over from an earlier life --------------------------------------------

  // A handler began beside the first stop, so a publisher is made for its close event; the
  // start() call comes first, and the handler runs on.
  const STOPPED_ONCE := [Stop(false, false), StopAnnounces(true), StopTearsDown(TornDown), StopCloses(true, true)]
  const PUBLISHED_BY_START := [StarterLooks(0, true), StopFinishes, StopEnds, StartBegins]
  const SECOND_LIFE := [StartingDelivered(true), RunningEmitted(1, true), Stop(false, false), StopAnnounces(true)]
  const DEFERRED_AGAIN := [StopTearsDown(TornDown), StopCloses(false, true)]

  lemma StopsOnce()
    ensures
      var d := RunFrom(LOOKING, STOPPED_ONCE);
      && d.track.state.Stopping? && CloseDeferred(d) && d.owner.plan.toStopped && d.publisher
      && d.starters == LOOKING.starters && d.opening.None? && d.nextSock == 1
  {
    RunFour(LOOKING, Stop(false, false), StopAnnounces(true), StopTearsDown(TornDown), StopCloses(true, true));
    hide RunFrom, Next;
    StopsUpToClose(LOOKING);
    var d := Next(Next(Next(LOOKING, Stop(false, false)), StopAnnounces(true)), StopTearsDown(TornDown));
    StopClosesIs(d, true, true);
  }

  lemma StartPublishes(r: Receiver)
    requires r.track.state.Stopping? && CloseDeferred(r) && r.owner.plan.toStopped && r.publisher
    requires r.starters == LOOKING.starters && r.opening.None? && r.nextSock == 1
    ensures
      var d := RunFrom(r, PUBLISHED_BY_START);
      d.track.state.Starting? && d.owner.NoOwner? && d.publisher && d.starters == Starters(1, map[]) && d.nextSock == 1
  {
    RunFour(r, StarterLooks(0, true), StopFinishes, StopEnds, StartBegins);
    hide RunFrom;
    StarterLooksIs(r, 0, true);
    var r1 := Next(r, StarterLooks(0, true));
    assert r1.starters.at == map[0 := Looking] - {0} == map[];
    assert r1.owner.Owner? && r1.owner.phase.Finish? && r1.owner.plan.toStopped && r1.track == r.track;
    assert r1.publisher && r1.starters.starting == 0 && r1.nextSock == 1;
    StopFinishesIs(r1);
    StartsAfterStop(r1);
  }

  lemma StartsAfterStop(r1: Receiver)
    requires r1.track.state.Stopping? && r1.owner.Owner? && r1.owner.phase.Finish? && r1.owner.plan.toStopped
    ensures
      var d := Next(Next(Next(r1, StopFinishes), StopEnds), StartBegins);
      && d.track.state.Starting? && d.owner.NoOwner? && d.publisher == r1.publisher && d.nextSock == r1.nextSock
      && d.starters == Starters(r1.starters.starting + 1, r1.starters.at)
  {
    StopFinishesIs(r1);
    var r2 := DoStopFinishes(r1);
    assert r2.track.state.Stopped? && r2.owner.Owner? && r2.owner.phase.Ending?;
    hide DoStopFinishes;
    var r3 := Next(r2, StopEnds);
    assert r3 == r2.(owner := NoOwner);
  }

  lemma LivesAgain(r: Receiver)
    requires r.track.state.Starting? && r.owner.NoOwner? && r.publisher && r.starters == Starters(1, map[])
    requires r.nextSock == 1
    ensures
      var d := RunFrom(r, SECOND_LIFE);
      && d.owner.Owner? && d.owner.phase.Teardown? && !d.owner.deferred && d.owner.plan.closes && !d.owner.plan.failed
      && d.publisher && d.starters.at == map[1 := Delivering] && d.opening == Some(1)
  {
    RunFour(r, StartingDelivered(true), RunningEmitted(1, true), Stop(false, false), StopAnnounces(true));
    hide RunFrom, Next;
    StartingDeliveredIs(r, true);
    var r1 := DoStartingDelivered(r, true);
    assert r1.starters.at == map[1 := Announcing] && StillMine(r1, 1);
    RunningEmittedIs(r1, 1, true);
    var r2 := DoRunningEmitted(r1, 1, true);
    assert r2.starters.at == map[1 := Delivering];
    StopIs(r2, false, false);
    StopAnnouncesIs(DoStop(r2, false, false), true);
  }

  lemma DefersAgain(r: Receiver)
    requires r.owner.Owner? && r.owner.phase.Teardown? && !r.owner.deferred && r.owner.plan.closes
    requires !r.owner.plan.failed
    requires r.publisher && r.starters.at == map[1 := Delivering] && r.opening == Some(1)
    ensures Overtakes(RunFrom(r, DEFERRED_AGAIN), PublisherLooks(true))
  {
    RunTwo(r, StopTearsDown(TornDown), StopCloses(false, true));
    hide RunFrom, Next;
    StopTearsDownIs(r, TornDown);
    var r1 := DoStopTearsDown(r, TornDown);
    StopClosesIs(r1, false, true);
    assert IsAt(DoStopCloses(r1, false, true), 1, Delivering);
  }

  const TWO_LIVES := STARTED + STOPPED_ONCE + PUBLISHED_BY_START + SECOND_LIFE + DEFERRED_AGAIN

  lemma CloseOvertakes()
    ensures Overtakes(Run(TWO_LIVES), PublisherLooks(true))
  {
    hide RunFrom, Overtakes;
    Starts();
    StopsOnce();
    RunConcat(INITIAL, STARTED + STOPPED_ONCE + PUBLISHED_BY_START + SECOND_LIFE, DEFERRED_AGAIN);
    RunConcat(INITIAL, STARTED + STOPPED_ONCE + PUBLISHED_BY_START, SECOND_LIFE);
    RunConcat(INITIAL, STARTED + STOPPED_ONCE, PUBLISHED_BY_START);
    RunConcat(INITIAL, STARTED, STOPPED_ONCE);
    StartPublishes(Run(STARTED + STOPPED_ONCE));
    LivesAgain(Run(STARTED + STOPPED_ONCE + PUBLISHED_BY_START));
    DefersAgain(Run(STARTED + STOPPED_ONCE + PUBLISHED_BY_START + SECOND_LIFE));
  }

  // ---- a stop() that returns on an active receiver ----------------------------------------------

  const INTERRUPTED := [StartBegins, Stop(false, false), StopAnnounces(true), StopTearsDown(TornDown)]
  const RESTARTED := [StopCloses(false, true), StopFinishes, StartBegins, StartingDelivered(true)]

  lemma Interrupts()
    ensures
      var d := RunFrom(INITIAL, INTERRUPTED);
      && d.track.state.Stopping? && d.opening.None?
      && d.owner.Owner? && d.owner.phase.Close? && d.owner.plan.toStopped && !d.owner.plan.closes
  {
    RunFour(INITIAL, StartBegins, Stop(false, false), StopAnnounces(true), StopTearsDown(TornDown));
    hide RunFrom;
    var r1 := Next(INITIAL, StartBegins);
    assert r1.track.state.Starting? && r1.owner.NoOwner? && r1.opening.None?;
    hide Next;
    StopIs(r1, false, false);
    var r2 := DoStop(r1, false, false);
    StopAnnouncesIs(r2, true);
    StopTearsDownIs(DoStopAnnounces(r2, true), TornDown);
  }

  lemma RestartsBesideStop(r: Receiver)
    requires r.track.state.Stopping? && r.owner.Owner? && r.owner.phase.Close? && r.owner.plan.toStopped
    requires !r.owner.plan.closes && r.opening.None?
    ensures ReturnsActive(RunFrom(r, RESTARTED)) && RunFrom(r, RESTARTED).track.state.Running?
  {
    RunFour(r, StopCloses(false, true), StopFinishes, StartBegins, StartingDelivered(true));
    hide RunFrom;
    var r2 := Next(Next(r, StopCloses(false, true)), StopFinishes);
    assert r2.track.state.Stopped? && r2.owner.phase.Ending?;
    var r3 := Next(r2, StartBegins);
    assert r3.track.state.Starting? && r3.owner == r2.owner;
  }

  // The receiver is RUNNING again when the stop of its first life releases the waiter.
  lemma StopReturnsOnRunningReceiver()
    ensures ReturnsActive(Run(INTERRUPTED + RESTARTED)) && Run(INTERRUPTED + RESTARTED).track.state.Running?
  {
    hide RunFrom;
    RunConcat(INITIAL, INTERRUPTED, RESTARTED);
    Interrupts();
    RestartsBesideStop(RunFrom(INITIAL, INTERRUPTED));
  }
}

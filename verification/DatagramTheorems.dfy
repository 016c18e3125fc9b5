// The event sequence a datagram receiver publishes: its order in every run, and its
// grammar when nothing that is published fails.

module DatagramTheorems {
  import opened Common
  import L = Lifecycle
  import opened DatagramSpec
  import opened DatagramProofs

  // ---- the grammar of the published events -----------------------------------------

  // STARTING, then either STOPPED, or STOPPING STOPPED, or
  // RUNNING [opened] STOPPING closed STOPPED; over and over.
  datatype Place = Idle | Begun | Up | Live | Rolling | Leaving | Last | Broken

  function After(p: Place, e: Event): Place {
    match p
    case Idle => if e == Life(L.Transition(L.Stopped, L.Starting)) then Begun else Broken
    case Begun =>
      if e == Life(L.Transition(L.Starting, L.Running)) then Up
      else if e == Life(L.Transition(L.Starting, L.Stopping)) then Rolling
      else if e == Life(L.Transition(L.Starting, L.Stopped)) then Idle
      else Broken
    case Up =>
      if e.Opened? then Live
      else if e == Life(L.Transition(L.Running, L.Stopping)) then Leaving
      else Broken
    case Live => if e == Life(L.Transition(L.Running, L.Stopping)) then Leaving else Broken
    case Leaving => if e == ClosedEvent(Connected) then Last else Broken
    case Rolling => if e == Life(L.Transition(L.Stopping, L.Stopped)) then Idle else Broken
    case Last => if e == Life(L.Transition(L.Stopping, L.Stopped)) then Idle else Broken
    case Broken => Broken
  }

  function Parse(log: seq<Event>): Place {
    if log == [] then Idle else After(Parse(log[..|log| - 1]), log[|log| - 1])
  }

  lemma ParseSnoc(log: seq<Event>, e: Event)
    ensures Parse(log + [e]) == After(Parse(log), e)
  {
    assert (log + [e])[..|log|] == log;
  }

  // Nothing that is published or torn down fails; creating the socket may.
  predicate Clean(a: Action) {
    match a
    case StartingFails => false
    case RunningEmitted(_, ok) => ok
    case OpenedHandled(_, ok) => ok
    case StarterLooks(_, ok) => ok
    case StopAnnounces(ok) => ok
    case StopTearsDown(outcome) => outcome.TornDown?
    case StopBypasses(ok) => ok
    case StopCloses(_, ok) => ok
    case PublisherLooks(ok) => ok
    case _ => true
  }

  // ---- where the log stands, from the state ------------------------------------------

  // The owner has not announced STOPPING yet.
  predicate Unannounced(o: Owner) {
    o.Owner? && (o.phase.Announce? || (o.deferred && (o.phase.Teardown? || o.phase.Bypass? || o.phase.Unwind?)))
  }

  predicate PlaceOk(r: Receiver, p: Place) {
    match r.track.state
    case Stopped => p.Idle?
    case Starting => p.Begun?
    case Running => (p.Up? || p.Live?) && (r.rt.sock.Some? && IsAt(r, r.rt.sock.value, Announcing) ==> p.Up?)
    case Stopping =>
      r.owner.Owner?
      && var o := r.owner;
         if Unannounced(o) then if o.plan.closes then p.Up? || p.Live? else p.Begun?
         else if !o.plan.closes then p.Rolling?
         else if o.phase.Finish? then p.Last?
         else p.Leaving?
  }

  predicate PlanOk(r: Receiver) {
    && (r.track.state.Running? ==> r.rt.conn.Connected?)
    && (r.owner.Owner? && !r.owner.phase.Ending? ==>
          var plan := r.owner.plan;
          && !plan.failed
          && plan.stopping == Some(L.Transition(if plan.closes then L.Running else L.Starting, L.Stopping))
          && (plan.closes ==> plan.previous.Connected?))
  }

  predicate CleanInv(r: Receiver) { PlaceOk(r, Parse(r.log)) && PlanOk(r) }

  lemma StartStaysClean(r: Receiver, a: Action)
    requires Inv(r) && CleanInv(r) && Enabled(r, a) && (a.StartBegins? || a.StartingDelivered?)
    ensures CleanInv(Step(r, a))
  {
    ParseSnoc(r.log, Life(L.Transition(r.track.state, L.Starting)));
    ParseSnoc(r.log, Life(L.Transition(r.track.state, L.Running)));
    ParseSnoc(r.log, Life(L.Transition(r.track.state, L.Stopped)));
    hide Parse, SocketsOk, L.IsPath;
  }

  lemma RunningEmittedStaysClean(r: Receiver, id: nat)
    requires Inv(r) && CleanInv(r) && IsAt(r, id, Announcing)
    ensures CleanInv(DoRunningEmitted(r, id, true))
  {
    ParseSnoc(r.log, Opened(id));
    hide Parse, SocketsOk, OwnerOk, L.IsPath;
  }

  lemma StarterStaysClean(r: Receiver, a: Action)
    requires Inv(r) && CleanInv(r) && Enabled(r, a) && Clean(a)
    requires a.OpenedHandled? || a.OpeningCleared? || a.ReceiverStarts?
    ensures CleanInv(Step(r, a))
  {
    hide Parse, After, SocketsOk, OwnerOk, L.IsPath;
  }

  // Whoever publishes the deferred close event.
  lemma LookedStaysClean(r: Receiver)
    requires Inv(r) && CleanInv(r)
    ensures CleanInv(Looked(r, true))
  {
    hide Parse, SocketsOk, L.IsPath;
    if CloseDeferred(r) {
      ParseSnoc(r.log, ClosedEvent(r.owner.plan.previous));
    }
  }

  lemma LookingStaysClean(r: Receiver, a: Action)
    requires Inv(r) && CleanInv(r) && Enabled(r, a) && Clean(a) && (a.StarterLooks? || a.PublisherLooks?)
    ensures CleanInv(Step(r, a))
  {
    hide Parse, SocketsOk, L.IsPath, After, Looked;
    LookedStaysClean(r);
    LookingMoves(r, true);
  }

  lemma LookingMoves(r: Receiver, ok: bool)
    ensures
      var d := Looked(r, ok);
      && d.track == r.track && d.rt == r.rt && d.starters == r.starters && d.opening == r.opening
      && d.owner.Owner? == r.owner.Owner? && d.nextSock == r.nextSock
  {
  }

  lemma StopStaysClean(r: Receiver, deferred: bool, sparesTask: bool)
    requires Inv(r) && CleanInv(r) && Enabled(r, Stop(deferred, sparesTask))
    ensures CleanInv(DoStop(r, deferred, sparesTask))
  {
    hide Parse, SocketsOk, L.IsPath;
  }

  lemma OwnerStaysClean(r: Receiver, a: Action)
    requires Inv(r) && CleanInv(r) && Enabled(r, a) && Clean(a)
    requires a.StopTearsDown? || a.StopBypasses? || a.HandlersUnwind? || a.StopEnds?
    ensures CleanInv(Step(r, a))
  {
    hide Parse, After, SocketsOk, L.IsPath;
  }

  lemma AnnouncingStaysClean(r: Receiver)
    requires Inv(r) && CleanInv(r) && r.owner.Owner? && r.owner.phase.Announce?
    ensures CleanInv(DoStopAnnounces(r, true))
  {
    var e := Life(r.owner.plan.stopping.value);
    ParseSnoc(r.log, e);
    assert DoStopAnnounces(r, true).log == r.log + [e];
    hide Parse, SocketsOk, L.IsPath;
  }

  lemma ClosingStaysClean(r: Receiver, handlerActive: bool)
    requires Inv(r) && CleanInv(r) && r.owner.Owner? && r.owner.phase.Close?
    ensures CleanInv(DoStopCloses(r, handlerActive, true))
  {
    ParseSnoc(r.log, ClosedEvent(r.owner.plan.previous));
    hide Parse, SocketsOk, L.IsPath;
  }

  lemma FinishingStaysClean(r: Receiver)
    requires Inv(r) && CleanInv(r) && Enabled(r, StopFinishes)
    ensures CleanInv(DoStopFinishes(r))
  {
    ParseSnoc(r.log, Life(L.Transition(L.Stopping, L.Stopped)));
    hide Parse, SocketsOk, L.IsPath;
  }

  lemma StepStaysClean(r: Receiver, a: Action)
    requires Inv(r) && CleanInv(r) && Enabled(r, a) && Clean(a)
    ensures CleanInv(Step(r, a))
  {
    hide Inv, CleanInv, DoStop, DoStopAnnounces, DoStopFinishes, DoRunningEmitted, DoOpenedHandled, DoReceiverStarts,
      DoStopCloses, DoStarterLooks, Looked;
    match a
    case RunningEmitted(id, _) => RunningEmittedStaysClean(r, id);
    case OpenedHandled(_, _) => StarterStaysClean(r, a);
    case OpeningCleared(_) => StarterStaysClean(r, a);
    case ReceiverStarts(_) => StarterStaysClean(r, a);
    case StarterLooks(_, _) => LookingStaysClean(r, a);
    case PublisherLooks(_) => LookingStaysClean(r, a);
    case Stop(deferred, sparesTask) => StopStaysClean(r, deferred, sparesTask);
    case StopAnnounces(_) => AnnouncingStaysClean(r);
    case StopCloses(handlerActive, _) => ClosingStaysClean(r, handlerActive);
    case StopFinishes => FinishingStaysClean(r);
    case StartBegins => StartStaysClean(r, a);
    case StartingDelivered(_) => StartStaysClean(r, a);
    case _ => OwnerStaysClean(r, a);
  }

  lemma {:induction false} CleanRunFrom(r: Receiver, acts: seq<Action>)
    requires Inv(r) && CleanInv(r) && forall a :: a in acts ==> Clean(a)
    ensures Inv(RunFrom(r, acts)) && CleanInv(RunFrom(r, acts))
    decreases acts
  {
    hide Inv, CleanInv, Step, Enabled;
    if acts != [] {
      if Enabled(r, acts[0]) {
        StepKeepsInv(r, acts[0]);
        StepStaysClean(r, acts[0]);
      }
      CleanRunFrom(Next(r, acts[0]), acts[1..]);
    }
  }

  // For any overlapping starts and stops without publication errors, the events
  // follow the grammar, and they are complete when the receiver is stopped.
  lemma EventsFollowGrammar(acts: seq<Action>)
    requires forall a :: a in acts ==> Clean(a)
    ensures
      var r := Run(acts);
      && !Parse(r.log).Broken?
      && (r.track.state.Stopped? ==> Parse(r.log).Idle?)
  {
    CleanRunFrom(INITIAL, acts);
  }

  // ---- the order of the events, whatever fails --------------------------------------

  function EventRank(e: Event): nat {
    match e
    case Life(t) => match t.current { case Starting => 0 case Running => 1 case Stopping => 3 case Stopped => 5 }
    case Opened(_) => 2
    case ClosedEvent(_) => 4
  }

  // Every event comes later in the life of the receiver than the one before it, or
  // begins a new life.
  ghost predicate InOrder(log: seq<Event>) {
    forall i :: 0 < i < |log| ==> EventRank(log[i]) == 0 || EventRank(log[i - 1]) < EventRank(log[i])
  }

  function LastRank(log: seq<Event>): nat { if log == [] then 5 else EventRank(log[|log| - 1]) }

  // What the last event can be, from the state.
  function Bound(r: Receiver): nat {
    match r.track.state
    case Stopped => 5
    case Starting => 0
    case Running => if r.rt.sock.Some? && IsAt(r, r.rt.sock.value, Announcing) then 1 else 2
    case Stopping =>
      if r.owner.NoOwner? || Unannounced(r.owner) then 2
      else if r.owner.phase.Finish? then 4
      else 3
  }

  // The events that the owner's plan holds have the rank of STOPPING.
  predicate PlanRank(r: Receiver) {
    r.owner.Owner? && r.owner.plan.stopping.Some? ==> r.owner.plan.stopping.value.current.Stopping?
  }

  ghost predicate OrderInv(r: Receiver) { InOrder(r.log) && LastRank(r.log) <= Bound(r) && PlanRank(r) }

  lemma OrderSnoc(log: seq<Event>, e: Event)
    requires InOrder(log) && (EventRank(e) == 0 || LastRank(log) < EventRank(e))
    ensures InOrder(log + [e]) && LastRank(log + [e]) == EventRank(e)
  {
  }

  lemma StartKeepsOrder(r: Receiver, a: Action)
    requires Inv(r) && OrderInv(r) && Enabled(r, a) && (a.StartBegins? || a.StartingDelivered? || a.StartingFails?)
    ensures OrderInv(Step(r, a))
  {
    hide SocketsOk, L.IsPath, InOrder;
    if a.StartBegins? {
      OrderSnoc(r.log, Life(L.Transition(r.track.state, L.Starting)));
    } else if a.StartingDelivered? && r.track.state.Starting? {
      OrderSnoc(r.log, Life(L.Transition(r.track.state, if a.socketOk then L.Running else L.Stopped)));
    }
  }

  lemma OpeningKeepsOrder(r: Receiver, a: Action)
    requires Inv(r) && OrderInv(r) && Enabled(r, a)
    requires a.RunningEmitted? || a.OpenedHandled? || a.OpeningCleared? || a.ReceiverStarts?
    ensures OrderInv(Step(r, a))
  {
    hide SocketsOk, L.IsPath, InOrder, OwnerOk;
    if a.RunningEmitted? && a.ok && StillMine(r, a.id) {
      OrderSnoc(r.log, Opened(a.id));
    }
  }

  lemma LookedKeepsOrder(r: Receiver, ok: bool)
    requires Inv(r) && OrderInv(r)
    ensures OrderInv(Looked(r, ok))
  {
    hide SocketsOk, L.IsPath, InOrder;
    if CloseDeferred(r) {
      OrderSnoc(r.log, ClosedEvent(r.owner.plan.previous));
    }
  }

  lemma LookingKeepsOrder(r: Receiver, a: Action)
    requires Inv(r) && OrderInv(r) && Enabled(r, a) && (a.StarterLooks? || a.PublisherLooks?)
    ensures OrderInv(Step(r, a))
  {
    LookedKeepsOrder(r, a.ok);
    LookingMoves(r, a.ok);
    LookingIs(r, a);
    LookingBegins(r, a);
    hide Inv, OrderInv, Looked, Step, Enabled;
    CallsKeepOrder(Looked(r, a.ok), Step(r, a));
  }

  lemma CallsKeepOrder(r: Receiver, d: Receiver)
    requires OrderInv(r) && d == r.(starters := d.starters, publisher := d.publisher)
    requires forall id: nat :: IsAt(d, id, Announcing) <==> IsAt(r, id, Announcing)
    ensures OrderInv(d)
  {
    hide InOrder, LastRank;
  }

  lemma LookingBegins(r: Receiver, a: Action)
    requires Enabled(r, a) && (a.StarterLooks? || a.PublisherLooks?)
    ensures forall id: nat :: IsAt(Step(r, a), id, Announcing) <==> IsAt(r, id, Announcing)
  {
    hide Looked;
    LookingMoves(r, a.ok);
  }

  lemma StopKeepsOrder(r: Receiver, deferred: bool, sparesTask: bool)
    requires Inv(r) && OrderInv(r) && Enabled(r, Stop(deferred, sparesTask))
    ensures OrderInv(DoStop(r, deferred, sparesTask))
  {
    hide SocketsOk, L.IsPath, InOrder;
  }

  lemma OwnerKeepsOrder(r: Receiver, a: Action)
    requires Inv(r) && OrderInv(r) && Enabled(r, a)
    requires a.StopTearsDown? || a.StopBypasses? || a.HandlersUnwind? || a.StopEnds?
    ensures OrderInv(Step(r, a))
  {
    hide SocketsOk, L.IsPath, InOrder;
  }

  lemma AnnouncingKeepsOrder(r: Receiver, ok: bool)
    requires Inv(r) && OrderInv(r) && Enabled(r, StopAnnounces(ok))
    ensures OrderInv(DoStopAnnounces(r, ok))
  {
    hide SocketsOk, L.IsPath, InOrder;
    if r.owner.plan.stopping.Some? {
      OrderSnoc(r.log, Life(r.owner.plan.stopping.value));
    }
  }

  lemma ClosingKeepsOrder(r: Receiver, handlerActive: bool, ok: bool)
    requires Inv(r) && OrderInv(r) && Enabled(r, StopCloses(handlerActive, ok))
    ensures OrderInv(DoStopCloses(r, handlerActive, ok))
  {
    hide SocketsOk, L.IsPath, InOrder;
    OrderSnoc(r.log, ClosedEvent(r.owner.plan.previous));
  }

  lemma FinishingKeepsOrder(r: Receiver)
    requires Inv(r) && OrderInv(r) && Enabled(r, StopFinishes)
    ensures OrderInv(DoStopFinishes(r))
  {
    hide SocketsOk, L.IsPath, InOrder;
    OrderSnoc(r.log, Life(L.Transition(L.Stopping, L.Stopped)));
  }

  lemma StepKeepsOrder(r: Receiver, a: Action)
    requires Inv(r) && OrderInv(r) && Enabled(r, a)
    ensures OrderInv(Step(r, a))
  {
    hide Inv, OrderInv, DoStop, DoStopAnnounces, DoStopCloses, DoStopFinishes;
    match a
    case StartBegins => StartKeepsOrder(r, a);
    case StartingDelivered(_) => StartKeepsOrder(r, a);
    case StartingFails => StartKeepsOrder(r, a);
    case RunningEmitted(_, _) => OpeningKeepsOrder(r, a);
    case OpenedHandled(_, _) => OpeningKeepsOrder(r, a);
    case OpeningCleared(_) => OpeningKeepsOrder(r, a);
    case ReceiverStarts(_) => OpeningKeepsOrder(r, a);
    case StarterLooks(_, _) => LookingKeepsOrder(r, a);
    case PublisherLooks(_) => LookingKeepsOrder(r, a);
    case Stop(deferred, sparesTask) => StopKeepsOrder(r, deferred, sparesTask);
    case StopTearsDown(_) => OwnerKeepsOrder(r, a);
    case StopBypasses(_) => OwnerKeepsOrder(r, a);
    case HandlersUnwind => OwnerKeepsOrder(r, a);
    case StopEnds => OwnerKeepsOrder(r, a);
    case StopAnnounces(ok) => AnnouncingKeepsOrder(r, ok);
    case StopCloses(handlerActive, ok) => ClosingKeepsOrder(r, handlerActive, ok);
    case StopFinishes => FinishingKeepsOrder(r);
  }

  lemma {:induction false} RunKeepsOrder(r: Receiver, acts: seq<Action>)
    requires Inv(r) && OrderInv(r)
    ensures OrderInv(RunFrom(r, acts))
    decreases acts
  {
    hide Inv, OrderInv, Step, Enabled;
    if acts != [] {
      if Enabled(r, acts[0]) {
        StepKeepsInv(r, acts[0]);
        StepKeepsOrder(r, acts[0]);
      }
      RunKeepsOrder(Next(r, acts[0]), acts[1..]);
    }
  }

  // In every run, whatever fails: no event is published twice in one life, and none
  // before one that belongs in front of it.
  lemma EventsKeepOrder(acts: seq<Action>)
    ensures InOrder(Run(acts).log)
  {
    RunKeepsOrder(INITIAL, acts);
  }
}

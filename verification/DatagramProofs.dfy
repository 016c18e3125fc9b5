// What every run of a datagram receiver keeps, and what its events look like.

module DatagramProofs {
  import opened Common
  import L = Lifecycle
  import opened DatagramSpec

  // ---- the invariant -----------------------------------------------------------

  // Socket and receive task are attached exactly while RUNNING.
  predicate AttachedOk(r: Receiver) {
    && (r.rt.sock.Some? <==> r.track.state.Running?)
    && (r.rt.running <==> r.track.state.Running?)
    && (r.rt.task.Some? ==> r.rt.task == r.rt.sock)
    && (r.track.state.Stopping? ==> r.rt.conn.Closed?)
  }

  // The owner of a stop holds the lifecycle at STOPPING until it applies STOPPED,
  // and the detached socket until it has closed it.
  predicate OwnerOk(r: Receiver) {
    r.owner.Owner? ==>
      && (r.owner.phase.Ending? <==> !r.track.state.Stopping?)
      && (!r.owner.phase.Ending? ==> r.owner.plan.toStopped)
      && (r.owner.phase.Bypass? || r.owner.phase.Unwind? ==> r.owner.deferred)
      && (r.owner.phase.AwaitClose? ==> r.owner.plan.closes)
      && (r.owner.plan.sock.Some? ==> r.owner.phase.Teardown? || (r.owner.phase.Announce? && !r.owner.deferred))
      && (r.owner.plan.awaits ==> r.owner.plan.sock.Some?)
  }

  // The socket that is open, wherever it is.
  function Open(r: Receiver): Option<nat> {
    if r.rt.sock.Some? then r.rt.sock else if r.owner.Owner? then r.owner.plan.sock else None
  }

  ghost predicate NoDuplicates(xs: seq<nat>) { forall i, j :: 0 <= i < j < |xs| ==> xs[i] != xs[j] }

  // Every socket ever attached is the open one, or was closed once, or leaked.
  ghost predicate SocketsOk(r: Receiver) {
    && r.nextSock == |r.closed| + |r.leaked| + (if Open(r).Some? then 1 else 0)
    && NoDuplicates(r.closed) && NoDuplicates(r.leaked)
    && (forall id :: id in r.closed ==> id < r.nextSock && id !in r.leaked)
    && (forall id :: id in r.leaked ==> id < r.nextSock)
    && (Open(r).Some? ==> Open(r).value < r.nextSock && Open(r).value !in r.closed && Open(r).value !in r.leaked)
  }

  ghost predicate Inv(r: Receiver) {
    L.IsPath(r.track) && AttachedOk(r) && OwnerOk(r) && SocketsOk(r)
  }

  lemma StartBeginsKeepsInv(r: Receiver)
    requires Inv(r) && r.track.state.Stopped?
    ensures Inv(DoStartBegins(r))
  {
    L.ApplyKeepsPath(r.track, L.Starting);
    hide L.IsPath, SocketsOk;
    SocketsSame(r, DoStartBegins(r));
  }

  lemma SocketsSame(r: Receiver, d: Receiver)
    requires SocketsOk(r) && Open(d) == Open(r)
    requires d.closed == r.closed && d.leaked == r.leaked && d.nextSock == r.nextSock
    ensures SocketsOk(d)
  {
  }

  lemma AttachKeepsInv(r: Receiver)
    requires Inv(r) && r.starters.starting > 0 && r.track.state.Starting?
    ensures Inv(DoStartingDelivered(r, true))
  {
    L.ApplyKeepsPath(r.track, L.Running);
    hide L.IsPath;
  }

  lemma FailedStartKeepsInv(r: Receiver)
    requires Inv(r) && r.starters.starting > 0
    ensures Inv(DoStartingFails(r))
  {
    L.ApplyKeepsPath(r.track, L.Stopped);
    hide L.IsPath, SocketsOk;
    SocketsSame(r, DoStartingFails(r));
  }

  lemma SocketlessKeepsInv(r: Receiver)
    requires Inv(r) && r.starters.starting > 0
    ensures Inv(DoStartingDelivered(r, false))
  {
    L.ApplyKeepsPath(r.track, L.Stopped);
    hide L.IsPath, SocketsOk;
    SocketsSame(r, DoStartingDelivered(r, false));
  }

  lemma DeliveredKeepsInv(r: Receiver, socketOk: bool)
    requires Inv(r) && r.starters.starting > 0
    ensures Inv(DoStartingDelivered(r, socketOk))
  {
    hide Inv, Published;
    if socketOk && r.track.state.Starting? {
      AttachKeepsInv(r);
    } else {
      SocketlessKeepsInv(r);
    }
  }

  lemma OpeningKeepsInv(r: Receiver, a: Action)
    requires Inv(r) && Enabled(r, a)
    requires a.RunningEmitted? || a.OpenedHandled? || a.OpeningCleared? || a.ReceiverStarts?
    ensures Inv(Step(r, a))
  {
    hide L.IsPath, SocketsOk;
    SocketsSame(r, Step(r, a));
  }

  lemma LookedKeepsInv(r: Receiver, ok: bool)
    requires Inv(r)
    ensures Inv(Looked(r, ok))
  {
    hide L.IsPath, SocketsOk;
    SocketsSame(r, Looked(r, ok));
  }

  // Who has begun to start and who will look does not matter to the invariant.
  lemma CallsDoNotMatter(r: Receiver, d: Receiver)
    requires Inv(r) && d == r.(starters := d.starters, publisher := d.publisher)
    ensures Inv(d)
  {
    hide L.IsPath, SocketsOk;
    SocketsSame(r, d);
  }

  lemma LookingIs(r: Receiver, a: Action)
    requires Enabled(r, a) && (a.StarterLooks? || a.PublisherLooks?)
    ensures var d := Step(r, a); d == Looked(r, a.ok).(starters := d.starters, publisher := d.publisher)
  {
    hide Looked;
  }

  lemma LookingKeepsInv(r: Receiver, a: Action)
    requires Inv(r) && Enabled(r, a) && (a.StarterLooks? || a.PublisherLooks?)
    ensures Inv(Step(r, a))
  {
    hide Inv, Looked, Step, Enabled;
    LookedKeepsInv(r, a.ok);
    LookingIs(r, a);
    CallsDoNotMatter(Looked(r, a.ok), Step(r, a));
  }

  lemma StopKeepsInv(r: Receiver, deferred: bool, sparesTask: bool)
    requires Inv(r) && Enabled(r, Stop(deferred, sparesTask))
    ensures Inv(DoStop(r, deferred, sparesTask))
  {
    L.ApplyKeepsPath(r.track, L.Stopping);
    hide L.IsPath, SocketsOk;
    SocketsSame(r, DoStop(r, deferred, sparesTask));
  }

  lemma TeardownKeepsInv(r: Receiver, outcome: Torn)
    requires Inv(r) && Enabled(r, StopTearsDown(outcome))
    ensures Inv(DoStopTearsDown(r, outcome))
  {
    hide L.IsPath;
  }

  lemma AnnouncingKeepsInv(r: Receiver, ok: bool)
    requires Inv(r) && Enabled(r, StopAnnounces(ok))
    ensures Inv(DoStopAnnounces(r, ok))
  {
    hide L.IsPath, SocketsOk;
    SocketsSame(r, DoStopAnnounces(r, ok));
  }

  lemma ClosingKeepsInv(r: Receiver, handlerActive: bool, ok: bool)
    requires Inv(r) && Enabled(r, StopCloses(handlerActive, ok))
    ensures Inv(DoStopCloses(r, handlerActive, ok))
  {
    hide L.IsPath, SocketsOk;
    SocketsSame(r, DoStopCloses(r, handlerActive, ok));
  }

  lemma FinishingKeepsInv(r: Receiver)
    requires Inv(r) && Enabled(r, StopFinishes)
    ensures Inv(DoStopFinishes(r))
  {
    L.ApplyKeepsPath(r.track, L.Stopped);
    hide L.IsPath, SocketsOk;
    SocketsSame(r, DoStopFinishes(r));
  }

  lemma OwnerKeepsInv(r: Receiver, a: Action)
    requires Inv(r) && Enabled(r, a) && (a.StopBypasses? || a.HandlersUnwind? || a.StopEnds?)
    ensures Inv(Step(r, a))
  {
    hide L.IsPath, SocketsOk;
    SocketsSame(r, Step(r, a));
  }

  lemma StepKeepsInv(r: Receiver, a: Action)
    requires Inv(r) && Enabled(r, a)
    ensures Inv(Step(r, a))
  {
    hide Inv, DoStartBegins, DoStartingDelivered, DoStartingFails, DoStop, DoStopTearsDown,
      DoStopAnnounces, DoStopCloses, DoStopFinishes;
    match a
    case StartBegins => StartBeginsKeepsInv(r);
    case StartingDelivered(socketOk) => DeliveredKeepsInv(r, socketOk);
    case StartingFails => FailedStartKeepsInv(r);
    case RunningEmitted(_, _) => OpeningKeepsInv(r, a);
    case OpenedHandled(_, _) => OpeningKeepsInv(r, a);
    case OpeningCleared(_) => OpeningKeepsInv(r, a);
    case ReceiverStarts(_) => OpeningKeepsInv(r, a);
    case StarterLooks(_, _) => LookingKeepsInv(r, a);
    case PublisherLooks(_) => LookingKeepsInv(r, a);
    case Stop(deferred, sparesTask) => StopKeepsInv(r, deferred, sparesTask);
    case StopTearsDown(outcome) => TeardownKeepsInv(r, outcome);
    case StopAnnounces(ok) => AnnouncingKeepsInv(r, ok);
    case StopCloses(handlerActive, ok) => ClosingKeepsInv(r, handlerActive, ok);
    case StopFinishes => FinishingKeepsInv(r);
    case _ => OwnerKeepsInv(r, a);
  }

  lemma {:induction false} RunFromKeepsInv(r: Receiver, acts: seq<Action>)
    requires Inv(r)
    ensures Inv(RunFrom(r, acts))
    decreases acts
  {
    hide Inv, Step, Enabled;
    if acts != [] {
      if Enabled(r, acts[0]) {
        StepKeepsInv(r, acts[0]);
      }
      RunFromKeepsInv(Next(r, acts[0]), acts[1..]);
    }
  }

  // ---- what holds in every reachable state -----------------------------------------

  // How many teardowns of the run ended with the receive task's own exception.
  function Raised(r: Receiver, acts: seq<Action>): nat
    decreases acts
  {
    if acts == [] then 0
    else
      (if Enabled(r, acts[0]) && acts[0] == StopTearsDown(TaskRaised) then 1 else 0)
      + Raised(Next(r, acts[0]), acts[1..])
  }

  lemma StepLeaks(r: Receiver, a: Action)
    requires Inv(r) && Enabled(r, a)
    ensures |Step(r, a).leaked| == |r.leaked| + if a == StopTearsDown(TaskRaised) then 1 else 0
  {
    hide L.IsPath, SocketsOk;
  }

  lemma {:induction false} RunLeaks(r: Receiver, acts: seq<Action>)
    requires Inv(r)
    ensures |RunFrom(r, acts).leaked| == |r.leaked| + Raised(r, acts)
    decreases acts
  {
    hide Inv, Step, Enabled;
    if acts != [] {
      if Enabled(r, acts[0]) {
        StepKeepsInv(r, acts[0]);
        StepLeaks(r, acts[0]);
      }
      RunLeaks(Next(r, acts[0]), acts[1..]);
    }
  }

  // However starts, stops and failures interleave: the applied transitions are a
  // path of the lifecycle table, socket and task are attached exactly while RUNNING,
  // and of the sockets that were attached and are no longer open, each was closed
  // exactly once or leaked: one leaks for each teardown in which the receive task
  // ended with its own exception, and none otherwise.
  lemma TornDownExactlyOnce(acts: seq<Action>)
    ensures
      var r := Run(acts);
      && L.IsPath(r.track)
      && (r.rt.sock.Some? <==> r.track.state.Running?)
      && (r.rt.task.Some? ==> r.rt.task == r.rt.sock && r.track.state.Running?)
      && NoDuplicates(r.closed) && (forall id :: id in r.closed ==> id !in r.leaked)
      && r.nextSock == |r.closed| + |r.leaked| + (if Open(r).Some? then 1 else 0)
      && |r.leaked| == Raised(INITIAL, acts)
  {
    RunFromKeepsInv(INITIAL, acts);
    RunLeaks(INITIAL, acts);
    hide RunFrom, Raised;
  }
}

// What single calls of a datagram receiver come to: a start() that fails, the receive
// task, every start() call's end, and whether a stop publishes STOPPED.

module DatagramOutcomes {
  import opened Common
  import L = Lifecycle
  import opened DatagramSpec
  import opened DatagramProofs
  import opened DatagramTheorems
  import opened DatagramStops

  // ---- a start() that fails -------------------------------------------------------------------

  const FAILS_TO_PUBLISH := [StartBegins, StartingFails]
  const FAILS_TO_OPEN := [StartBegins, StartingDelivered(false)]

  // A start() whose STARTING publication fails is undone silently, and one whose socket
  // cannot be created says STOPPED; both leave the receiver as it was, detached.
  lemma FailedStartIsUndone(r: Receiver)
    requires r.track.state.Stopped?
    ensures
      var begun := L.Transition(L.Stopped, L.Starting);
      var ended := L.Transition(L.Starting, L.Stopped);
      var undone := r.(track := L.Track(L.Stopped, r.track.applied + [begun, ended]), rt := DETACHED);
      && RunFrom(r, FAILS_TO_PUBLISH) == undone.(log := r.log + [Life(begun)])
      && RunFrom(r, FAILS_TO_OPEN) == undone.(log := r.log + [Life(begun), Life(ended)])
  {
    RunTwo(r, StartBegins, StartingFails);
    RunTwo(r, StartBegins, StartingDelivered(false));
    StartBeginsIs(r);
    StartingFailsIs(DoStartBegins(r));
    StartingDeliveredIs(DoStartBegins(r), false);
    hide Next, RunFrom, DoStartBegins, DoStartingFails, DoStartingDelivered;
    UndoneSilently(r);
    UndoneAloud(r);
  }

  lemma UndoneSilently(r: Receiver)
    requires r.track.state.Stopped?
    ensures
      var begun, ended := L.Transition(L.Stopped, L.Starting), L.Transition(L.Starting, L.Stopped);
      DoStartingFails(DoStartBegins(r))
      == r.(track := L.Track(L.Stopped, r.track.applied + [begun, ended]), rt := DETACHED, log := r.log + [Life(begun)])
  {
    var begun, ended := L.Transition(L.Stopped, L.Starting), L.Transition(L.Starting, L.Stopped);
    assert r.track.applied + [begun] + [ended] == r.track.applied + [begun, ended];
  }

  lemma UndoneAloud(r: Receiver)
    requires r.track.state.Stopped?
    ensures
      var begun, ended := L.Transition(L.Stopped, L.Starting), L.Transition(L.Starting, L.Stopped);
      DoStartingDelivered(DoStartBegins(r), false)
      == r.(track := L.Track(L.Stopped, r.track.applied + [begun, ended]), rt := DETACHED,
            log := r.log + [Life(begun), Life(ended)])
  {
    var begun, ended := L.Transition(L.Stopped, L.Starting), L.Transition(L.Starting, L.Stopped);
    assert r.track.applied + [begun] + [ended] == r.track.applied + [begun, ended];
    assert r.log + [Life(begun)] + [Life(ended)] == r.log + [Life(begun), Life(ended)];
  }

  lemma StartingFailsIs(r: Receiver)
    requires r.starters.starting > 0
    ensures Next(r, StartingFails) == DoStartingFails(r)
  {
    hide DoStartingFails;
  }

  // If a stop came first, the failure changes nothing but the call's own end.
  lemma LateFailureChangesNothing(r: Receiver, socketOk: bool)
    requires r.starters.starting > 0 && !r.track.state.Starting?
    ensures
      var d := r.(starters := r.starters.(starting := r.starters.starting - 1));
      Next(r, StartingFails) == d && Next(r, StartingDelivered(socketOk)) == d
  {
    StartingFailsIs(r);
    StartingDeliveredIs(r, socketOk);
    hide Next;
  }

  // ---- the receive task -----------------------------------------------------------------------

  lemma OnlyStartReceives(r: Receiver, a: Action)
    requires Enabled(r, a) && !a.ReceiverStarts?
    ensures Step(r, a).rt.task.Some? ==> Step(r, a).rt.task == r.rt.task
  {
  }

  lemma StartReceives(r: Receiver, id: nat)
    requires Inv(r) && IsAt(r, id, Attaching)
    ensures DoReceiverStarts(r, id).rt.task == if r.rt.sock == Some(id) then Some(id) else r.rt.task
  {
    hide SocketsOk, OwnerOk, L.IsPath;
  }

  // In every reachable state: a receive task begins exactly when the start() call comes to it
  // whose socket is still the attached one.
  lemma ReceivesExactly(before: seq<Action>, a: Action)
    requires Run(before).rt.task.None?
    ensures
      var r := Run(before);
      Next(r, a).rt.task.Some?
      <==> a.ReceiverStarts? && IsAt(r, a.id, Attaching) && r.rt.sock == Some(a.id)
  {
    RunFromKeepsInv(INITIAL, before);
    hide RunFrom, Inv, Step;
    var r := Run(before);
    if a.ReceiverStarts? && Enabled(r, a) {
      StartReceives(r, a.id);
      ReceiverStartsIs(r, a.id);
      hide DoReceiverStarts;
    } else if Enabled(r, a) {
      hide Enabled;
      OnlyStartReceives(r, a);
    }
  }

  lemma ReceiverStartsIs(r: Receiver, id: nat)
    requires IsAt(r, id, Attaching)
    ensures Next(r, ReceiverStarts(id)) == DoReceiverStarts(r, id)
  {
    hide DoReceiverStarts;
  }

  // ---- the handler-side publisher ----------------------------------------------------------------

  // In every state: a task is made for a close event exactly if one is due, no opened event
  // holds it and a handler is active, and it is gone after its one look.
  lemma PublisherLooksOnce(r: Receiver, a: Action)
    requires Enabled(r, a)
    ensures
      Step(r, a).publisher
      <==> (r.publisher && !a.PublisherLooks?)
           || (a.StopCloses? && r.owner.plan.closes && r.opening.None? && a.handlerActive)
  {
  }

  // ---- every start() call can end ---------------------------------------------------------------

  ghost predicate CanEnd(r: Receiver, id: nat) { exists acts :: id !in RunFrom(r, acts).starters.at }

  lemma NextCanEnd(r: Receiver, id: nat, a: Action)
    requires CanEnd(Next(r, a), id)
    ensures CanEnd(r, id)
  {
    hide Next, RunFrom;
    var acts :| id !in RunFrom(Next(r, a), acts).starters.at;
    RunCons(r, a, acts);
    assert id !in RunFrom(r, [a] + acts).starters.at;
  }

  // The call's next step, if it succeeds.
  function Onward(r: Receiver, id: nat): Action
    requires id in r.starters.at
  {
    match r.starters.at[id]
    case Announcing => RunningEmitted(id, false)
    case Delivering => OpenedHandled(id, true)
    case Looking => StarterLooks(id, true)
    case Failing => StarterLooks(id, true)
    case Clearing => OpeningCleared(id)
    case Attaching => ReceiverStarts(id)
  }

  function StageRank(g: Stage): nat {
    match g
    case Announcing => 0
    case Delivering => 3
    case Looking => 2
    case Failing => 2
    case Clearing => 1
    case Attaching => 1
  }

  lemma OnwardMoves(r: Receiver, id: nat)
    requires id in r.starters.at
    ensures Enabled(r, Onward(r, id))
    ensures
      var d := Step(r, Onward(r, id));
      id in d.starters.at ==> StageRank(d.starters.at[id]) < StageRank(r.starters.at[id])
  {
  }

  lemma {:induction false} CallCanEnd(r: Receiver, id: nat)
    ensures CanEnd(r, id)
    decreases if id in r.starters.at then StageRank(r.starters.at[id]) + 1 else 0
  {
    if id in r.starters.at {
      OnwardMoves(r, id);
      hide Step, Enabled, CanEnd, StageRank;
      CallCanEnd(Step(r, Onward(r, id)), id);
      NextCanEnd(r, id, Onward(r, id));
    } else {
      assert id !in RunFrom(r, []).starters.at;
    }
  }

  // ---- whether a stop publishes STOPPED ----------------------------------------------------------

  // Something that belongs to the stop under way fails: the publication of STOPPING or of
  // the close event, whoever makes it, or the teardown.
  predicate Hurts(r: Receiver, a: Action) {
    match a
    case StopAnnounces(ok) => !ok
    case StopTearsDown(outcome) => !outcome.TornDown?
    case StopCloses(handlerActive, ok) =>
      r.owner.Owner? && r.owner.plan.closes && r.opening.None? && !handlerActive && !ok
    case StarterLooks(_, ok) => CloseDeferred(r) && !ok
    case PublisherLooks(ok) => CloseDeferred(r) && !ok
    case _ => false
  }

  // Whether anything failed since the stop() call that owns the stop.
  function Hurt(r: Receiver, acts: seq<Action>, was: bool): bool
    decreases acts
  {
    if acts == [] then was
    else
      Hurt(Next(r, acts[0]), acts[1..],
           if !Enabled(r, acts[0]) then was
           else if acts[0].Stop? then false
           else was || Hurts(r, acts[0]))
  }

  predicate Remembers(r: Receiver, hurt: bool) { r.owner.Owner? ==> (r.owner.plan.failed <==> hurt) }

  lemma OwnerRemembers(r: Receiver, hurt: bool, a: Action)
    requires Remembers(r, hurt) && Enabled(r, a)
    requires a.StopAnnounces? || a.StopTearsDown? || a.StopBypasses? || a.HandlersUnwind? || a.StopCloses?
             || a.StopFinishes? || a.StopEnds?
    ensures Remembers(Step(r, a), hurt || Hurts(r, a))
  {
    hide L.Apply, L.Request;
  }

  lemma LookingRemembers(r: Receiver, hurt: bool, a: Action)
    requires Remembers(r, hurt) && Enabled(r, a) && (a.StarterLooks? || a.PublisherLooks?)
    ensures Remembers(Step(r, a), hurt || Hurts(r, a))
  {
    LookingIs(r, a);
    hide Step, Enabled;
  }

  lemma OtherRemembers(r: Receiver, hurt: bool, a: Action)
    requires Remembers(r, hurt) && Enabled(r, a)
    requires a.StartBegins? || a.StartingDelivered? || a.StartingFails? || a.RunningEmitted? || a.OpenedHandled?
             || a.OpeningCleared? || a.ReceiverStarts?
    ensures Step(r, a).owner == r.owner && !Hurts(r, a)
  {
    hide L.Apply, L.Request;
  }

  lemma StepRemembers(r: Receiver, hurt: bool, a: Action)
    requires Remembers(r, hurt) && Enabled(r, a)
    ensures Remembers(Step(r, a), if a.Stop? then false else hurt || Hurts(r, a))
  {
    if a.Stop? {
      hide L.Apply, L.Request;
    } else {
      hide Step, Enabled, Hurts;
      if a.StarterLooks? || a.PublisherLooks? {
        LookingRemembers(r, hurt, a);
      } else if a.StartBegins? || a.StartingDelivered? || a.StartingFails? || a.RunningEmitted? || a.OpenedHandled?
                || a.OpeningCleared? || a.ReceiverStarts? {
        OtherRemembers(r, hurt, a);
      } else {
        OwnerRemembers(r, hurt, a);
      }
    }
  }

  lemma {:induction false} RunRemembers(r: Receiver, acts: seq<Action>, was: bool)
    requires Remembers(r, was)
    ensures Remembers(RunFrom(r, acts), Hurt(r, acts, was))
    decreases acts
  {
    hide Remembers, Step, Enabled, Hurts;
    if acts != [] {
      if Enabled(r, acts[0]) {
        StepRemembers(r, was, acts[0]);
      }
      RunRemembers(Next(r, acts[0]), acts[1..],
                   if !Enabled(r, acts[0]) then was else if acts[0].Stop? then false else was || Hurts(r, acts[0]));
    }
  }

  // Over all runs: a stop that comes to its end applies STOPPED in any case, and publishes it
  // exactly if nothing has failed since it was called.
  lemma StoppedPublishedExactly(before: seq<Action>)
    requires Enabled(Run(before), StopFinishes)
    ensures
      var r := Run(before);
      var d := Next(r, StopFinishes);
      && d.track.state.Stopped?
      && d.log == r.log + if Hurt(INITIAL, before, false) then [] else [Life(L.Transition(L.Stopping, L.Stopped))]
  {
    var r := Run(before);
    RunFromKeepsInv(INITIAL, before);
    RunRemembers(INITIAL, before, false);
    StopFinishesIs(r);
    hide RunFrom, Hurt, Next, SocketsOk, L.IsPath;
    assert r.log + [] == r.log;
  }

  // ---- and its close event -----------------------------------------------------------------------

  // It is due only if nothing failed, and behind it the stop has nothing else to publish.
  predicate CloseOk(r: Receiver) {
    r.owner.Owner? ==>
      && (r.owner.phase.Close? || r.owner.phase.AwaitClose? ==> !r.owner.plan.failed)
      && (r.owner.deferred && !r.owner.phase.Finish? && !r.owner.phase.Ending? ==> !r.owner.plan.failed)
      && (r.owner.phase.Finish? && !r.owner.plan.failed && r.owner.plan.closes ==>
            EndsWithClose(r.log, r.owner.plan.previous))
  }

  predicate EndsWithClose(log: seq<Event>, previous: ConnectionState) {
    log != [] && log[|log| - 1] == ClosedEvent(previous)
  }

  lemma OwnerKeepsClose(r: Receiver, a: Action)
    requires CloseOk(r) && Enabled(r, a)
    requires a.Stop? || a.StopAnnounces? || a.StopTearsDown? || a.StopBypasses? || a.HandlersUnwind? || a.StopCloses?
             || a.StopFinishes? || a.StopEnds?
    ensures CloseOk(Step(r, a))
  {
    hide L.Apply, L.Request;
  }

  lemma LookedKeepsClose(r: Receiver, ok: bool)
    requires CloseOk(r)
    ensures CloseOk(Looked(r, ok))
  {
  }

  // While a stop has something left to do, no start() call publishes anything.
  lemma CallsKeepClose(r: Receiver, a: Action)
    requires Inv(r) && CloseOk(r) && Enabled(r, a)
    requires a.StartBegins? || a.StartingDelivered? || a.StartingFails? || a.RunningEmitted? || a.OpenedHandled?
             || a.OpeningCleared? || a.ReceiverStarts?
    ensures CloseOk(Step(r, a))
  {
    hide SocketsOk, L.IsPath, L.Apply;
    assert r.owner.Owner? && !r.owner.phase.Ending? ==> r.track.state.Stopping?;
  }

  lemma StepKeepsClose(r: Receiver, a: Action)
    requires Inv(r) && CloseOk(r) && Enabled(r, a)
    ensures CloseOk(Step(r, a))
  {
    if a.StarterLooks? || a.PublisherLooks? {
      LookingIs(r, a);
      LookedKeepsClose(r, a.ok);
      hide Inv, Step, Enabled, Looked;
    } else {
      hide Inv, CloseOk, Step, Enabled;
      if a.StartBegins? || a.StartingDelivered? || a.StartingFails? || a.RunningEmitted? || a.OpenedHandled?
         || a.OpeningCleared? || a.ReceiverStarts? {
        CallsKeepClose(r, a);
      } else {
        OwnerKeepsClose(r, a);
      }
    }
  }

  lemma {:induction false} RunKeepsClose(r: Receiver, acts: seq<Action>)
    requires Inv(r) && CloseOk(r)
    ensures CloseOk(RunFrom(r, acts))
    decreases acts
  {
    hide Inv, CloseOk, Step, Enabled;
    if acts != [] {
      if Enabled(r, acts[0]) {
        StepKeepsInv(r, acts[0]);
        StepKeepsClose(r, acts[0]);
      }
      RunKeepsClose(Next(r, acts[0]), acts[1..]);
    }
  }

  // Over all runs: a stop comes to its close event only if nothing failed since it was called,
  // and if nothing has failed when it comes to its end, the last thing published is the close
  // event it owed, if it owed one.
  lemma CloseEventUnlessHurt(before: seq<Action>)
    requires Run(before).owner.Owner?
    ensures
      var r := Run(before);
      && (Hurt(INITIAL, before, false) ==> !r.owner.phase.Close? && !r.owner.phase.AwaitClose?)
      && (!Hurt(INITIAL, before, false) && r.owner.phase.Finish? && r.owner.plan.closes ==>
            EndsWithClose(r.log, r.owner.plan.previous))
  {
    RunRemembers(INITIAL, before, false);
    RunKeepsClose(INITIAL, before);
    hide RunFrom, Hurt, EndsWithClose;
  }
}

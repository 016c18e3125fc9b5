// Every task of a connection can come to its end: the start() call, the handler-side
// publisher, and the close lifecycle unless nobody is left to tell it.

module TcpConnectionProgress {
  import opened Common
  import opened TcpConnectionSpec
  import opened TcpConnectionProofs
  import opened TcpConnectionTheorems
  import opened TcpConnectionWaiters

  datatype Task = StartCall | CloseLifecycle | HandlerPublisher

  predicate Over(c: Conn, t: Task) {
    match t
    case StartCall => c.starter.Idle? || c.starter.Finished?
    case CloseLifecycle => c.life.NoLife?
    case HandlerPublisher => c.publisher.NoPublisher?
  }

  // Some continuation, without cancelling tasks from outside, ends the task.
  ghost predicate Ends(c: Conn, t: Task, acts: seq<Action>) { NoKill(acts) && Over(RunFrom(c, acts), t) }

  ghost predicate CanEnd(c: Conn, t: Task) { exists acts :: Ends(c, t, acts) }

  lemma OverCanEnd(c: Conn, t: Task)
    requires Over(c, t)
    ensures CanEnd(c, t)
  {
    assert Ends(c, t, []);
  }

  lemma NextCanEnd(c: Conn, t: Task, a: Action)
    requires CanEnd(Next(c, a), t) && !Kills(a)
    ensures CanEnd(c, t)
  {
    hide Next, Over, Kills;
    var acts :| Ends(Next(c, a), t, acts);
    assert ([a] + acts)[0] == a && ([a] + acts)[1..] == acts;
    assert Ends(c, t, [a] + acts);
  }

  // ---- the publication under way ------------------------------------------------------------

  // Who awaits the publication task.
  predicate Awaits(c: Conn, t: Task) {
    match t
    case StartCall => c.starter.Settling? && c.starter.child.AwaitsEmission?
    case CloseLifecycle => c.life.AwaitsPublication?
    case HandlerPublisher => c.publisher.AwaitsEmission?
  }

  predicate IsTold(c: Conn, t: Task) {
    match t
    case StartCall => c.starter.Settling? && c.starter.child.Told?
    case CloseLifecycle => c.life.Informed?
    case HandlerPublisher => c.publisher.Told?
  }

  lemma AwaitedIsDue(c: Conn, t: Task)
    requires Inv(c) && Awaits(c, t)
    ensures !c.publication.NoPublication?
  {
  }

  lemma PublicationGoesOn(c: Conn, t: Task)
    requires Awaits(c, t) && !c.publication.NoPublication?
    ensures
      var a := PublicationStep(c.publication, true);
      && !Kills(a) && Enabled(c, a)
      && if c.publication.Marking? then IsTold(Step(c, a), t)
         else Awaits(Step(c, a), t) && PublicationLeft(Step(c, a).publication) < PublicationLeft(c.publication)
  {
    PublicationIs(c, true);
    hide Step, Enabled;
  }

  lemma {:induction false} AwaitingCanEnd(c: Conn, t: Task)
    requires Inv(c) && Awaits(c, t)
    ensures CanEnd(c, t)
    decreases PublicationLeft(c.publication)
  {
    hide Inv, Step, Enabled, Awaits, IsTold, CanEnd, Kills;
    var a := PublicationStep(c.publication, true);
    AwaitedIsDue(c, t);
    PublicationGoesOn(c, t);
    StepKeepsInv(c, a);
    if c.publication.Marking? {
      ToldCanEnd(Step(c, a), t);
    } else {
      AwaitingCanEnd(Step(c, a), t);
    }
    NextCanEnd(c, t, a);
  }

  lemma ToldCanEnd(c: Conn, t: Task)
    requires Inv(c) && IsTold(c, t)
    ensures CanEnd(c, t)
  {
    hide Inv, CanEnd, Next, Settle, DoCancelPublisher, EndLife;
    match t
    case StartCall => {
      ChildSettlesIs(c);
      SettledCanEnd(DoChildSettles(c));
      NextCanEnd(c, t, ChildSettles);
    }
    case CloseLifecycle => {
      LifeResumesIs(c);
      LifeHasEnded(c, c.life.ok && !c.life.cancelled);
      OverCanEnd(EndLife(c, c.life.ok && !c.life.cancelled), t);
      NextCanEnd(c, t, LifeResumes);
    }
    case HandlerPublisher => {
      PublisherSettlesIs(c);
      PublisherHasEnded(c);
      OverCanEnd(DoPublisherSettles(c), t);
      NextCanEnd(c, t, PublisherSettles);
    }
  }

  lemma LifeHasEnded(c: Conn, completed: bool)
    ensures EndLife(c, completed).life.NoLife?
  {
  }

  lemma PublisherHasEnded(c: Conn)
    requires c.publisher.Told?
    ensures DoPublisherSettles(c).publisher.NoPublisher?
  {
  }

  // ---- the start() call ---------------------------------------------------------------------

  lemma SettledCanEnd(c: Conn)
    requires c.starter.Settled?
    ensures CanEnd(c, StartCall)
  {
    StarterResumesIs(c, false);
    hide Next, CanEnd;
    OverCanEnd(DoStarterResumes(c, false), StartCall);
    NextCanEnd(c, StartCall, StarterResumes(false));
  }

  lemma SettlingCanEnd(c: Conn)
    requires Inv(c) && c.starter.Settling?
    ensures CanEnd(c, StartCall)
    decreases if c.starter.child.Claiming? then 1 else 0
  {
    ChildIsAtWork(c);
    match c.starter.child
    case Claiming => {
      ChildClaimsIs(c);
      ChildKeepsInv(c);
      hide Inv, Next, CanEnd;
      var d := DoChildClaims(c);
      if d.starter.Settled? {
        SettledCanEnd(d);
      } else {
        SettlingCanEnd(d);
      }
      NextCanEnd(c, StartCall, ChildClaims);
    }
    case Claimed(_) => {
      ChildFinalizesIs(c);
      ChildFinalizesKeepsInv(c);
      hide Inv, Next, CanEnd, Finalize, Settle;
      var d := DoChildFinalizes(c);
      if c.published {
        SettledCanEnd(d);
      } else {
        AwaitingCanEnd(d, StartCall);
      }
      NextCanEnd(c, StartCall, ChildFinalizes);
    }
    case AwaitsEmission(_) => AwaitingCanEnd(c, StartCall);
    case Told(_, _) => ToldCanEnd(c, StartCall);
  }

  lemma ChildIsAtWork(c: Conn)
    requires Inv(c) && c.starter.Settling?
    ensures !c.starter.child.NoPublisher? && !c.starter.child.WaitsForHandlers?
  {
  }

  lemma OpeningCanEnd(c: Conn)
    requires Inv(c) && c.starter.Opening?
    ensures CanEnd(c, StartCall)
    decreases !c.starter.phase.Handled?
  {
    hide Inv, CanEnd;
    if c.starter.phase.Handled? {
      OpeningResumesIs(c);
      StepKeepsInv(c, OpeningResumes);
      SettlingCanEnd(DoOpeningResumes(c));
      NextCanEnd(c, StartCall, OpeningResumes);
    } else {
      var a := OpenedSettles(false);
      StepKeepsInv(c, a);
      OpeningCanEnd(Step(c, a));
      NextCanEnd(c, StartCall, a);
    }
  }

  lemma StartCanEnd(c: Conn)
    requires Inv(c)
    ensures CanEnd(c, StartCall)
  {
    hide Inv, CanEnd;
    match c.starter
    case Idle => OverCanEnd(c, StartCall);
    case Finished => OverCanEnd(c, StartCall);
    case ReadyHook => {
      var a := ReadyReturns(false);
      StepKeepsInv(c, a);
      if c.state.Connected? {
        OpeningCanEnd(Step(c, a));
      } else {
        OverCanEnd(Step(c, a), StartCall);
      }
      NextCanEnd(c, StartCall, a);
    }
    case Opening(_) => OpeningCanEnd(c);
    case Settling(_, _) => SettlingCanEnd(c);
    case Settled(_, _) => SettledCanEnd(c);
  }

  // ---- the handler-side publisher -------------------------------------------------------------

  lemma ClaimedCanEnd(c: Conn)
    requires Inv(c) && c.publisher.Claimed?
    ensures CanEnd(c, HandlerPublisher)
  {
    PublisherFinalizesIs(c);
    PublisherFinalizesKeepsInv(c);
    hide Inv, Next, CanEnd, Finalize, Settle;
    if c.published {
      OverCanEnd(DoPublisherFinalizes(c), HandlerPublisher);
    } else {
      AwaitingCanEnd(DoPublisherFinalizes(c), HandlerPublisher);
    }
    NextCanEnd(c, HandlerPublisher, PublisherFinalizes);
  }

  lemma ClaimingCanEnd(c: Conn)
    requires Inv(c) && c.publisher.Claiming?
    ensures CanEnd(c, HandlerPublisher)
  {
    PublisherClaimsIs(c);
    PublisherClaimsKeepsInv(c);
    hide Inv, Next, CanEnd;
    if c.deferred {
      ClaimedCanEnd(DoPublisherClaims(c));
    } else {
      OverCanEnd(DoPublisherClaims(c), HandlerPublisher);
    }
    NextCanEnd(c, HandlerPublisher, PublisherClaims);
  }

  // The handlers of the connection return first.
  lemma WaitingCanEnd(c: Conn)
    requires Inv(c) && c.publisher.WaitsForHandlers?
    ensures CanEnd(c, HandlerPublisher)
    decreases c.handlers, c.starter == Opening(Handling)
  {
    hide Inv, CanEnd;
    if c.handlers > 0 {
      StepKeepsInv(c, HandlerLeaves);
      WaitingCanEnd(Step(c, HandlerLeaves));
      NextCanEnd(c, HandlerPublisher, HandlerLeaves);
    } else if c.starter == Opening(Handling) {
      StepKeepsInv(c, OpenedSettles(true));
      WaitingCanEnd(Step(c, OpenedSettles(true)));
      NextCanEnd(c, HandlerPublisher, OpenedSettles(true));
    } else {
      HandlersClearIs(c);
      StepKeepsInv(c, HandlersClear);
      ClaimingCanEnd(c.(publisher := Claiming));
      NextCanEnd(c, HandlerPublisher, HandlersClear);
    }
  }

  lemma PublisherCanEnd(c: Conn)
    requires Inv(c)
    ensures CanEnd(c, HandlerPublisher)
  {
    hide Inv, CanEnd;
    match c.publisher
    case NoPublisher => OverCanEnd(c, HandlerPublisher);
    case WaitsForHandlers => WaitingCanEnd(c);
    case Claiming => ClaimingCanEnd(c);
    case Claimed(_) => ClaimedCanEnd(c);
    case AwaitsEmission(_) => AwaitingCanEnd(c, HandlerPublisher);
    case Told(_, _) => ToldCanEnd(c, HandlerPublisher);
  }

  // ---- the close lifecycle -----------------------------------------------------------------------

  lemma FinalizingCanEnd(c: Conn)
    requires Inv(c) && c.life.Finalizing?
    ensures CanEnd(c, CloseLifecycle)
  {
    LifeFinalizesIs(c);
    LifeFinalizesKeepsInv(c);
    LifeHasEnded(c, !c.life.cancelled);
    hide Inv, Next, CanEnd, Finalize, EndLife;
    if c.published {
      OverCanEnd(DoLifeFinalizes(c), CloseLifecycle);
    } else {
      AwaitingCanEnd(DoLifeFinalizes(c), CloseLifecycle);
    }
    NextCanEnd(c, CloseLifecycle, LifeFinalizes);
  }

  // With a handler in flight the decision ends the lifecycle.
  lemma DecidingCanEnd(c: Conn)
    requires Inv(c) && c.life.Deciding?
    ensures CanEnd(c, CloseLifecycle)
  {
    var f := Facts(false, true, false);
    DecideIs(c, f);
    DecisionEndsLife(c);
    hide Inv, Next, CanEnd, DoDecide;
    OverCanEnd(DoDecide(c, f), CloseLifecycle);
    NextCanEnd(c, CloseLifecycle, Decide(f));
  }

  lemma DecisionEndsLife(c: Conn)
    requires c.life.Deciding?
    ensures DoDecide(c, Facts(false, true, false)).life.NoLife?
  {
  }

  lemma TearingDownCanEnd(c: Conn)
    requires Inv(c) && (c.life.Teardown? || c.life.Callback?)
    ensures CanEnd(c, CloseLifecycle)
    decreases c.life.Teardown?
  {
    hide Inv, CanEnd;
    if c.life.Teardown? {
      TeardownSocketIs(c);
      StepKeepsInv(c, TeardownSocket);
      TearingDownCanEnd(DoTeardownSocket(c));
      NextCanEnd(c, CloseLifecycle, TeardownSocket);
    } else {
      RunCallbackIs(c);
      StepKeepsInv(c, RunCallback);
      DecidingCanEnd(DoRunCallback(c));
      NextCanEnd(c, CloseLifecycle, RunCallback);
    }
  }

  lemma HelpedCanEnd(c: Conn)
    requires Inv(c) && Awaiting(c) && Helped(c)
    ensures CanEnd(c, CloseLifecycle)
    decreases HelpLeft(c)
  {
    hide Inv, Helped, HelpLeft, Enabled, Step, HelpStep, Kills, CanEnd, EndLife;
    var a := HelpStep(c);
    HelpProgresses(c);
    StepKeepsInv(c, a);
    HelpTellsOnly(c, a);
    var d := Step(c, a);
    if Awaiting(d) {
      HelpedCanEnd(d);
    } else {
      ToldCanEnd(d, CloseLifecycle);
    }
    NextCanEnd(c, CloseLifecycle, a);
  }

  lemma HelpTellsOnly(c: Conn, a: Action)
    requires Awaiting(c) && Enabled(c, a) && !Kills(a)
    ensures Awaiting(Step(c, a)) || Step(c, a).life.Informed?
  {
    if OfStarter(a) {
      StarterOnlyInforms(c, a);
      hide Step, Enabled;
    } else if !OfLife(a) {
      PublishersOnlyInform(c, a);
      hide Step, Enabled;
    }
  }

  lemma LifeCanEnd(c: Conn)
    requires Inv(c) && !Stranded(c)
    ensures CanEnd(c, CloseLifecycle)
  {
    hide Inv, CanEnd, Helped;
    match c.life
    case NoLife => OverCanEnd(c, CloseLifecycle);
    case Teardown(_) => TearingDownCanEnd(c);
    case Callback(_) => TearingDownCanEnd(c);
    case Deciding(_, _) => DecidingCanEnd(c);
    case AwaitsWaiter(_, _) => HelpedCanEnd(c);
    case Finalizing(_) => FinalizingCanEnd(c);
    case AwaitsPublication(_) => AwaitingCanEnd(c, CloseLifecycle);
    case Informed(_, _) => ToldCanEnd(c, CloseLifecycle);
  }

  // In every reachable state, whatever has failed on the way: the start() call and the
  // handler-side publisher can come to their ends, and the close lifecycle can exactly if
  // it does not wait with nobody left to tell it.
  lemma TasksCanEndExactly(acts: seq<Action>)
    ensures
      var c := Run(acts);
      CanEnd(c, StartCall) && CanEnd(c, HandlerPublisher) && (CanEnd(c, CloseLifecycle) <==> !Stranded(c))
  {
    StartIsQuiet();
    RunKeepsInv(INITIAL, acts);
    hide Inv, Quiet, RunFrom, Helped;
    var c := Run(acts);
    StartCanEnd(c);
    PublisherCanEnd(c);
    if Stranded(c) {
      forall more
        ensures !Ends(c, CloseLifecycle, more)
      {
        if NoKill(more) {
          RunStaysStranded(c, more);
        }
      }
    } else {
      LifeCanEnd(c);
    }
  }

  // ---- which close completes ---------------------------------------------------------------------

  // A lifecycle that was cancelled in its teardown goes on, and remembers it.
  predicate Remembers(l: Life) {
    match l
    case Deciding(_, cancelled) => cancelled
    case AwaitsWaiter(cancelled, _) => cancelled
    case Finalizing(cancelled) => cancelled
    case AwaitsPublication(cancelled) => cancelled
    case Informed(cancelled, _) => cancelled
    case _ => false
  }

  predicate InterruptedBy(c: Conn, a: Action, was: bool) {
    if a.Close? && c.life.NoLife? then false else was || (a.CancelTeardown? && Enabled(c, a))
  }

  // Whether the lifecycle under way was cancelled since the close() that began it.
  function Interrupted(c: Conn, acts: seq<Action>, was: bool): bool
    decreases acts
  {
    if acts == [] then was else Interrupted(Next(c, acts[0]), acts[1..], InterruptedBy(c, acts[0], was))
  }

  predicate Follows(c: Conn, interrupted: bool) { !c.life.NoLife? ==> (Remembers(c.life) <==> interrupted) }

  lemma LifeFollows(c: Conn, a: Action, was: bool)
    requires Follows(c, was) && Enabled(c, a) && OfLife(a)
    ensures Follows(Step(c, a), InterruptedBy(c, a, was))
  {
  }

  lemma OthersFollow(c: Conn, a: Action, was: bool)
    requires Follows(c, was) && Enabled(c, a) && !OfLife(a)
    ensures Follows(Step(c, a), InterruptedBy(c, a, was))
  {
    hide Step, Enabled;
    OthersOnlyInform(c, a);
  }

  lemma OthersOnlyInform(c: Conn, a: Action)
    requires Enabled(c, a) && !OfLife(a)
    ensures OnlyInforms(c, Step(c, a))
  {
    hide Step, Enabled, OnlyInforms;
    if OfStarter(a) {
      StarterOnlyInforms(c, a);
    } else {
      PublishersOnlyInform(c, a);
    }
  }

  lemma {:induction false} RunFollows(c: Conn, acts: seq<Action>, was: bool)
    requires Follows(c, was)
    ensures Follows(RunFrom(c, acts), Interrupted(c, acts, was))
    decreases acts
  {
    hide Follows, Step;
    if acts != [] {
      var a := acts[0];
      if Enabled(c, a) {
        if OfLife(a) {
          LifeFollows(c, a, was);
        } else {
          OthersFollow(c, a, was);
        }
      } else {
        assert InterruptedBy(c, a, was) == was;
      }
      RunFollows(Next(c, a), acts[1..], InterruptedBy(c, a, was));
    }
  }

  predicate Succeeds(c: Conn, a: Action) {
    if a.LifeFinalizes? then c.life.Finalizing? && c.published else a.LifeResumes? && c.life.Informed? && c.life.ok
  }

  lemma EndingCompletes(c: Conn, a: Action)
    requires Enabled(c, a) && (a.LifeFinalizes? || a.LifeResumes?)
    ensures
      Step(c, a).hist.closesCompleted
      == c.hist.closesCompleted + if Succeeds(c, a) && !Remembers(c.life) then 1 else 0
  {
  }

  lemma NothingElseCompletes(c: Conn, a: Action)
    requires Enabled(c, a) && OfLife(a) && !a.LifeFinalizes? && !a.LifeResumes?
    ensures Step(c, a).hist.closesCompleted == c.hist.closesCompleted
  {
  }

  lemma SucceedsAlive(c: Conn, a: Action)
    requires Enabled(c, a) && (a.LifeFinalizes? || a.LifeResumes?)
    ensures !c.life.NoLife?
  {
  }

  // In every reachable state: a close lifecycle completes normally exactly if it finds the
  // close event published, or is told so, and was not cancelled in its teardown; a
  // cancellation is kept until then.
  lemma CompletesExactly(before: seq<Action>, a: Action)
    requires Enabled(Run(before), a)
    ensures
      var c := Run(before);
      Next(c, a).hist.closesCompleted
      == c.hist.closesCompleted + if Succeeds(c, a) && !Interrupted(INITIAL, before, false) then 1 else 0
  {
    RunFollows(INITIAL, before, false);
    var c := Run(before);
    hide RunFrom, Step, Enabled, Interrupted, Remembers;
    if !OfLife(a) {
      OthersOnlyInform(c, a);
    } else if a.LifeFinalizes? || a.LifeResumes? {
      SucceedsAlive(c, a);
      EndingCompletes(c, a);
    } else {
      NothingElseCompletes(c, a);
    }
  }
}

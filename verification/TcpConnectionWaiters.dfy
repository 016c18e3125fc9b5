// Who waits for the deferred close event, and whether anybody can still tell them.
//
// A close lifecycle that deferred its event awaits a waiter.  It can be told by the
// publisher that start() awaits and by the handler-side one.  This module says exactly
// when one of them still can, and which actions leave a lifecycle to wait for ever.

module TcpConnectionWaiters {
  import opened Common
  import opened TcpConnectionSpec
  import opened TcpConnectionProofs
  import opened TcpConnectionTheorems

  // ---- who can tell a waiting lifecycle ------------------------------------------------

  predicate Awaiting(c: Conn) { c.life.AwaitsWaiter? }

  // A publisher that has claimed the waiter `w`.
  predicate HoldsFor(p: Publisher, w: nat) { Holding(p) && p.settles == Some(w) }

  predicate ChildHoldsFor(c: Conn, w: nat) { c.starter.Settling? && HoldsFor(c.starter.child, w) }

  // The deferral is up and somebody is going to take it, with the current waiter.
  predicate WillBeClaimed(c: Conn) { c.deferred && (StarterWillLook(c) || PublisherWillLook(c)) }

  // The handler-side publisher works for another waiter and may fail yet: then it
  // fails the current waiter too.
  predicate MayFailOver(c: Conn) {
    match c.publisher
    case Claimed(_) => !c.published && c.publication != Marking(true)
    case AwaitsEmission(_) => c.publication != Marking(true)
    case Told(_, ok) => !ok
    case _ => false
  }

  predicate Helped(c: Conn)
    requires Awaiting(c)
  {
    var w := c.life.awaited;
    ChildHoldsFor(c, w) || HoldsFor(c.publisher, w) || WillBeClaimed(c) || MayFailOver(c)
  }

  predicate Stranded(c: Conn) { Awaiting(c) && !Helped(c) }

  // A task of the connection is cancelled from outside, as when the loop shuts down.
  predicate Kills(a: Action) { a.LifeRaises? || a.CancelPublisher? }

  predicate NoKill(acts: seq<Action>) { forall a :: a in acts ==> !Kills(a) }

  // ---- nobody left: it stays that way -------------------------------------------------------

  lemma LifeStaysStranded(c: Conn, a: Action)
    requires Inv(c) && Stranded(c) && Enabled(c, a) && !Kills(a) && OfLife(a)
    ensures Stranded(Step(c, a))
  {
    hide ReportsOk, TeardownOk;
  }

  lemma StarterStaysStranded(c: Conn, a: Action)
    requires Inv(c) && Stranded(c) && Enabled(c, a) && OfStarter(a) && !OfChild(a)
    ensures Stranded(Step(c, a))
  {
    hide ReportsOk, TeardownOk;
  }

  lemma ChildStaysStranded(c: Conn, a: Action)
    requires Inv(c) && Stranded(c) && Enabled(c, a) && OfChild(a)
    ensures Stranded(Step(c, a))
  {
    hide ReportsOk, TeardownOk;
  }

  lemma PublishersStayStranded(c: Conn, a: Action)
    requires Inv(c) && Stranded(c) && Enabled(c, a) && !Kills(a) && !OfLife(a) && !OfStarter(a)
    ensures Stranded(Step(c, a))
  {
    hide ReportsOk, TeardownOk;
  }

  lemma StepStaysStranded(c: Conn, a: Action)
    requires Inv(c) && Stranded(c) && Enabled(c, a) && !Kills(a)
    ensures Stranded(Step(c, a))
  {
    hide Inv, Stranded, Enabled, Step;
    if OfLife(a) {
      LifeStaysStranded(c, a);
    } else if OfChild(a) {
      ChildStaysStranded(c, a);
    } else if OfStarter(a) {
      StarterStaysStranded(c, a);
    } else {
      PublishersStayStranded(c, a);
    }
  }

  lemma {:induction false} RunStaysStranded(c: Conn, acts: seq<Action>)
    requires Inv(c) && Stranded(c) && NoKill(acts)
    ensures Stranded(RunFrom(c, acts))
    decreases acts
  {
    hide Inv, Stranded, Enabled, Step, Kills;
    if acts != [] {
      if Enabled(c, acts[0]) {
        StepKeepsInv(c, acts[0]);
        StepStaysStranded(c, acts[0]);
      }
      RunStaysStranded(Next(c, acts[0]), acts[1..]);
    }
  }

  // ---- somebody left: the next thing to happen -----------------------------------------------

  // The publication task's next action, with the outcome `ok` if it has a choice.
  function PublicationStep(p: Publication, ok: bool): Action {
    match p
    case NoPublication => HandlerEnters
    case Ready(_) => EmitBegins
    case Emitting(_) => EmitReturns(ok)
    case Marking(_) => MarkPublication
  }

  // The next action on the way to telling the lifecycle.
  function HelpStep(c: Conn): Action
    requires Awaiting(c)
  {
    var w := c.life.awaited;
    if ChildHoldsFor(c, w) then
      match c.starter.child
      case Claimed(_) => ChildFinalizes
      case Told(_, _) => ChildSettles
      case _ => PublicationStep(c.publication, true)
    else if HoldsFor(c.publisher, w) || (MayFailOver(c) && !WillBeClaimed(c)) then
      match c.publisher
      case Claimed(_) => PublisherFinalizes
      case Told(_, _) => PublisherSettles
      case _ => PublicationStep(c.publication, HoldsFor(c.publisher, w))
    else if c.starter.Opening? then if c.starter.phase.Handled? then OpeningResumes else OpenedSettles(false)
    else if StarterWillLook(c) then ChildClaims
    else if c.publisher.Claiming? then PublisherClaims
    else if c.handlers > 0 then HandlerLeaves
    else HandlersClear
  }

  function PublicationLeft(p: Publication): nat {
    match p
    case NoPublication => 0
    case Ready(_) => 3
    case Emitting(_) => 2
    case Marking(_) => 1
  }

  function PublisherLeft(p: Publisher): nat {
    match p
    case Claimed(_) => 6
    case AwaitsEmission(_) => 2
    case Told(_, _) => 1
    case _ => 0
  }

  // How many such actions are left at most.
  function HelpLeft(c: Conn): nat
    requires Awaiting(c)
  {
    var w := c.life.awaited;
    PublicationLeft(c.publication)
    + (if ChildHoldsFor(c, w) then PublisherLeft(c.starter.child)
       else if HoldsFor(c.publisher, w) || (MayFailOver(c) && !WillBeClaimed(c)) then PublisherLeft(c.publisher)
       else if c.starter.Opening? then if c.starter.phase.Handled? then 21 else 22
       else if StarterWillLook(c) then 20
       else if c.publisher.Claiming? then 20
       else 21 + c.handlers)
  }

  predicate CloserToTold(c: Conn, d: Conn)
    requires Awaiting(c)
  {
    Awaiting(d) ==> Helped(d) && HelpLeft(d) < HelpLeft(c)
  }

  lemma ChildHelps(c: Conn)
    requires Inv(c) && Awaiting(c) && ChildHoldsFor(c, c.life.awaited)
    ensures !Kills(HelpStep(c)) && Enabled(c, HelpStep(c)) && CloserToTold(c, Step(c, HelpStep(c)))
  {
    hide ReportsOk, StarterOk, TeardownOk, Step, Enabled;
    match c.starter.child
    case Claimed(_) => ChildFinalizesIs(c);
    case Told(_, _) => ChildSettlesIs(c);
    case _ => PublicationIs(c, true);
  }

  lemma PublicationIs(c: Conn, ok: bool)
    requires !c.publication.NoPublication?
    ensures
      var a := PublicationStep(c.publication, ok);
      && Enabled(c, a)
      && Step(c, a) == match c.publication { case Ready(_) => DoEmitBegins(c) case Emitting(_) => DoEmitReturns(c, ok)
                                             case Marking(_) => DoMarkPublication(c) }
  {
    hide DoEmitBegins, DoEmitReturns, DoMarkPublication;
  }

  lemma PublisherHelps(c: Conn)
    requires Inv(c) && Awaiting(c) && !ChildHoldsFor(c, c.life.awaited) && HoldsFor(c.publisher, c.life.awaited)
    ensures !Kills(HelpStep(c)) && Enabled(c, HelpStep(c)) && CloserToTold(c, Step(c, HelpStep(c)))
  {
    hide ReportsOk, StarterOk, TeardownOk, Step, Enabled;
    match c.publisher
    case Claimed(_) => PublisherFinalizesIs(c);
    case Told(_, _) => PublisherSettlesIs(c);
    case _ => PublicationIs(c, true);
  }

  lemma FailingOverHelps(c: Conn)
    requires Inv(c) && Awaiting(c) && !ChildHoldsFor(c, c.life.awaited) && !HoldsFor(c.publisher, c.life.awaited)
    requires MayFailOver(c) && !WillBeClaimed(c)
    ensures !Kills(HelpStep(c)) && Enabled(c, HelpStep(c)) && CloserToTold(c, Step(c, HelpStep(c)))
  {
    hide ReportsOk, StarterOk, TeardownOk, Step, Enabled;
    match c.publisher
    case Claimed(_) => PublisherFinalizesIs(c);
    case Told(_, _) => PublisherSettlesIs(c);
    case _ => PublicationIs(c, false);
  }

  lemma StarterClaimHelps(c: Conn)
    requires Inv(c) && Awaiting(c) && !ChildHoldsFor(c, c.life.awaited) && !HoldsFor(c.publisher, c.life.awaited)
    requires c.deferred && StarterWillLook(c)
    ensures !Kills(HelpStep(c)) && Enabled(c, HelpStep(c)) && CloserToTold(c, Step(c, HelpStep(c)))
  {
    hide ReportsOk, TeardownOk;
    assert WillBeClaimed(c);
  }

  lemma PublisherClaimHelps(c: Conn)
    requires Inv(c) && Awaiting(c) && !ChildHoldsFor(c, c.life.awaited) && !HoldsFor(c.publisher, c.life.awaited)
    requires c.deferred && !StarterWillLook(c) && PublisherWillLook(c)
    ensures !Kills(HelpStep(c)) && Enabled(c, HelpStep(c)) && CloserToTold(c, Step(c, HelpStep(c)))
  {
    hide ReportsOk, TeardownOk;
    assert WillBeClaimed(c);
  }

  lemma HelpProgresses(c: Conn)
    requires Inv(c) && Awaiting(c) && Helped(c)
    ensures !Kills(HelpStep(c)) && Enabled(c, HelpStep(c)) && CloserToTold(c, Step(c, HelpStep(c)))
  {
    hide Inv, Enabled, Step, HelpStep, CloserToTold;
    var w := c.life.awaited;
    if ChildHoldsFor(c, w) {
      ChildHelps(c);
    } else if HoldsFor(c.publisher, w) {
      PublisherHelps(c);
    } else if WillBeClaimed(c) {
      if StarterWillLook(c) {
        StarterClaimHelps(c);
      } else {
        PublisherClaimHelps(c);
      }
    } else {
      FailingOverHelps(c);
    }
  }

  // The help taken to its end.
  lemma {:induction false} HelpArrives(c: Conn) returns (acts: seq<Action>)
    requires Inv(c) && Awaiting(c) && Helped(c)
    ensures NoKill(acts) && !Awaiting(RunFrom(c, acts))
    decreases HelpLeft(c)
  {
    hide Inv, Helped, HelpLeft, Enabled, Step, HelpStep, Kills;
    var a := HelpStep(c);
    HelpProgresses(c);
    StepKeepsInv(c, a);
    var d := Step(c, a);
    if Awaiting(d) {
      var rest := HelpArrives(d);
      acts := [a] + rest;
      assert acts[0] == a && acts[1..] == rest;
    } else {
      acts := [a];
      assert acts[1..] == [];
    }
  }

  // ---- the promises --------------------------------------------------------------------------

  // Some continuation, without cancelling tasks from outside, tells the lifecycle.
  ghost predicate CanBeTold(c: Conn) { exists acts :: NoKill(acts) && !Awaiting(RunFrom(c, acts)) }

  // In every reachable state: a lifecycle that awaits the waiter can still be told
  // exactly if the starter's or the handler-side publisher holds its waiter, will
  // claim it, or works for an earlier one and may fail.
  lemma ToldExactlyIfHelped(before: seq<Action>)
    requires Awaiting(Run(before))
    ensures CanBeTold(Run(before)) <==> Helped(Run(before))
  {
    var c := Run(before);
    RunKeepsInv(INITIAL, before);
    hide Inv, Helped, RunFrom;
    if Helped(c) {
      var acts := HelpArrives(c);
      assert NoKill(acts) && !Awaiting(RunFrom(c, acts));
    } else {
      forall acts | NoKill(acts)
        ensures Awaiting(RunFrom(c, acts))
      {
        RunStaysStranded(c, acts);
      }
    }
  }

  // ---- how a lifecycle gets there ------------------------------------------------------------

  // The decision of the lifecycle task makes it wait while nobody is left to tell it:
  // nobody will take the deferral it raises, or holds the waiter it joins, or may
  // fail over to it.
  predicate DecidesAlone(c: Conn, f: Facts)
    requires c.life.Deciding?
  {
    var o := c.life.origin;
    var w := FreshWaiter(c.waiter, c.nextWaiter).id;
    var p := if !c.opening && f.activeInline then FreshPublisher(c.publisher) else c.publisher;
    && Defers(c, o, f) && !HandlerSide(c, o, f)
    && !StarterWillLook(c) && !p.WaitsForHandlers? && !p.Claiming?
    && !ChildHoldsFor(c, w) && !HoldsFor(p, w) && !MayFailOver(c.(publisher := p))
  }

  // The one publication that might have failed succeeds.
  predicate SucceedsForOthers(c: Conn) {
    Awaiting(c) && c.publication.Emitting?
    && !ChildHoldsFor(c, c.life.awaited) && !HoldsFor(c.publisher, c.life.awaited) && !WillBeClaimed(c)
    && !(c.publisher.Told? && !c.publisher.ok)
  }

  predicate StrandsWaiter(c: Conn, a: Action) {
    match a
    case Decide(f) => c.life.Deciding? && DecidesAlone(c, f)
    case EmitReturns(ok) => ok && SucceedsForOthers(c)
    case _ => false
  }

  lemma DecideStrandsExactly(c: Conn, f: Facts)
    requires Inv(c) && c.life.Deciding?
    ensures Stranded(DoDecide(c, f)) <==> DecidesAlone(c, f)
  {
    hide ReportsOk, TeardownOk, StarterOk;
  }

  lemma EmissionStrandsExactly(c: Conn, ok: bool)
    requires Inv(c) && !Stranded(c) && c.publication.Emitting?
    ensures Stranded(DoEmitReturns(c, ok)) <==> ok && SucceedsForOthers(c)
  {
    hide ReportsOk, TeardownOk, StarterOk;
  }

  lemma OtherLifeDoesNotStrand(c: Conn, a: Action)
    requires Inv(c) && !Stranded(c) && Enabled(c, a) && OfLife(a) && !a.Decide?
    ensures !Stranded(Step(c, a))
  {
    hide ReportsOk, TeardownOk, StarterOk;
  }

  lemma StarterDoesNotStrand(c: Conn, a: Action)
    requires Inv(c) && !Stranded(c) && Enabled(c, a) && OfStarter(a) && !OfChild(a)
    ensures !Stranded(Step(c, a))
  {
    hide ReportsOk, TeardownOk;
  }

  lemma ChildDoesNotStrand(c: Conn, a: Action)
    requires Inv(c) && !Stranded(c) && Enabled(c, a) && OfChild(a)
    ensures !Stranded(Step(c, a))
  {
    hide ReportsOk, TeardownOk;
  }

  lemma OtherPublisherDoesNotStrand(c: Conn, a: Action)
    requires Inv(c) && !Stranded(c) && Enabled(c, a) && !OfLife(a) && !OfStarter(a) && !a.EmitReturns?
    ensures !Stranded(Step(c, a))
  {
    hide ReportsOk, TeardownOk, StarterOk;
  }

  lemma StrandsExactly(c: Conn, a: Action)
    requires Inv(c) && !Stranded(c) && Enabled(c, a)
    ensures Stranded(Step(c, a)) <==> StrandsWaiter(c, a)
  {
    hide Inv, Stranded, DecidesAlone, SucceedsForOthers, DoDecide, DoEmitReturns;
    match a
    case Decide(f) => DecideStrandsExactly(c, f);
    case EmitReturns(ok) => EmissionStrandsExactly(c, ok);
    case _ => {
      hide Step, Enabled;
      if OfLife(a) {
        OtherLifeDoesNotStrand(c, a);
      } else if OfChild(a) {
        ChildDoesNotStrand(c, a);
      } else if OfStarter(a) {
        StarterDoesNotStrand(c, a);
      } else {
        OtherPublisherDoesNotStrand(c, a);
      }
    }
  }

  // From outside nobody ends the wait: no task of it is cancelled where that counts.
  ghost predicate Untouched(c: Conn, acts: seq<Action>)
    decreases acts
  {
    acts == [] || (!(Kills(acts[0]) && Enabled(c, acts[0])) && Untouched(Next(c, acts[0]), acts[1..]))
  }

  // The action at `i` strands the lifecycle, and nobody ends its wait from outside.
  ghost predicate StrandsAt(c: Conn, acts: seq<Action>, i: int) {
    && 0 <= i < |acts|
    && Enabled(RunFrom(c, acts[..i]), acts[i]) && StrandsWaiter(RunFrom(c, acts[..i]), acts[i])
    && Untouched(Next(RunFrom(c, acts[..i]), acts[i]), acts[i + 1..])
  }

  lemma RunSplits(c: Conn, acts: seq<Action>, i: nat)
    requires i < |acts|
    ensures RunFrom(c, acts) == RunFrom(Next(RunFrom(c, acts[..i]), acts[i]), acts[i + 1..])
  {
    hide Next, RunFrom;
    assert acts == acts[..i] + ([acts[i]] + acts[i + 1..]);
    RunConcat(c, acts[..i], [acts[i]] + acts[i + 1..]);
    RunConcat(RunFrom(c, acts[..i]), [acts[i]], acts[i + 1..]);
    RunOne(RunFrom(c, acts[..i]), acts[i]);
  }

  // Cancelling the lifecycle task or its publisher ends the wait.
  lemma KillingEndsWait(c: Conn, a: Action)
    requires Inv(c) && Stranded(c) && Enabled(c, a) && Kills(a)
    ensures !Stranded(Step(c, a))
  {
    hide ReportsOk, PublicationOk, StarterOk, TeardownOk, Helped;
  }

  // A stranded lifecycle stays so exactly as long as nobody ends its wait from outside.
  lemma {:induction false} UntouchedStaysStranded(c: Conn, acts: seq<Action>)
    requires Inv(c) && Stranded(c) && Untouched(c, acts)
    ensures Stranded(RunFrom(c, acts))
    decreases acts
  {
    hide Inv, Stranded, Enabled, Step, Kills;
    if acts != [] {
      if Enabled(c, acts[0]) {
        StepKeepsInv(c, acts[0]);
        StepStaysStranded(c, acts[0]);
      }
      UntouchedStaysStranded(Next(c, acts[0]), acts[1..]);
    }
  }

  lemma StrandedAfter(c: Conn, acts: seq<Action>, i: int)
    requires Inv(c) && StrandsAt(c, acts, i)
    ensures Stranded(RunFrom(c, acts))
  {
    hide Inv, Stranded, Enabled, Step, RunFrom, StrandsWaiter, Kills, Untouched;
    var d := RunFrom(c, acts[..i]);
    RunKeepsInv(c, acts[..i]);
    StepKeepsInv(d, acts[i]);
    RunSplits(c, acts, i);
    StrandingStrands(d, acts[i]);
    UntouchedStaysStranded(Step(d, acts[i]), acts[i + 1..]);
  }

  lemma StrandingStrands(c: Conn, a: Action)
    requires Inv(c) && Enabled(c, a) && StrandsWaiter(c, a)
    ensures Stranded(Step(c, a))
  {
    hide Inv, Stranded, Enabled, Step, DecidesAlone, SucceedsForOthers;
    if Stranded(c) {
      assert !Kills(a);
      StepStaysStranded(c, a);
    } else {
      StrandsExactly(c, a);
    }
  }

  // Seen from its end: the run was stranded from some action on, or all along.
  lemma {:induction false} StrandedSince(c: Conn, acts: seq<Action>)
    requires Inv(c) && Stranded(RunFrom(c, acts))
    ensures (Stranded(c) && Untouched(c, acts)) || exists i :: StrandsAt(c, acts, i)
    decreases acts
  {
    if acts != [] {
      hide Inv, Stranded, Enabled, Step, StrandsWaiter, Kills;
      var a, d := acts[0], Next(c, acts[0]);
      if Enabled(c, a) {
        StepKeepsInv(c, a);
      }
      StrandedSince(d, acts[1..]);
      if i :| StrandsAt(d, acts[1..], i) {
        assert acts[..i + 1][0] == acts[0] && acts[..i + 1][1..] == acts[1..][..i];
        assert acts[1..][i + 1..] == acts[i + 2..];
        assert StrandsAt(c, acts, i + 1);
      } else if Enabled(c, a) {
        FirstAction(c, acts);
      }
    }
  }

  lemma FirstAction(c: Conn, acts: seq<Action>)
    requires acts != [] && Inv(c) && Enabled(c, acts[0]) && Stranded(Step(c, acts[0]))
    requires Untouched(Step(c, acts[0]), acts[1..])
    ensures (Stranded(c) && Untouched(c, acts)) || StrandsAt(c, acts, 0)
  {
    hide Inv, Stranded, Enabled, Step, StrandsWaiter, Kills;
    var a := acts[0];
    if Stranded(c) {
      if Kills(a) {
        KillingEndsWait(c, a);
      }
    } else {
      StrandsExactly(c, a);
      assert acts[..0] == [];
    }
  }

  // Over all runs: a lifecycle waits with nobody left to tell it exactly if one of the
  // two actions was taken in a state where its guard held, and since then no task of the
  // wait was cancelled from outside.
  lemma WaitsForEverExactly(acts: seq<Action>)
    ensures Stranded(Run(acts)) <==> exists i :: StrandsAt(INITIAL, acts, i)
  {
    StartIsQuiet();
    assert !Stranded(INITIAL);
    hide Inv, Helped, RunFrom, StrandsWaiter, Enabled, Untouched;
    if Stranded(Run(acts)) {
      StrandedSince(INITIAL, acts);
    }
    if i :| StrandsAt(INITIAL, acts, i) {
      StrandedAfter(INITIAL, acts, i);
    }
  }

  // ---- two runs that get there ------------------------------------------------------------------

  // The opened event fails, the starter's publisher looks too early, and the close
  // then defers to it.
  lemma DeferredAfterTheLook()
    ensures Stranded(Run(STRANDING + STRANDED_CLOSE)) && NoKill(STRANDING + STRANDED_CLOSE)
  {
    hide RunFrom;
    StrandingRunGetsStuck();
  }

  const FAILED_OPENING := [Start, ReadyReturns(false), OpenedSettles(false), OpeningResumes]
  const HANDLER_CLOSES := [Close(false, false), TeardownSocket, RunCallback, Decide(IN_HANDLER)]
  const CLAIMED_WHILE_CLOSING := [Close(false, false), ChildClaims, ChildFinalizes, EmitBegins]
  const PUBLISHED_BEFORE_DECIDING := [EmitReturns(true), MarkPublication, ChildSettles, Decide(NO_HANDLER)]
  const IN_HANDLER := Facts(false, true, false)

  const OPENING_FAILS := INITIAL.(state := Connected, opening := true, starter := Settling(true, Claiming),
                                  hist := INITIAL.hist.(openedEmits := 1))

  const HANDLER_DEFERRED :=
    OPENING_FAILS.(state := Closed, previous := Some(Connected), deferred := true, waiter := Pending(0),
                   nextWaiter := 1,
                   hist := History(Some(Connected), 0, 1, 0, 1, 1, 1, 0, 1, 0, []))

  const EMITTING_CLOSED :=
    HANDLER_DEFERRED.(deferred := false, life := Deciding(Origin(false, false), false),
                      starter := Settling(true, AwaitsEmission(Some(0))), publication := Emitting(Connected),
                      hist := History(Some(Connected), 1, 1, 1, 1, 1, 1, 0, 1, 1, []))

  lemma OpeningFailsFirst()
    ensures RunFrom(INITIAL, FAILED_OPENING) == OPENING_FAILS
  {
    RunFour(INITIAL, Start, ReadyReturns(false), OpenedSettles(false), OpeningResumes);
  }

  lemma HandlerCloses()
    ensures RunFrom(OPENING_FAILS, HANDLER_CLOSES) == HANDLER_DEFERRED
  {
    var c := OPENING_FAILS;
    RunFour(c, Close(false, false), TeardownSocket, RunCallback, Decide(IN_HANDLER));
    hide Next, RunFrom;
    var c1 := DoClose(c, false, false);
    var c2 := DoTeardownSocket(c1);
    var c3 := DoRunCallback(c2);
    CloseIs(c, false, false);
    TeardownSocketIs(c1);
    RunCallbackIs(c2);
    DecideIs(c3, IN_HANDLER);
    assert DoDecide(c3, IN_HANDLER) == HANDLER_DEFERRED;
  }

  lemma StarterTakesTheFirstDeferral()
    ensures RunFrom(HANDLER_DEFERRED, CLAIMED_WHILE_CLOSING) == EMITTING_CLOSED
  {
    var c := HANDLER_DEFERRED;
    RunFour(c, Close(false, false), ChildClaims, ChildFinalizes, EmitBegins);
    hide Next, RunFrom;
    var c1 := DoClose(c, false, false);
    var c2 := DoChildClaims(c1);
    var c3 := DoChildFinalizes(c2);
    CloseIs(c, false, false);
    ChildClaimsIs(c1);
    ChildFinalizesIs(c2);
    EmitBeginsIs(c3);
    assert c3.publication == Ready(Connected);
    assert DoEmitBegins(c3) == EMITTING_CLOSED;
  }

  lemma SecondDecisionIsAlone()
    ensures Stranded(RunFrom(EMITTING_CLOSED, PUBLISHED_BEFORE_DECIDING))
    ensures RunFrom(EMITTING_CLOSED, PUBLISHED_BEFORE_DECIDING).published
  {
    var c := EMITTING_CLOSED;
    RunFour(c, EmitReturns(true), MarkPublication, ChildSettles, Decide(NO_HANDLER));
    hide Next, RunFrom;
    var c1 := DoEmitReturns(c, true);
    var c2 := DoMarkPublication(c1);
    var c3 := DoChildSettles(c2);
    EmitReturnsIs(c, true);
    MarkPublicationIs(c1);
    ChildSettlesIs(c2);
    DecideIs(c3, NO_HANDLER);
    assert c3.life == c.life && c3.waiter.NoWaiter? && c3.published;
    assert c3.starter == Settled(true, Outcome.Published) && c3.publisher.NoPublisher? && c3.opening;
  }

  // The same after the close event was published: a second close, whose lifecycle task is
  // slow to run, decides when the starter's publisher has settled the first one, but has
  // not cleared the slot.
  lemma DeferredAfterThePublication()
    ensures
      var acts := FAILED_OPENING + HANDLER_CLOSES + CLAIMED_WHILE_CLOSING + PUBLISHED_BEFORE_DECIDING;
      Stranded(Run(acts)) && Run(acts).published && NoKill(acts)
  {
    hide RunFrom, Stranded;
    OpeningFailsFirst();
    HandlerCloses();
    StarterTakesTheFirstDeferral();
    SecondDecisionIsAlone();
    RunConcat(INITIAL, FAILED_OPENING + HANDLER_CLOSES + CLAIMED_WHILE_CLOSING, PUBLISHED_BEFORE_DECIDING);
    RunConcat(INITIAL, FAILED_OPENING + HANDLER_CLOSES, CLAIMED_WHILE_CLOSING);
    RunConcat(INITIAL, FAILED_OPENING, HANDLER_CLOSES);
  }

  // ---- a settled waiter is not awaited again -----------------------------------------------------

  function OneId(f: Option<nat>): set<nat> { if f.Some? then {f.value} else {} }

  function PendingId(w: Waiter): set<nat> { if w.Pending? then {w.id} else {} }

  // The futures whose outcome the action sets, if it was not set before.
  function SettledBy(c: Conn, a: Action): set<nat>
    requires Enabled(c, a)
  {
    match a
    case CancelPublisher => PendingId(c.waiter)
    case PublisherFinalizes => if c.published then OneId(c.publisher.settles) else {}
    case PublisherSettles => OneId(c.publisher.settles) + if c.publisher.ok then {} else PendingId(c.waiter)
    case ChildFinalizes => if c.published then OneId(c.starter.child.settles) else {}
    case ChildSettles => OneId(c.starter.child.settles)
    case _ => {}
  }

  function SettledIn(c: Conn, acts: seq<Action>): set<nat>
    decreases acts
  {
    if acts == [] then {}
    else (if Enabled(c, acts[0]) then SettledBy(c, acts[0]) else {}) + SettledIn(Next(c, acts[0]), acts[1..])
  }

  predicate Claims(p: Publisher, n: nat) { Holding(p) && p.settles.Some? ==> p.settles.value < n }

  // Whatever was settled or may be is an earlier waiter than the next one, and the waiter in
  // the slot, if it is pending, was not settled.
  predicate Unsettled(c: Conn, settled: set<nat>) {
    && (forall w :: w in settled ==> w < c.nextWaiter)
    && (c.waiter.Pending? ==> c.waiter.id !in settled)
    && Claims(c.publisher, c.nextWaiter) && (c.starter.Settling? ==> Claims(c.starter.child, c.nextWaiter))
  }

  lemma RaisedKeepsUnsettled(c: Conn, settled: set<nat>, spawns: bool)
    requires Unsettled(c, settled)
    ensures Unsettled(RaisedDeferral(c, spawns), settled)
  {
  }

  lemma DecideKeepsUnsettled(c: Conn, settled: set<nat>, f: Facts)
    requires Unsettled(c, settled) && c.life.Deciding?
    ensures Unsettled(DoDecide(c, f), settled)
  {
    hide RaisedDeferral, Defers, HandlerSide;
    RaisedKeepsUnsettled(c, settled, !c.opening && (HandlerSide(c, c.life.origin, f) || f.activeInline));
  }

  lemma LifeKeepsUnsettled(c: Conn, settled: set<nat>, a: Action)
    requires Unsettled(c, settled) && Enabled(c, a) && OfLife(a)
    ensures Unsettled(Step(c, a), settled + SettledBy(c, a))
  {
    assert settled + {} == settled;
    hide DoDecide;
    if a.Decide? {
      DecideKeepsUnsettled(c, settled, a.facts);
    }
  }

  lemma SettlingKeepsUnsettled(c: Conn, settled: set<nat>)
    requires Inv(c) && Unsettled(c, settled) && c.publisher.Told?
    ensures Unsettled(DoPublisherSettles(c), settled + SettledBy(c, PublisherSettles))
  {
    hide ReportsOk, PublicationOk, StarterOk, TeardownOk;
  }

  lemma StarterKeepsUnsettled(c: Conn, settled: set<nat>, a: Action)
    requires Unsettled(c, settled) && Enabled(c, a) && OfStarter(a) && !OfChild(a)
    ensures Unsettled(Step(c, a), settled + SettledBy(c, a))
  {
    assert settled + {} == settled;
  }

  lemma ChildKeepsUnsettled(c: Conn, settled: set<nat>, a: Action)
    requires Inv(c) && Unsettled(c, settled) && Enabled(c, a) && OfChild(a)
    ensures Unsettled(Step(c, a), settled + SettledBy(c, a))
  {
    hide ReportsOk, PublicationOk, StarterOk, TeardownOk;
  }

  lemma PublishersKeepUnsettled(c: Conn, settled: set<nat>, a: Action)
    requires Inv(c) && Unsettled(c, settled) && Enabled(c, a) && !OfStarter(a) && !OfLife(a)
    ensures Unsettled(Step(c, a), settled + SettledBy(c, a))
  {
    hide ReportsOk, PublicationOk, StarterOk, TeardownOk, DoPublisherSettles;
    if a.PublisherSettles? {
      SettlingKeepsUnsettled(c, settled);
    }
  }

  lemma StepKeepsUnsettled(c: Conn, settled: set<nat>, a: Action)
    requires Inv(c) && Unsettled(c, settled) && Enabled(c, a)
    ensures Unsettled(Step(c, a), settled + SettledBy(c, a))
  {
    hide Inv, Unsettled, Step, Enabled, SettledBy;
    if OfLife(a) {
      LifeKeepsUnsettled(c, settled, a);
    } else if OfChild(a) {
      ChildKeepsUnsettled(c, settled, a);
    } else if OfStarter(a) {
      StarterKeepsUnsettled(c, settled, a);
    } else {
      PublishersKeepUnsettled(c, settled, a);
    }
  }

  lemma {:induction false} RunKeepsUnsettled(c: Conn, settled: set<nat>, acts: seq<Action>)
    requires Inv(c) && Unsettled(c, settled)
    ensures Inv(RunFrom(c, acts)) && Unsettled(RunFrom(c, acts), settled + SettledIn(c, acts))
    decreases acts
  {
    hide Inv, Unsettled, Step, Enabled, SettledBy;
    if acts == [] {
      assert settled + {} == settled;
    } else {
      var now := if Enabled(c, acts[0]) then SettledBy(c, acts[0]) else {};
      if Enabled(c, acts[0]) {
        StepKeepsInv(c, acts[0]);
        StepKeepsUnsettled(c, settled, acts[0]);
      } else {
        assert settled + now == settled;
      }
      RunKeepsUnsettled(Next(c, acts[0]), settled + now, acts[1..]);
      assert settled + now + SettledIn(Next(c, acts[0]), acts[1..]) == settled + SettledIn(c, acts);
    }
  }

  // Over all runs: no lifecycle awaits a waiter whose outcome was set before, so a close()
  // that waits is told what became of its own event.
  lemma SettledIsNotAwaited(acts: seq<Action>)
    ensures var c := Run(acts); Awaiting(c) ==> c.life.awaited !in SettledIn(INITIAL, acts)
  {
    StartIsQuiet();
    assert Unsettled(INITIAL, {});
    RunKeepsUnsettled(INITIAL, {}, acts);
    hide RunFrom, SettledIn;
    assert {} + SettledIn(INITIAL, acts) == SettledIn(INITIAL, acts);
  }
}

// What the close protocol promises over all runs, and exactly where it does not.

module TcpConnectionTheorems {
  import opened Common
  import opened TcpConnectionSpec
  import opened TcpConnectionProofs

  // ---- runs ---------------------------------------------------------------------

  lemma {:induction false} RunKeepsInv(c: Conn, acts: seq<Action>)
    requires Inv(c)
    ensures Inv(RunFrom(c, acts))
    decreases acts
  {
    hide Inv, Step, Enabled;
    if acts != [] {
      if Enabled(c, acts[0]) {
        StepKeepsInv(c, acts[0]);
      }
      RunKeepsInv(Next(c, acts[0]), acts[1..]);
    }
  }

  lemma {:induction false} RunConcat(c: Conn, xs: seq<Action>, ys: seq<Action>)
    ensures RunFrom(c, xs + ys) == RunFrom(RunFrom(c, xs), ys)
    decreases xs
  {
    hide Next;
    if xs == [] {
      assert xs + ys == ys;
    } else {
      assert (xs + ys)[0] == xs[0] && (xs + ys)[1..] == xs[1..] + ys;
      RunConcat(Next(c, xs[0]), xs[1..], ys);
    }
  }

  // ---- once-only effects ------------------------------------------------------------

  // In every run: one close lifecycle and one publication run at a time, the
  // socket is torn down once, the callback runs once, the opened event is
  // emitted once, and the close event is emitted successfully once.
  lemma EverythingHappensAtMostOnce(acts: seq<Action>)
    ensures
      var c := Run(acts);
      && 0 <= c.hist.livesRunning <= 1 && 0 <= c.hist.publicationsRunning <= 1
      && c.hist.callbacks <= c.hist.teardowns <= 1
      && c.hist.openedEmits <= 1
      && |c.hist.reports| <= 1
      && (c.published ==> |c.hist.reports| == 1)
  {
    RunKeepsInv(INITIAL, acts);
    hide RunFrom;
  }

  // A close() that completes normally on its own or through the waiter has the
  // close event behind it.
  lemma CompletedCloseIsPublished(acts: seq<Action>)
    ensures var c := Run(acts); c.hist.closesCompleted > 0 ==> c.published && c.state.Closed?
  {
    RunKeepsInv(INITIAL, acts);
    hide RunFrom;
  }

  // Every raised deferral is taken by exactly one publisher, unless it still
  // waits to be taken.
  lemma EachDeferralClaimedOnce(acts: seq<Action>)
    ensures var c := Run(acts); c.hist.deferrals == c.hist.claims + if c.deferred then 1 else 0
  {
    RunKeepsInv(INITIAL, acts);
    hide RunFrom;
  }

  // ---- monotone state ---------------------------------------------------------------

  predicate OfLife(a: Action) {
    a.Close? || a.TeardownSocket? || a.RunCallback? || a.CancelTeardown? || a.LifeRaises? || a.Decide?
    || a.LifeFinalizes? || a.LifeResumes?
  }

  predicate OfStarter(a: Action) {
    a.Start? || a.ReadyReturns? || a.ReadyRaises? || a.OpenedHandlerStarts? || a.OpenedSettles? || a.OpeningResumes?
    || a.StarterResumes? || OfChild(a)
  }

  predicate OfChild(a: Action) { a.ChildClaims? || a.ChildFinalizes? || a.ChildSettles? }

  // Start() and the publishers do nothing to a lifecycle task but tell it an outcome.
  predicate OnlyInforms(c: Conn, d: Conn) {
    && (d.life == c.life
        || ((c.life.AwaitsWaiter? || c.life.AwaitsPublication?)
            && d.life.Informed? && d.life.cancelled == c.life.cancelled))
    && d.hist.closesCompleted == c.hist.closesCompleted
  }

  lemma StarterOnlyInforms(c: Conn, a: Action)
    requires Enabled(c, a) && OfStarter(a)
    ensures OnlyInforms(c, Step(c, a))
  {
  }

  lemma PublishersOnlyInform(c: Conn, a: Action)
    requires Enabled(c, a) && !OfStarter(a) && !OfLife(a)
    ensures OnlyInforms(c, Step(c, a))
  {
  }

  // Forward: the state's rank does not fall, what the first close() saw stays, no
  // opened event is emitted any more, and the first close() notes the state it saw and
  // begins with the teardown.
  predicate Forward(c: Conn, d: Conn) {
    && Rank(d.state) >= Rank(c.state)
    && (Begun(c) ==> d.hist.firstPreClose == c.hist.firstPreClose)
    && (Begun(d) ==> d.hist.openedEmits == c.hist.openedEmits)
    && (!Begun(c) && Begun(d) ==> d.hist.firstPreClose == Some(c.state) && d.life.Teardown?)
  }

  lemma CloseMovesForward(c: Conn, usesInline: bool, byStarter: bool)
    requires Inv(c)
    ensures Forward(c, DoClose(c, usesInline, byStarter))
  {
    hide TeardownOk, SlotsOk;
  }

  predicate OfTeardown(a: Action) { a.TeardownSocket? || a.RunCallback? || a.CancelTeardown? || a.LifeRaises? }

  lemma TeardownMovesForward(c: Conn, a: Action)
    requires Inv(c) && Enabled(c, a) && OfTeardown(a)
    ensures Forward(c, Step(c, a))
  {
    hide TeardownOk, SlotsOk, StarterOk;
  }

  lemma LifeMovesForward(c: Conn, a: Action)
    requires Inv(c) && Enabled(c, a) && OfLife(a) && !OfTeardown(a)
    ensures Forward(c, Step(c, a))
  {
    hide TeardownOk, SlotsOk, StarterOk, DoClose, DoDecide;
    if a.Close? {
      CloseMovesForward(c, a.usesInline, a.byStarter);
    }
    if a.Decide? {
      DecideMovesForward(c, a.facts);
    }
  }

  lemma DecideMovesForward(c: Conn, f: Facts)
    requires Inv(c) && c.life.Deciding?
    ensures Forward(c, DoDecide(c, f))
  {
    DecidingIsBegun(c);
    hide Inv;
  }

  lemma StarterMovesForward(c: Conn, a: Action)
    requires Inv(c) && Enabled(c, a) && OfStarter(a)
    ensures Forward(c, Step(c, a))
  {
    hide TeardownOk, SlotsOk;
  }

  lemma PublishersMoveForward(c: Conn, a: Action)
    requires Inv(c) && Enabled(c, a) && !OfLife(a) && !OfStarter(a)
    ensures Forward(c, Step(c, a))
  {
    hide TeardownOk, SlotsOk;
  }

  lemma StepMovesForward(c: Conn, a: Action)
    requires Inv(c) && Enabled(c, a)
    ensures Forward(c, Step(c, a))
  {
    hide Inv, Enabled, Step, Forward;
    if OfTeardown(a) {
      TeardownMovesForward(c, a);
    } else if OfLife(a) {
      LifeMovesForward(c, a);
    } else if OfStarter(a) {
      StarterMovesForward(c, a);
    } else {
      PublishersMoveForward(c, a);
    }
  }

  lemma {:induction false} RunNeverMovesBack(c: Conn, acts: seq<Action>)
    requires Inv(c)
    ensures Rank(RunFrom(c, acts).state) >= Rank(c.state)
    ensures Begun(c) ==> RunFrom(c, acts).hist.firstPreClose == c.hist.firstPreClose
    ensures Begun(c) ==> RunFrom(c, acts).hist.openedEmits == c.hist.openedEmits
    decreases acts
  {
    hide Inv, Step, Enabled;
    if acts != [] {
      if Enabled(c, acts[0]) {
        StepKeepsInv(c, acts[0]);
        StepMovesForward(c, acts[0]);
      }
      RunNeverMovesBack(Next(c, acts[0]), acts[1..]);
    }
  }

  // Whatever retries, failures and races follow the first close(), the close
  // event reports the state the connection had just before it, and no opened
  // event is emitted any more.
  lemma CloseEventReportsFirstState(before: seq<Action>, a: Action, after: seq<Action>)
    requires !Begun(Run(before)) && Begun(Next(Run(before), a))
    ensures
      var c := Run(before + [a] + after);
      && (c.hist.reports == [] || c.hist.reports == [Run(before).state])
      && c.hist.openedEmits == Run(before).hist.openedEmits
      && Begun(c)
  {
    hide Inv, Quiet, Step, Enabled, RunFrom;
    var c0 := Run(before);
    StartIsQuiet();
    RunKeepsInv(INITIAL, before);
    StepKeepsInv(c0, a);
    StepMovesForward(c0, a);
    RunConcat(INITIAL, before + [a], after);
    RunConcat(INITIAL, before, [a]);
    RunOne(c0, a);
    RunNeverMovesBack(Next(c0, a), after);
    RunKeepsInv(Next(c0, a), after);
    ReportsAreFirst(RunFrom(Next(c0, a), after));
  }

  lemma ReportsAreFirst(c: Conn)
    requires Inv(c)
    ensures c.hist.firstPreClose.Some? ==> c.hist.reports == [] || c.hist.reports == [c.hist.firstPreClose.value]
    ensures Begun(c) <==> c.hist.firstPreClose.Some?
  {
  }

  // ---- the close event, the teardown and the opened event ------------------------------

  // While a close event is due or being emitted, the socket teardown and the close
  // callback are over: in every run.
  lemma CloseEventFollowsTeardown(acts: seq<Action>)
    ensures var c := Run(acts); !c.publication.NoPublication? || c.published ==> !TearingDown(c)
  {
    RunKeepsInv(INITIAL, acts);
    hide RunFrom;
  }

  // The opened event has been emitted and its handler has not finished.
  predicate OpenedInDelivery(c: Conn) {
    c.starter == Opening(Queued) || c.starter == Opening(Handling)
  }

  predicate Overlaps(c: Conn) { c.publication.Emitting? && OpenedInDelivery(c) }

  // A lifecycle task dies without having deferred its close, while the opened event
  // is still queued.
  predicate Exposes(c: Conn, a: Action) {
    a.LifeRaises? && !c.life.NoLife? && c.starter == Opening(Queued) && !c.waiter.Pending?
  }

  ghost predicate Unexposed(c: Conn, acts: seq<Action>)
    decreases acts
  {
    acts == [] || (!Exposes(c, acts[0]) && Unexposed(Next(c, acts[0]), acts[1..]))
  }

  // While the opened event is in delivery nobody publishes, and while it is queued
  // nobody can ask for a publisher.
  predicate Quiet(c: Conn) {
    && (OpenedInDelivery(c) ==>
          !c.published && c.publication.NoPublication? && !c.life.Finalizing? && !c.life.AwaitsPublication?
          && (c.publisher.NoPublisher? || (c.publisher.WaitsForHandlers? && c.starter == Opening(Handling))))
    && (c.starter == Opening(Queued) ==>
          (c.deferred <==> c.waiter.Pending?) && (c.hist.livesEnded > 0 ==> c.deferred) && !c.life.Informed?)
  }

  lemma DecideStaysQuiet(c: Conn, f: Facts)
    requires Inv(c) && Quiet(c) && c.life.Deciding?
    ensures Quiet(DoDecide(c, f))
  {
    hide ReportsOk;
  }

  lemma LifeStaysQuiet(c: Conn, a: Action)
    requires Inv(c) && Quiet(c) && Enabled(c, a) && OfLife(a) && !Exposes(c, a)
    ensures Quiet(Step(c, a))
  {
    hide ReportsOk, DoDecide;
    if a.Decide? {
      DecideStaysQuiet(c, a.facts);
    }
  }

  lemma StarterStaysQuiet(c: Conn, a: Action)
    requires Inv(c) && Quiet(c) && Enabled(c, a) && OfStarter(a)
    ensures Quiet(Step(c, a))
  {
    hide ReportsOk;
  }

  lemma PublishersStayQuiet(c: Conn, a: Action)
    requires Inv(c) && Quiet(c) && Enabled(c, a) && !OfLife(a) && !OfStarter(a)
    ensures Quiet(Step(c, a))
  {
    hide ReportsOk;
  }

  lemma StepStaysQuiet(c: Conn, a: Action)
    requires Inv(c) && Quiet(c) && Enabled(c, a) && !Exposes(c, a)
    ensures Quiet(Step(c, a))
  {
    hide Inv, Quiet, Enabled, Step, Exposes;
    if OfLife(a) {
      LifeStaysQuiet(c, a);
    } else if OfStarter(a) {
      StarterStaysQuiet(c, a);
    } else {
      PublishersStayQuiet(c, a);
    }
  }

  lemma {:induction false} UnexposedRunStaysQuiet(c: Conn, acts: seq<Action>)
    requires Inv(c) && Quiet(c) && Unexposed(c, acts)
    ensures Inv(RunFrom(c, acts)) && Quiet(RunFrom(c, acts))
    decreases acts
  {
    hide Inv, Quiet, Enabled, Step, Exposes;
    if acts != [] {
      if Enabled(c, acts[0]) {
        StepKeepsInv(c, acts[0]);
        StepStaysQuiet(c, acts[0]);
      }
      UnexposedRunStaysQuiet(Next(c, acts[0]), acts[1..]);
    }
  }

  function LeaveAll(n: nat): seq<Action> { if n == 0 then [] else [HandlerLeaves] + LeaveAll(n - 1) }

  lemma {:induction false} LeavingAllHandlers(c: Conn)
    ensures RunFrom(c, LeaveAll(c.handlers)) == c.(handlers := 0)
    decreases c.handlers
  {
    if c.handlers > 0 {
      assert LeaveAll(c.handlers)[0] == HandlerLeaves && LeaveAll(c.handlers)[1..] == LeaveAll(c.handlers - 1);
      LeavingAllHandlers(c.(handlers := c.handlers - 1));
    }
  }

  const PUBLISH := [HandlersClear, PublisherClaims, PublisherFinalizes, EmitBegins]

  lemma RunFour(c: Conn, a: Action, b: Action, d: Action, e: Action)
    ensures RunFrom(c, [a, b, d, e]) == Next(Next(Next(Next(c, a), b), d), e)
  {
    assert [a, b, d, e][1..] == [b, d, e] && [b, d, e][1..] == [d, e] && [d, e][1..] == [e];
    var c1 := Next(c, a);
    assert RunFrom(c, [a, b, d, e]) == RunFrom(c1, [b, d, e]);
    assert RunFrom(c1, [b, d, e]) == RunFrom(Next(c1, b), [d, e]);
    assert RunFrom(Next(Next(c1, b), d), [e]) == Next(Next(Next(c1, b), d), e);
  }

  // The lifecycle task dies, a handler of the connection begins, a stop asks for a
  // waiter, the handlers end, and the publisher does not wait for the opened event.
  function AfterExposure(handlers: nat): seq<Action> {
    [HandlerEnters, EnsureWaiter] + LeaveAll(handlers + 1) + PUBLISH
  }

  lemma ExposureOverlaps(c: Conn)
    requires Inv(c) && Quiet(c) && Exposes(c, LifeRaises)
    ensures Overlaps(RunFrom(Step(c, LifeRaises), AfterExposure(c.handlers)))
  {
    LifeRaisesIs(c);
    hide Inv, RunFrom, Step, Enabled, Overlaps, AfterExposure;
    AskingOverlaps(DoLifeRaises(c));
  }

  lemma AskingOverlaps(d: Conn)
    requires d.hist.livesEnded > 0 && !d.waiter.Pending? && !d.published && d.starter == Opening(Queued)
    requires d.publication.NoPublication? && d.publisher.NoPublisher?
    ensures Overlaps(RunFrom(d, AfterExposure(d.handlers)))
  {
    var f := DoEnsureWaiter(d.(handlers := d.handlers + 1));
    var xs := LeaveAll(d.handlers + 1);
    assert [HandlerEnters, EnsureWaiter] + xs + PUBLISH == [HandlerEnters, EnsureWaiter] + (xs + PUBLISH);
    hide RunFrom, Next, LeaveAll;
    RunConcat(d, [HandlerEnters, EnsureWaiter], xs + PUBLISH);
    RunTwo(d, HandlerEnters, EnsureWaiter);
    AskingIs(d);
    RunConcat(f, xs, PUBLISH);
    LeavingAllHandlers(f);
    FreshPublisherEmits(f.(handlers := 0));
  }

  lemma AskingIs(d: Conn)
    requires d.hist.livesEnded > 0 && !d.waiter.Pending? && !d.published
    ensures
      var e := d.(handlers := d.handlers + 1);
      Next(d, HandlerEnters) == e && Next(e, EnsureWaiter) == DoEnsureWaiter(e)
  {
  }

  lemma LeavingIsUnexposed(n: nat)
    ensures forall a :: a in LeaveAll(n) ==> a.HandlerLeaves?
  {
  }

  lemma {:induction false} WithoutRaisingUnexposed(c: Conn, acts: seq<Action>)
    requires forall a :: a in acts ==> !a.LifeRaises?
    ensures Unexposed(c, acts)
    decreases acts
  {
    if acts != [] {
      WithoutRaisingUnexposed(Next(c, acts[0]), acts[1..]);
    }
  }

  // Some continuation without a further such death overlaps.
  ghost predicate CanOverlap(c: Conn) { exists more :: Unexposed(c, more) && Overlaps(RunFrom(c, more)) }

  lemma ExposedCanOverlap(c: Conn)
    requires Inv(c) && Quiet(c) && Exposes(c, LifeRaises)
    ensures CanOverlap(Step(c, LifeRaises))
  {
    var more := AfterExposure(c.handlers);
    ExposureOverlaps(c);
    LeavingIsUnexposed(c.handlers + 1);
    hide Inv, Quiet, Overlaps, RunFrom, Unexposed, Step, LeaveAll;
    WithoutRaisingUnexposed(Step(c, LifeRaises), more);
  }

  lemma QuietCannotOverlap(c: Conn)
    requires Inv(c) && Quiet(c)
    ensures !CanOverlap(c)
  {
    hide Inv, Quiet, Overlaps, RunFrom, Unexposed;
    forall more | Unexposed(c, more)
      ensures !Overlaps(RunFrom(c, more))
    {
      UnexposedRunStaysQuiet(c, more);
      QuietMeansNoOverlap(RunFrom(c, more));
    }
  }

  // After a run in which no lifecycle task died that way, an action makes an overlap
  // of close event and opened event possible exactly if it is such a death; nothing
  // else that callers, handlers, the peer or the stop paths do ever does.
  lemma OverlapExactlyAfterExposure(before: seq<Action>, a: Action)
    requires Unexposed(INITIAL, before)
    ensures CanOverlap(Next(Run(before), a)) <==> Exposes(Run(before), a)
  {
    var c := Run(before);
    UnexposedRunStaysQuiet(INITIAL, before);
    hide Inv, Quiet, CanOverlap, RunFrom, Unexposed, Step, Enabled, Exposes;
    if Exposes(c, a) {
      ExposingRaises(c, a);
      ExposedCanOverlap(c);
    } else {
      if Enabled(c, a) {
        StepKeepsInv(c, a);
        StepStaysQuiet(c, a);
      }
      QuietCannotOverlap(Next(c, a));
    }
  }

  lemma ExposingRaises(c: Conn, a: Action)
    requires Exposes(c, a)
    ensures a.LifeRaises? && Enabled(c, a)
  {
  }

  lemma QuietMeansNoOverlap(c: Conn)
    requires Quiet(c)
    ensures !Overlaps(c)
  {
  }

  ghost predicate ExposedAt(c: Conn, acts: seq<Action>, i: int) {
    0 <= i < |acts| && Exposes(RunFrom(c, acts[..i]), acts[i])
  }

  lemma {:induction false} ExposedSomewhere(c: Conn, acts: seq<Action>)
    requires !Unexposed(c, acts)
    ensures exists i :: ExposedAt(c, acts, i)
    decreases acts
  {
    hide Exposes, Next;
    if Exposes(c, acts[0]) {
      assert acts[..0] == [];
      assert ExposedAt(c, acts, 0);
    } else {
      ExposedSomewhere(Next(c, acts[0]), acts[1..]);
      var i :| ExposedAt(Next(c, acts[0]), acts[1..], i);
      assert acts[..i + 1][0] == acts[0] && acts[..i + 1][1..] == acts[1..][..i];
      assert ExposedAt(c, acts, i + 1);
    }
  }

  lemma StartIsQuiet()
    ensures Inv(INITIAL) && Quiet(INITIAL)
  {
  }

  // In every run: while a close event is being emitted the opened event is not in
  // delivery, unless a lifecycle task died that way before.
  lemma CloseEventOverlapsNothing(acts: seq<Action>)
    ensures Overlaps(Run(acts)) ==> exists i :: ExposedAt(INITIAL, acts, i)
  {
    hide Quiet, Overlaps, RunFrom;
    if Unexposed(INITIAL, acts) {
      hide Unexposed;
      assert Inv(INITIAL) && Quiet(INITIAL) by { StartIsQuiet(); }
      UnexposedRunStaysQuiet(INITIAL, acts);
      QuietMeansNoOverlap(Run(acts));
    } else {
      ExposedSomewhere(INITIAL, acts);
    }
  }

  // Such a death occurs: the lifecycle task is cancelled before its first step, while the
  // opened event is queued.
  const EXPOSING := [Start, ReadyReturns(false)] + [Close(false, false)]

  lemma ExposingRun()
    ensures Unexposed(INITIAL, EXPOSING) && Exposes(Run(EXPOSING), LifeRaises)
  {
    WithoutRaisingUnexposed(INITIAL, EXPOSING);
    hide Unexposed;
    RunConcat(INITIAL, [Start, ReadyReturns(false)], [Close(false, false)]);
    RunTwo(INITIAL, Start, ReadyReturns(false));
    RunOne(Next(Next(INITIAL, Start), ReadyReturns(false)), Close(false, false));
    hide RunFrom;
  }

  lemma RunOne(c: Conn, a: Action)
    ensures RunFrom(c, [a]) == Next(c, a)
  {
    assert [a][1..] == [];
  }

  lemma FreshPublisherEmits(c: Conn)
    requires c.deferred && !c.published && c.publication.NoPublication?
    requires c.publisher.WaitsForHandlers? && !ActiveHandler(c)
    ensures
      RunFrom(c, PUBLISH)
      == c.(deferred := false, state := Closed, publisher := AwaitsEmission(IdOf(c.waiter)),
            publication := Emitting(if c.previous.Some? then c.previous.value else Closing),
            hist := c.hist.(publicationsRunning := c.hist.publicationsRunning + 1, claims := c.hist.claims + 1))
  {
    RunFour(c, HandlersClear, PublisherClaims, PublisherFinalizes, EmitBegins);
    hide Next, RunFrom;
    HandlersClearIs(c);
    var c1 := c.(publisher := Claiming);
    PublisherClaimsIs(c1);
    var c2 := DoPublisherClaims(c1);
    assert c2.publisher == Claimed(IdOf(c.waiter)) && !c2.deferred;
    PublisherFinalizesIs(c2);
    var c3 := DoPublisherFinalizes(c2);
    EmitBeginsIs(c3);
  }

  // ---- a deferred close is taken up ------------------------------------------------------

  // The starter's own publisher has not yet looked at the deferral flag.
  predicate StarterWillLook(c: Conn) {
    c.starter.Opening? || (c.starter.Settling? && c.starter.child.Claiming?)
  }

  predicate PublisherWillLook(c: Conn) { c.publisher.WaitsForHandlers? || c.publisher.Claiming? }

  // Once the active handlers have unwound, a waiting publisher brings a deferred
  // close to its end: the event reports the first state, and the lifecycle task
  // that awaited the waiter is told of success.
  lemma DeferredCloseReachesItsWaiter(c: Conn)
    requires Inv(c) && c.deferred && !c.published && c.publication.NoPublication?
    requires c.publisher.WaitsForHandlers? && !ActiveHandler(c) && c.life.AwaitsWaiter?
    ensures
      var d := RunFrom(c, PUBLISH + SETTLE);
      && d.published && !d.deferred && d.waiter.NoWaiter? && d.publisher.NoPublisher? && d.life.NoLife?
      && d.hist.reports == [c.hist.firstPreClose.value]
      && (!c.life.cancelled ==> d.hist.closesCompleted == c.hist.closesCompleted + 1)
  {
    FreshPublisherEmits(c);
    RunConcat(c, PUBLISH, SETTLE);
    EmissionSettles(RunFrom(c, PUBLISH));
  }

  const SETTLE := [EmitReturns(true), MarkPublication, PublisherSettles, LifeResumes]

  lemma EmissionSettles(c: Conn)
    requires c.publication.Emitting? && c.life.AwaitsWaiter? && c.waiter == Pending(c.life.awaited)
    requires c.publisher == AwaitsEmission(Some(c.life.awaited))
    ensures
      var d := RunFrom(c, SETTLE);
      && d.published && d.deferred == c.deferred && d.waiter.NoWaiter? && d.publisher.NoPublisher? && d.life.NoLife?
      && d.hist.reports == c.hist.reports + [c.publication.report]
      && d.hist.closesCompleted == c.hist.closesCompleted + if c.life.cancelled then 0 else 1
  {
    RunFour(c, EmitReturns(true), MarkPublication, PublisherSettles, LifeResumes);
    hide Next, RunFrom;
    var c1 := DoEmitReturns(c, true);
    var c2 := DoMarkPublication(c1);
    var c3 := DoPublisherSettles(c2);
    assert c2.publisher == Told(Some(c.life.awaited), true) && c2.life == c.life && c2.waiter == c.waiter;
    assert c3.life == Informed(c.life.cancelled, true);
    EmitReturnsIs(c, true);
    MarkPublicationIs(c1);
    PublisherSettlesIs(c2);
    LifeResumesIs(c3);
  }

  const OPENED := [OpenedSettles(true), OpeningResumes, ChildClaims, ChildFinalizes]
  const EMITTED := [EmitBegins, EmitReturns(true), MarkPublication, ChildSettles]

  lemma OpenedThenClaimed(c: Conn)
    requires c.starter == Opening(Handling) && c.deferred && !c.published && c.publication.NoPublication?
    ensures
      var d := RunFrom(c, OPENED);
      d == c.(opening := false, deferred := false, state := Closed,
              starter := Settling(false, AwaitsEmission(IdOf(c.waiter))),
              publication := Ready(if c.previous.Some? then c.previous.value else Closing),
              hist := c.hist.(publicationsRunning := c.hist.publicationsRunning + 1, claims := c.hist.claims + 1))
  {
    hide Next, RunFrom;
    RunFour(c, OpenedSettles(true), OpeningResumes, ChildClaims, ChildFinalizes);
    var c1 := c.(starter := Opening(Handled(true)));
    var c2 := DoOpeningResumes(c1);
    var c3 := DoChildClaims(c2);
    OpenedSettlesIs(c, true);
    OpeningResumesIs(c1);
    ChildClaimsIs(c2);
    ChildFinalizesIs(c3);
    assert c3 == c.(opening := false, deferred := false, starter := Settling(false, Claimed(IdOf(c.waiter))),
                    hist := c.hist.(claims := c.hist.claims + 1));
  }

  lemma EmittedThenSettled(c: Conn)
    requires c.publication.Ready? && c.starter.Settling? && c.life.AwaitsWaiter? && c.waiter == Pending(c.life.awaited)
    requires c.starter.child == AwaitsEmission(Some(c.life.awaited))
    ensures
      var d := RunFrom(c, EMITTED);
      && d.published && d.deferred == c.deferred && d.opening == c.opening && d.waiter.NoWaiter?
      && d.hist.reports == c.hist.reports + [c.publication.report]
      && d.life == Informed(c.life.cancelled, true) && d.starter == Settled(c.starter.openFailed, Outcome.Published)
  {
    hide Next, RunFrom;
    RunFour(c, EmitBegins, EmitReturns(true), MarkPublication, ChildSettles);
    var c1 := DoEmitBegins(c);
    var c2 := DoEmitReturns(c1, true);
    var c3 := DoMarkPublication(c2);
    EmitBeginsIs(c);
    EmitReturnsIs(c1, true);
    MarkPublicationIs(c2);
    ChildSettlesIs(c3);
    assert c3.starter == Settling(c.starter.openFailed, Told(Some(c.life.awaited), true));
    assert c3.life == c.life && c3.waiter == c.waiter;
  }

  // A close that was deferred behind the opened event is published by start() once
  // the handler has returned: one report of the first state, and the lifecycle task
  // is told of success.
  lemma OpenedHandlerReleasesClose(c: Conn)
    requires Inv(c) && c.starter == Opening(Handling) && c.deferred && !c.published && c.publication.NoPublication?
    requires c.life.AwaitsWaiter?
    ensures
      var d := RunFrom(c, OPENED + EMITTED);
      && d.published && !d.deferred && !d.opening && d.waiter.NoWaiter?
      && d.hist.reports == [c.hist.firstPreClose.value]
      && d.life == Informed(c.life.cancelled, true)
  {
    hide RunFrom;
    OpenedThenClaimed(c);
    RunConcat(c, OPENED, EMITTED);
    EmittedThenSettled(RunFrom(c, OPENED));
    hide StarterOk, TeardownOk;
  }

  const NO_HANDLER := Facts(false, false, false)
  const PLAIN_CLOSE := [Close(false, false), Decide(NO_HANDLER), LifeFinalizes, EmitBegins]

  lemma PlainCloseEmits(c: Conn)
    requires Inv(c) && c.state.Closed? && !c.published && !c.deferred && !c.opening
    requires c.life.NoLife? && c.publication.NoPublication?
    ensures
      var d := RunFrom(c, PLAIN_CLOSE);
      d.publication == Emitting(c.hist.firstPreClose.value) && d.hist.reports == []
  {
    hide Next, RunFrom;
    RunFour(c, Close(false, false), Decide(NO_HANDLER), LifeFinalizes, EmitBegins);
    var c1 := DoClose(c, false, false);
    assert c1.life == Deciding(Origin(false, false), false) && c1.state.Closed? && c1.previous == c.previous;
    var c2 := DoDecide(c1, NO_HANDLER);
    assert c2 == c1.(life := Finalizing(false));
    var c3 := DoLifeFinalizes(c2);
    CloseIs(c, false, false);
    DecideIs(c1, NO_HANDLER);
    LifeFinalizesIs(c2);
    EmitBeginsIs(c3);
    assert c3.publication == Ready(c.hist.firstPreClose.value);
  }

  // After any failed publication a further close() can still publish, and it
  // reports the same first state.
  lemma RetryPublishes(c: Conn)
    requires Inv(c) && c.state.Closed? && !c.published && !c.deferred && !c.opening
    requires c.life.NoLife? && c.publication.NoPublication?
    ensures
      var d := RunFrom(c, PLAIN_CLOSE + [EmitReturns(true), MarkPublication]);
      d.published && d.hist.reports == [c.hist.firstPreClose.value]
  {
    PlainCloseEmits(c);
    RunConcat(c, PLAIN_CLOSE, [EmitReturns(true), MarkPublication]);
    RunTwo(RunFrom(c, PLAIN_CLOSE), EmitReturns(true), MarkPublication);
    hide Next, RunFrom;
    EmitReturnsIs(RunFrom(c, PLAIN_CLOSE), true);
    MarkPublicationIs(DoEmitReturns(RunFrom(c, PLAIN_CLOSE), true));
  }

  // A connection at rest, with no handler of it active.
  predicate AtRest(c: Conn) {
    c.state.Connected? && c.starter.Finished? && !c.opening && !c.deferred && c.life.NoLife?
    && c.publication.NoPublication? && !c.published
  }

  const TEARDOWN := [Close(false, false), TeardownSocket, RunCallback, Decide(NO_HANDLER)]
  const PUBLICATION := [LifeFinalizes, EmitBegins, EmitReturns(true), MarkPublication]

  lemma TeardownThenDecided(c: Conn)
    requires Inv(c) && AtRest(c)
    ensures
      var d := RunFrom(c, TEARDOWN);
      && d.life == Finalizing(false) && !d.published && d.publication.NoPublication? && d.previous == Some(Connected)
      && d.hist.reports == [] && d.hist.teardowns == 1 && d.hist.callbacks == 1 && !d.reading
      && d.hist.closesCompleted == c.hist.closesCompleted
  {
    RunFour(c, Close(false, false), TeardownSocket, RunCallback, Decide(NO_HANDLER));
    hide Next, RunFrom;
    CloseIs(c, false, false);
    var c1 := DoClose(c, false, false);
    assert c1.life == Teardown(Origin(false, false)) && c1.previous == Some(Connected) && !c1.reading;
    TeardownSocketIs(c1);
    RunCallbackIs(DoTeardownSocket(c1));
    var c3 := DoRunCallback(DoTeardownSocket(c1));
    DecideIs(c3, NO_HANDLER);
    assert c3.life == Deciding(Origin(false, false), false) && !Defers(c3, c3.life.origin, NO_HANDLER);
  }

  lemma FinalizedThenMarked(c: Conn)
    requires c.life == Finalizing(false) && !c.published && c.publication.NoPublication?
    requires c.previous == Some(Connected)
    ensures
      var d := RunFrom(c, PUBLICATION);
      && d.published && d.life == Informed(false, true) && d.hist.reports == c.hist.reports + [Connected]
      && d.hist.teardowns == c.hist.teardowns && d.hist.callbacks == c.hist.callbacks && d.reading == c.reading
      && d.hist.closesCompleted == c.hist.closesCompleted
  {
    hide Next, RunFrom;
    RunFour(c, LifeFinalizes, EmitBegins, EmitReturns(true), MarkPublication);
    var c1 := DoLifeFinalizes(c);
    assert c1.publication == Ready(Connected) && c1.life == AwaitsPublication(false);
    var c2 := DoEmitBegins(c1);
    var c3 := DoEmitReturns(c2, true);
    LifeFinalizesIs(c);
    EmitBeginsIs(c1);
    EmitReturnsIs(c2, true);
    MarkPublicationIs(c3);
    assert c3.publication == Marking(true) && c3.hist.reports == c.hist.reports + [Connected];
  }

  // Closing a connection at rest tears it down, runs the callback, publishes one
  // close event with CONNECTED as the state before, and completes.
  lemma OrdinaryCloseCompletes(c: Conn)
    requires Inv(c) && AtRest(c)
    ensures
      var d := RunFrom(c, TEARDOWN + PUBLICATION + [LifeResumes]);
      && d.published && d.life.NoLife? && !d.reading && d.hist.reports == [Connected]
      && d.hist.teardowns == 1 && d.hist.callbacks == 1
      && d.hist.closesCompleted == c.hist.closesCompleted + 1
  {
    hide RunFrom, Next, Inv;
    TeardownThenDecided(c);
    RunConcat(c, TEARDOWN + PUBLICATION, [LifeResumes]);
    RunConcat(c, TEARDOWN, PUBLICATION);
    FinalizedThenMarked(RunFrom(c, TEARDOWN));
    RunOne(RunFrom(c, TEARDOWN + PUBLICATION), LifeResumes);
    LifeResumesIs(RunFrom(c, TEARDOWN + PUBLICATION));
  }

  lemma RunTwo(c: Conn, a: Action, b: Action)
    ensures RunFrom(c, [a, b]) == Next(Next(c, a), b)
  {
    assert [a, b][1..] == [b];
    RunOne(Next(c, a), b);
  }

  // ---- a close that never returns -----------------------------------------------------------

  // The lifecycle task awaits a waiter nobody will settle.
  predicate Stuck(c: Conn) {
    c.life.AwaitsWaiter? && c.waiter == Pending(c.life.awaited) && c.state.Closed? && c.deferred && !c.published
    && c.publication.NoPublication? && c.publisher.NoPublisher? && c.starter.Finished?
  }

  // Opened event fails, the starter's publisher finds nothing deferred, and the
  // close decides before the starter has cleared the opening slot.
  const STRANDING := [Start, ReadyReturns(false), Close(false, false), OpenedSettles(false)]
                     + [OpeningResumes, ChildClaims, TeardownSocket, RunCallback]

  const STRANDED_CLOSE := [Decide(NO_HANDLER), StarterResumes(false)]

  const TORN_DOWN :=
    INITIAL.(state := Closing, previous := Some(Connected), life := Deciding(Origin(false, false), false),
             opening := true, starter := Settled(true, NothingToPublish),
             hist := History(Some(Connected), 1, 0, 0, 1, 1, 1, 0, 0, 0, []))

  const OPENING_FAILED :=
    INITIAL.(state := Closing, previous := Some(Connected), life := Teardown(Origin(false, false)),
             opening := true, starter := Opening(Handled(false)),
             hist := History(Some(Connected), 1, 0, 0, 0, 0, 1, 0, 0, 0, []))

  lemma OpeningFails()
    ensures RunFrom(INITIAL, [Start, ReadyReturns(false), Close(false, false), OpenedSettles(false)]) == OPENING_FAILED
  {
    RunFour(INITIAL, Start, ReadyReturns(false), Close(false, false), OpenedSettles(false));
  }

  lemma PublisherLooksTooEarly()
    ensures RunFrom(OPENING_FAILED, [OpeningResumes, ChildClaims, TeardownSocket, RunCallback]) == TORN_DOWN
  {
    hide Next, RunFrom;
    RunFour(OPENING_FAILED, OpeningResumes, ChildClaims, TeardownSocket, RunCallback);
    var c1 := DoOpeningResumes(OPENING_FAILED);
    var c2 := DoChildClaims(c1);
    OpeningResumesIs(OPENING_FAILED);
    ChildClaimsIs(c1);
    TeardownSocketIs(c2);
    RunCallbackIs(DoTeardownSocket(c2));
    assert c1 == OPENING_FAILED.(starter := Settling(true, Claiming));
    assert c2 == OPENING_FAILED.(starter := Settled(true, NothingToPublish));
  }

  lemma StrandingRun()
    ensures Run(STRANDING) == TORN_DOWN
  {
    OpeningFails();
    PublisherLooksTooEarly();
    RunConcat(INITIAL, [Start, ReadyReturns(false), Close(false, false), OpenedSettles(false)],
              [OpeningResumes, ChildClaims, TeardownSocket, RunCallback]);
  }

  lemma StrandingRunGetsStuck()
    ensures Stuck(Run(STRANDING + STRANDED_CLOSE))
  {
    StrandingRun();
    RunConcat(INITIAL, STRANDING, STRANDED_CLOSE);
    RunTwo(TORN_DOWN, Decide(NO_HANDLER), StarterResumes(false));
  }
}

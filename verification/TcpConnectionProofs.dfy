// What every run of the close protocol keeps.

module TcpConnectionProofs {
  import opened Common
  import opened TcpConnectionSpec

  predicate TearingDown(c: Conn) { c.life.Teardown? || c.life.Callback? }

  predicate Holding(p: Publisher) { p.Claimed? || p.AwaitsEmission? || p.Told? }

  // Someone waits for the running publication task.
  predicate Awaited(c: Conn) {
    c.life.AwaitsPublication? || c.publisher.AwaitsEmission?
    || (c.starter.Settling? && c.starter.child.AwaitsEmission?)
  }

  predicate ToldSuccess(c: Conn) {
    (c.life.Informed? && c.life.ok) || c.hist.closesCompleted > 0 || (c.publisher.Told? && c.publisher.ok)
    || (c.starter.Settling? && c.starter.child.Told? && c.starter.child.ok)
    || (c.starter.Settled? && c.starter.outcome.Published?)
  }

  // ---- the invariant, one aspect at a time ----------------------------------

  // The state that the close event will report is kept until it was reported.
  predicate ReportsOk(c: Conn) {
    && c.state != Connecting
    && (Begun(c) <==> c.hist.firstPreClose.Some?)
    && (c.hist.firstPreClose.Some? ==> c.hist.firstPreClose.value.Created? || c.hist.firstPreClose.value.Connected?)
    && (Begun(c) && !c.published ==> c.previous == c.hist.firstPreClose)
    && (c.publication.Ready? || c.publication.Emitting? ==> c.hist.firstPreClose == Some(c.publication.report))
    && (if c.published || c.publication == Marking(true)
        then c.hist.firstPreClose.Some? && c.hist.reports == [c.hist.firstPreClose.value]
        else c.hist.reports == [])
  }

  // Whoever works on a close proves that the close began, and publication is
  // closed business once it succeeded.
  predicate PublicationOk(c: Conn) {
    && (!Begun(c) ==>
          c.previous.None? && !c.deferred && c.waiter.NoWaiter? && c.life.NoLife? && c.publisher.NoPublisher?)
    && (!Begun(c) && c.starter.Settling? ==> !Holding(c.starter.child))
    && (c.published || !c.publication.NoPublication? ==> c.state.Closed?)
    && (c.published ==> c.publication.NoPublication?)
    && (Awaited(c) ==> !c.publication.NoPublication?)
    && (ToldSuccess(c) ==> c.published)
  }

  predicate SlotsOk(c: Conn) {
    && c.hist.deferrals == c.hist.claims + (if c.deferred then 1 else 0)
    && c.hist.livesRunning == (if c.life.NoLife? then 0 else 1)
    && c.hist.publicationsRunning == (if c.publication.NoPublication? then 0 else 1)
    && (!c.waiter.NoWaiter? ==> c.waiter.id < c.nextWaiter)
    && (c.life.AwaitsWaiter? ==> c.waiter == Pending(c.life.awaited))
  }

  predicate StarterOk(c: Conn) {
    && (c.opening <==> c.starter.Opening? || ((c.starter.Settling? || c.starter.Settled?) && c.starter.openFailed))
    && c.hist.openedEmits <= 1
    && (c.starter.Idle? || c.starter.ReadyHook? ==> c.hist.openedEmits == 0)
    && (c.reading ==> c.state.Connected? && c.starter.Finished?)
    && (c.starter.Idle? ==> !c.state.Connected?)
    && (c.starter.Settling? ==> !c.starter.child.NoPublisher? && !c.starter.child.WaitsForHandlers?)
  }

  // Close event and teardown do not meet: nobody publishes before the teardown is
  // over, and once a lifecycle task has ended there is no teardown any more.
  predicate TeardownOk(c: Conn) {
    && (TearingDown(c) ==>
          !c.published && c.publication.NoPublication? && c.publisher.NoPublisher? && !c.deferred
          && c.hist.livesEnded == 0
          && (c.starter.Settling? ==> !Holding(c.starter.child)))
    && (c.hist.livesEnded > 0 ==> Begun(c))
    && c.hist.callbacks <= c.hist.teardowns <= 1
    && (!Begun(c) || c.life.Teardown? ==> c.hist.teardowns == 0)
    && (c.life.Callback? ==> c.hist.callbacks == 0 && c.hist.teardowns == 1)
  }

  predicate Inv(c: Conn) {
    ReportsOk(c) && PublicationOk(c) && SlotsOk(c) && StarterOk(c) && TeardownOk(c)
  }

  // ---- what one enabled action does ----------------------------------------------

  lemma CloseIs(c: Conn, usesInline: bool, byStarter: bool)
    ensures Next(c, Close(usesInline, byStarter)) == DoClose(c, usesInline, byStarter)
  {
    hide DoClose;
  }

  lemma OpenedSettlesIs(c: Conn, ok: bool)
    requires c.starter == Opening(Handling)
    ensures Enabled(c, OpenedSettles(ok)) && Next(c, OpenedSettles(ok)) == c.(starter := Opening(Handled(ok)))
  {
  }

  lemma OpeningResumesIs(c: Conn)
    requires c.starter.Opening? && c.starter.phase.Handled?
    ensures Enabled(c, OpeningResumes) && Next(c, OpeningResumes) == DoOpeningResumes(c)
  {
    hide DoOpeningResumes;
  }

  lemma StarterResumesIs(c: Conn, cancelled: bool)
    requires c.starter.Settled?
    ensures Enabled(c, StarterResumes(cancelled))
    ensures Next(c, StarterResumes(cancelled)) == DoStarterResumes(c, cancelled)
  {
    hide DoStarterResumes;
  }

  lemma TeardownSocketIs(c: Conn)
    requires c.life.Teardown?
    ensures Enabled(c, TeardownSocket) && Next(c, TeardownSocket) == DoTeardownSocket(c)
  {
    hide DoTeardownSocket;
  }

  lemma RunCallbackIs(c: Conn)
    requires c.life.Callback?
    ensures Enabled(c, RunCallback) && Next(c, RunCallback) == DoRunCallback(c)
  {
    hide DoRunCallback;
  }

  lemma DecideIs(c: Conn, f: Facts)
    requires c.life.Deciding?
    ensures Enabled(c, Decide(f)) && Next(c, Decide(f)) == DoDecide(c, f)
  {
    hide DoDecide;
  }

  lemma LifeFinalizesIs(c: Conn)
    requires c.life.Finalizing?
    ensures Enabled(c, LifeFinalizes) && Next(c, LifeFinalizes) == DoLifeFinalizes(c)
  {
    hide DoLifeFinalizes;
  }

  lemma LifeResumesIs(c: Conn)
    requires c.life.Informed?
    ensures Enabled(c, LifeResumes) && Next(c, LifeResumes) == EndLife(c, c.life.ok && !c.life.cancelled)
  {
    hide EndLife;
  }

  lemma LifeRaisesIs(c: Conn)
    requires !c.life.NoLife?
    ensures Enabled(c, LifeRaises) && Next(c, LifeRaises) == DoLifeRaises(c)
  {
    hide DoLifeRaises;
  }

  lemma EmitBeginsIs(c: Conn)
    requires c.publication.Ready?
    ensures Enabled(c, EmitBegins) && Next(c, EmitBegins) == DoEmitBegins(c)
  {
    hide DoEmitBegins;
  }

  lemma EmitReturnsIs(c: Conn, ok: bool)
    requires c.publication.Emitting?
    ensures Enabled(c, EmitReturns(ok)) && Next(c, EmitReturns(ok)) == DoEmitReturns(c, ok)
  {
    hide DoEmitReturns;
  }

  lemma MarkPublicationIs(c: Conn)
    requires c.publication.Marking?
    ensures Enabled(c, MarkPublication) && Next(c, MarkPublication) == DoMarkPublication(c)
  {
    hide DoMarkPublication;
  }

  lemma HandlersClearIs(c: Conn)
    requires c.publisher.WaitsForHandlers? && !ActiveHandler(c)
    ensures Enabled(c, HandlersClear) && Next(c, HandlersClear) == c.(publisher := Claiming)
  {
  }

  lemma PublisherClaimsIs(c: Conn)
    requires c.publisher.Claiming?
    ensures Enabled(c, PublisherClaims) && Next(c, PublisherClaims) == DoPublisherClaims(c)
  {
    hide DoPublisherClaims;
  }

  lemma PublisherFinalizesIs(c: Conn)
    requires c.publisher.Claimed?
    ensures Enabled(c, PublisherFinalizes) && Next(c, PublisherFinalizes) == DoPublisherFinalizes(c)
  {
    hide DoPublisherFinalizes;
  }

  lemma PublisherSettlesIs(c: Conn)
    requires c.publisher.Told?
    ensures Enabled(c, PublisherSettles) && Next(c, PublisherSettles) == DoPublisherSettles(c)
  {
    hide DoPublisherSettles;
  }

  lemma ChildClaimsIs(c: Conn)
    requires c.starter.Settling? && c.starter.child.Claiming?
    ensures Enabled(c, ChildClaims) && Next(c, ChildClaims) == DoChildClaims(c)
  {
    hide DoChildClaims;
  }

  lemma ChildFinalizesIs(c: Conn)
    requires c.starter.Settling? && c.starter.child.Claimed?
    ensures Enabled(c, ChildFinalizes) && Next(c, ChildFinalizes) == DoChildFinalizes(c)
  {
    hide DoChildFinalizes;
  }

  lemma ChildSettlesIs(c: Conn)
    requires c.starter.Settling? && c.starter.child.Told?
    ensures Enabled(c, ChildSettles) && Next(c, ChildSettles) == DoChildSettles(c)
  {
    hide DoChildSettles;
  }

  // ---- preservation, action by action ------------------------------------------

  lemma CloseKeepsInv(c: Conn, usesInline: bool, byStarter: bool)
    requires Inv(c)
    ensures Inv(DoClose(c, usesInline, byStarter))
  {
  }

  lemma RaisedKeepsInv(c: Conn, spawns: bool)
    requires Inv(c) && Begun(c) && !TearingDown(c)
    ensures Inv(RaisedDeferral(c, spawns))
  {
  }

  // What raising the deferral leaves for the lifecycle task that decided.
  lemma RaisedIs(c: Conn, spawns: bool)
    ensures
      var d := RaisedDeferral(c, spawns);
      && d.waiter == FreshWaiter(c.waiter, c.nextWaiter)
      && d.life == c.life && d.hist.livesRunning == c.hist.livesRunning
  {
  }

  lemma DeferralKeepsInv(c: Conn, cancelled: bool)
    requires Inv(c) && c.life.Deciding? && c.waiter.Pending?
    ensures Inv(EndLife(c.(state := Closed), false))
    ensures Inv(c.(state := Closed, life := AwaitsWaiter(cancelled, c.waiter.id)))
  {
  }

  lemma FinalizingKeepsInv(c: Conn)
    requires Inv(c) && c.life.Deciding?
    ensures Inv(c.(life := Finalizing(c.life.cancelled)))
  {
  }

  lemma DecideKeepsInv(c: Conn, f: Facts)
    requires Inv(c) && c.life.Deciding?
    ensures Inv(DoDecide(c, f))
  {
    var spawns := !c.opening && (HandlerSide(c, c.life.origin, f) || f.activeInline);
    DecidingIsBegun(c);
    hide Inv, RaisedDeferral, FreshWaiter, EndLife, Defers, HandlerSide;
    FinalizingKeepsInv(c);
    RaisedKeepsInv(c, spawns);
    RaisedIs(c, spawns);
    DeferralKeepsInv(RaisedDeferral(c, spawns), c.life.cancelled);
  }

  lemma DecidingIsBegun(c: Conn)
    requires Inv(c) && c.life.Deciding?
    ensures Begun(c)
  {
  }

  lemma FinalizeKeepsInv(c: Conn)
    requires Inv(c) && Begun(c) && !TearingDown(c)
    ensures Inv(Finalize(c))
  {
  }

  lemma FinalizeIs(c: Conn)
    ensures
      var d := Finalize(c);
      && d.life == c.life && d.publisher == c.publisher && d.starter == c.starter
      && (!c.published ==> !d.publication.NoPublication? && !d.published)
  {
  }

  // Who publishes has seen the close begin and its teardown end.
  lemma PublishersFollowTeardown(c: Conn)
    requires Inv(c)
    requires c.life.Finalizing? || c.publisher.Claimed? || (c.starter.Settling? && c.starter.child.Claimed?)
    ensures Begun(c) && !TearingDown(c)
  {
  }

  lemma AwaitingKeepsInv(c: Conn)
    requires Inv(c) && !c.publication.NoPublication?
    ensures c.life.Finalizing? ==> Inv(c.(life := AwaitsPublication(c.life.cancelled)))
    ensures c.publisher.Claimed? ==> Inv(c.(publisher := AwaitsEmission(c.publisher.settles)))
    ensures
      c.starter.Settling? && c.starter.child.Claimed? ==>
        Inv(c.(starter := c.starter.(child := AwaitsEmission(c.starter.child.settles))))
  {
  }

  lemma LifeFinalizesKeepsInv(c: Conn)
    requires Inv(c) && c.life.Finalizing?
    ensures Inv(DoLifeFinalizes(c))
  {
    if c.published {
      PublishedLifeKeepsInv(c);
    } else {
      hide Inv, Finalize, EndLife;
      PublishersFollowTeardown(c);
      FinalizeKeepsInv(c);
      FinalizeIs(c);
      AwaitingKeepsInv(Finalize(c));
    }
  }

  lemma PublishedLifeKeepsInv(c: Conn)
    requires Inv(c) && c.life.Finalizing? && c.published
    ensures Inv(EndLife(c, !c.life.cancelled))
  {
  }

  lemma LifeEndsKeepInv(c: Conn)
    requires Inv(c)
    ensures c.life.Informed? ==> Inv(EndLife(c, c.life.ok && !c.life.cancelled))
    ensures Enabled(c, LifeRaises) ==> Inv(DoLifeRaises(c))
  {
  }

  lemma TeardownKeepsInv(c: Conn, a: Action)
    requires Inv(c) && Enabled(c, a) && (a.TeardownSocket? || a.RunCallback? || a.CancelTeardown?)
    ensures Inv(Step(c, a))
  {
  }

  lemma StartKeepsInv(c: Conn, a: Action)
    requires Inv(c) && Enabled(c, a) && (a.Start? || a.ReadyReturns?)
    ensures Inv(Step(c, a))
  {
  }

  lemma StarterKeepsInv(c: Conn, a: Action)
    requires Inv(c) && Enabled(c, a) && (a.ReadyRaises? || a.OpenedHandlerStarts? || a.OpenedSettles?)
    ensures Inv(Step(c, a))
  {
  }

  lemma StarterResumesKeepsInv(c: Conn, a: Action)
    requires Inv(c) && Enabled(c, a) && (a.OpeningResumes? || a.StarterResumes?)
    ensures Inv(Step(c, a))
  {
  }

  lemma HandlersKeepInv(c: Conn, a: Action)
    requires Inv(c) && Enabled(c, a) && (a.HandlerEnters? || a.HandlerLeaves? || a.HandlersClear?)
    ensures Inv(Step(c, a))
  {
  }

  lemma EmissionKeepsInv(c: Conn, a: Action)
    requires Inv(c) && Enabled(c, a) && (a.EmitBegins? || a.EmitReturns?)
    ensures Inv(Step(c, a))
  {
  }

  lemma MarkKeepsInv(c: Conn)
    requires Inv(c) && c.publication.Marking?
    ensures Inv(DoMarkPublication(c))
  {
  }

  lemma EnsureKeepsInv(c: Conn)
    requires Inv(c) && MayAskForWaiter(c)
    ensures Inv(DoEnsureWaiter(c))
  {
    hide RaisedDeferral;
    RaisedKeepsInv(c, true);
  }

  lemma CancelledPublisherKeepsInv(c: Conn)
    requires Inv(c) && (c.publisher.WaitsForHandlers? || c.publisher.Told?)
    ensures Inv(DoCancelPublisher(c))
  {
  }

  lemma PublisherClaimsKeepsInv(c: Conn)
    requires Inv(c) && c.publisher.Claiming?
    ensures Inv(DoPublisherClaims(c))
  {
  }

  lemma PublisherSettlesKeepsInv(c: Conn)
    requires Inv(c) && c.publisher.Told?
    ensures Inv(DoPublisherSettles(c))
  {
    var c1 := Settle(c, c.publisher.settles, c.publisher.ok);
    SettlingKeepsInv(c);
    hide Inv, Settle, DoCancelPublisher;
    if !c.publisher.ok {
      SettleIs(c, c.publisher.settles, c.publisher.ok);
      CancelledPublisherKeepsInv(c1);
    }
  }

  // A publisher that was told settles its waiter before it is gone.
  lemma SettlingKeepsInv(c: Conn)
    requires Inv(c) && c.publisher.Told?
    ensures Inv(Settle(c, c.publisher.settles, c.publisher.ok))
    ensures Inv(Settle(c, c.publisher.settles, c.publisher.ok).(publisher := NoPublisher))
  {
  }

  lemma SettleIs(c: Conn, settles: Option<nat>, ok: bool)
    ensures Settle(c, settles, ok).publisher == c.publisher
  {
  }

  lemma PublisherFinalizesKeepsInv(c: Conn)
    requires Inv(c) && c.publisher.Claimed?
    ensures Inv(DoPublisherFinalizes(c))
  {
    if c.published {
      PublishedPublisherKeepsInv(c);
    } else {
      hide Inv, Finalize, Settle;
      PublishersFollowTeardown(c);
      FinalizeKeepsInv(c);
      FinalizeIs(c);
      AwaitingKeepsInv(Finalize(c));
    }
  }

  lemma PublishedPublisherKeepsInv(c: Conn)
    requires Inv(c) && c.publisher.Claimed? && c.published
    ensures Inv(Settle(c, c.publisher.settles, true).(publisher := NoPublisher))
  {
  }

  lemma ChildKeepsInv(c: Conn)
    requires Inv(c) && c.starter.Settling?
    ensures c.starter.child.Claiming? ==> Inv(DoChildClaims(c))
    ensures c.starter.child.Told? ==> Inv(DoChildSettles(c))
  {
  }

  lemma ChildFinalizesKeepsInv(c: Conn)
    requires Inv(c) && c.starter.Settling? && c.starter.child.Claimed?
    ensures Inv(DoChildFinalizes(c))
  {
    if c.published {
      PublishedChildKeepsInv(c);
    } else {
      hide Inv, Finalize, Settle;
      PublishersFollowTeardown(c);
      FinalizeKeepsInv(c);
      FinalizeIs(c);
      AwaitingKeepsInv(Finalize(c));
    }
  }

  lemma PublishedChildKeepsInv(c: Conn)
    requires Inv(c) && c.starter.Settling? && c.starter.child.Claimed? && c.published
    ensures Inv(Settle(c, c.starter.child.settles, true).(starter := Settled(c.starter.openFailed, Published)))
  {
  }

  lemma StepKeepsInv(c: Conn, a: Action)
    requires Inv(c) && Enabled(c, a)
    ensures Inv(Step(c, a))
  {
    hide DoClose, DoDecide, DoLifeFinalizes, DoLifeRaises, EndLife, DoMarkPublication, DoEnsureWaiter,
      DoCancelPublisher,
      DoPublisherClaims, DoPublisherSettles, DoPublisherFinalizes, DoChildClaims, DoChildSettles, DoChildFinalizes, Inv;
    match a
    case Close(i, s) => CloseKeepsInv(c, i, s);
    case Decide(f) => DecideKeepsInv(c, f);
    case LifeFinalizes => LifeFinalizesKeepsInv(c);
    case LifeResumes => LifeEndsKeepInv(c);
    case LifeRaises => LifeEndsKeepInv(c);
    case Start => StartKeepsInv(c, a);
    case ReadyReturns(_) => StartKeepsInv(c, a);
    case TeardownSocket => TeardownKeepsInv(c, a);
    case RunCallback => TeardownKeepsInv(c, a);
    case CancelTeardown => TeardownKeepsInv(c, a);
    case OpeningResumes => StarterResumesKeepsInv(c, a);
    case StarterResumes(_) => StarterResumesKeepsInv(c, a);
    case EmitBegins => EmissionKeepsInv(c, a);
    case EmitReturns(_) => EmissionKeepsInv(c, a);
    case MarkPublication => MarkKeepsInv(c);
    case EnsureWaiter => EnsureKeepsInv(c);
    case CancelPublisher => CancelledPublisherKeepsInv(c);
    case PublisherClaims => PublisherClaimsKeepsInv(c);
    case PublisherSettles => PublisherSettlesKeepsInv(c);
    case PublisherFinalizes => PublisherFinalizesKeepsInv(c);
    case ChildClaims => ChildKeepsInv(c);
    case ChildSettles => ChildKeepsInv(c);
    case ChildFinalizes => ChildFinalizesKeepsInv(c);
    case HandlerEnters => HandlersKeepInv(c, a);
    case HandlerLeaves => HandlersKeepInv(c, a);
    case HandlersClear => HandlersKeepInv(c, a);
    case _ => StarterKeepsInv(c, a);
  }
}

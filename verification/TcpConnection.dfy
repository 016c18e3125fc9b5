// AsyncioTcpConnection: the connection object and the code it runs between two
// awaits.  Each method is one such segment and is proved to be the action of
// the same name of the protocol in TcpConnectionSpec.

module TcpConnection {
  import opened Common
  import opened TcpConnectionSpec
  import Proofs = TcpConnectionProofs

  class AsyncioTcpConnection {
    var state: ConnectionState
    var closedEventPublished: bool
    var closeEventPreviousState: Option<ConnectionState>
    var closeTask: Life
    var closeEventTask: Publication
    var deferredClosePublishTask: Publisher
    var closeEventDeferred: bool
    var deferredCloseEventWaiter: Waiter
    var openingEventTask: bool
    var startTask: Starter
    var readTask: bool
    var nextWaiter: nat
    ghost var handlers: nat
    ghost var hist: History

    ghost function View(): Conn
      reads this
    {
      Conn(state, closedEventPublished, closeEventPreviousState, closeTask, closeEventTask, deferredClosePublishTask,
           closeEventDeferred, deferredCloseEventWaiter, openingEventTask, startTask, readTask, handlers, nextWaiter,
           hist)
    }

    ghost predicate Valid()
      reads this
    {
      Proofs.Inv(View())
    }

    constructor ()
      ensures View() == INITIAL && Valid()
    {
      state, closedEventPublished, closeEventPreviousState := Created, false, None;
      closeTask, closeEventTask, deferredClosePublishTask := NoLife, NoPublication, NoPublisher;
      closeEventDeferred, deferredCloseEventWaiter := false, NoWaiter;
      openingEventTask, startTask, readTask, nextWaiter := false, Idle, false, 0;
      handlers, hist := 0, INITIAL.hist;
    }

    // ---- start() ------------------------------------------------------------------

    // Runs up to the ready callback.
    method Start() returns (raises: bool)
      requires Valid() && (state.Created? || state.Connecting? ==> startTask.Idle?)
      modifies this`state, this`startTask
      ensures View() == Next(old(View()), Action.Start) && Valid()
      ensures raises <==> old(state) != Connected && !old(state.Created? || state.Connecting?)
    {
      hide Proofs.Inv;
      if state.Connected? {
        return false;
      }
      if !state.Created? && !state.Connecting? {
        return true;
      }
      Proofs.StartKeepsInv(View(), Action.Start);
      state := Connecting;
      state := Connected;
      startTask := ReadyHook;
      assert View() == Next(old(View()), Action.Start);
      return false;
    }

    // The ready callback returned: emit ConnectionOpenedEvent, the first and only time,
    // unless a close won.
    method ReadyHookReturns(inline: bool)
      requires Valid() && startTask.ReadyHook?
      modifies this`openingEventTask, this`startTask, this`hist
      ensures View() == Next(old(View()), ReadyReturns(inline)) && Valid()
      ensures hist.openedEmits == if old(state).Connected? then 1 else 0
    {
      NotOpenedYet(View());
      hide Proofs.Inv;
      Proofs.StartKeepsInv(View(), ReadyReturns(inline));
      if state != Connected {
        startTask := Finished;
      } else {
        openingEventTask := true;
        startTask := Opening(if inline then Handling else Queued);
        hist := hist.(openedEmits := hist.openedEmits + 1);
      }
      assert View() == Next(old(View()), ReadyReturns(inline));
    }

    // emit_and_wait returned or raised: create the publisher for a deferred close.
    method OpenedEventDone()
      requires Valid() && startTask.Opening? && startTask.phase.Handled?
      modifies this`openingEventTask, this`startTask
      ensures View() == Next(old(View()), OpeningResumes) && Valid()
    {
      SlotWhileOpening(View());
      hide Proofs.Inv;
      Proofs.StarterResumesKeepsInv(View(), OpeningResumes);
      var ok := startTask.phase.ok;
      if ok {
        openingEventTask := false;
      }
      startTask := Settling(!ok, Claiming);
      assert View() == Next(old(View()), OpeningResumes);
    }

    // The publisher finished: start reading if nothing was closed meanwhile.
    method FinishStart(cancelled: bool)
      requires Valid() && startTask.Settled?
      modifies this`openingEventTask, this`startTask, this`readTask
      ensures View() == Next(old(View()), StarterResumes(cancelled)) && Valid()
      ensures !openingEventTask && (readTask ==> state.Connected?)
    {
      SlotWhileSettled(View());
      hide Proofs.Inv;
      Proofs.StarterResumesKeepsInv(View(), StarterResumes(cancelled));
      if startTask.openFailed {
        openingEventTask := false;
      } else if !cancelled && startTask.outcome.NothingToPublish? && state == Connected {
        readTask := true;
      }
      startTask := Finished;
      assert View() == Next(old(View()), StarterResumes(cancelled));
    }

    // ---- close() and its lifecycle task -----------------------------------------------

    method NoteClosing()
      modifies this`closeEventPreviousState, this`hist, this`state
      ensures View() == ClosingNoted(old(View()))
    {
      if state != Closed {
        closeEventPreviousState := FirstOf(closeEventPreviousState, state);
        hist := hist.(firstPreClose := FirstOf(hist.firstPreClose, state));
        state := Closing;
      }
    }

    method BeginLifecycle(origin: Origin)
      modifies this`readTask, this`closeEventPreviousState, this`hist, this`state, this`closeTask
      ensures View() == LifeBegun(old(View()), origin) && !closeTask.NoLife?
    {
      hide ClosingNoted;
      var needsTeardown := state != Closing && state != Closed;
      if needsTeardown {
        readTask := false;
      }
      NoteClosing();
      closeTask := if needsTeardown then Teardown(origin) else Deciding(origin, false);
      hist := hist.(livesRunning := hist.livesRunning + 1);
    }

    // The locked part of close(): returns whether a lifecycle task is now running.
    method Close(usesInline: bool, byStarter: bool) returns (joins: bool)
      requires Valid()
      modifies this`readTask, this`closeEventPreviousState, this`hist, this`state, this`closeTask
      ensures View() == Next(old(View()), Action.Close(usesInline, byStarter)) && Valid()
      ensures joins ==> !closeTask.NoLife?
      ensures !joins ==> View() == old(View())
      ensures hist.firstPreClose == if old(Begun(View())) then old(hist.firstPreClose) else Some(old(state))
    {
      ClosingNotesState(View(), usesInline, byStarter);
      hide Proofs.Inv, Next, LifeBegun;
      Proofs.CloseKeepsInv(View(), usesInline, byStarter);
      if state == Closed && closeEventDeferred && openingEventTask && byStarter {
        return false;
      }
      if state == Closed && closedEventPublished {
        return false;
      }
      if closeTask.NoLife? {
        BeginLifecycle(Origin(usesInline, byStarter));
      }
      assert View() == DoClose(old(View()), usesInline, byStarter);
      return true;
    }

    // Read task stopped, writer closed: the one teardown of this connection, before
    // its close callback.
    method CloseWriter()
      requires Valid() && closeTask.Teardown?
      modifies this`closeTask, this`hist
      ensures View() == Next(old(View()), TeardownSocket) && Valid()
      ensures old(hist.teardowns) == 0 && hist.teardowns == 1 && hist.callbacks == 0 && hist.reports == []
    {
      TornDownOnce(View());
      hide Proofs.Inv;
      Proofs.TeardownKeepsInv(View(), TeardownSocket);
      closeTask := Callback(closeTask.origin);
      hist := hist.(teardowns := hist.teardowns + 1);
      assert View() == Next(old(View()), TeardownSocket);
    }

    // The one close callback, after the teardown and before any close event.
    method RunClosedCallback()
      requires Valid() && closeTask.Callback?
      modifies this`closeTask, this`hist
      ensures View() == Next(old(View()), RunCallback) && Valid()
      ensures old(hist.callbacks) == 0 && hist.callbacks == 1 && hist.teardowns == 1 && hist.reports == []
    {
      CalledBackOnce(View());
      hide Proofs.Inv;
      Proofs.TeardownKeepsInv(View(), RunCallback);
      closeTask := Deciding(closeTask.origin, false);
      hist := hist.(callbacks := hist.callbacks + 1);
      assert View() == Next(old(View()), RunCallback);
    }

    // Raises the deferral flag, makes sure a waiter is pending and, when asked, a
    // handler-side publisher is on its way.
    method RaiseDeferral(spawns: bool)
      modifies this`closeEventDeferred, this`deferredCloseEventWaiter, this`nextWaiter
      modifies this`deferredClosePublishTask, this`hist
      ensures View() == RaisedDeferral(old(View()), spawns)
    {
      hist := DeferralRaised(hist, closeEventDeferred);
      closeEventDeferred := true;
      if !deferredCloseEventWaiter.Pending? {
        deferredCloseEventWaiter := Pending(nextWaiter);
      }
      nextWaiter := nextWaiter + 1;
      if spawns && deferredClosePublishTask.NoPublisher? {
        deferredClosePublishTask := WaitsForHandlers;
      }
    }

    // _defer_close_event_until_opened_event_completes
    method DecideDeferral(f: Facts) returns (deferred: bool)
      requires Valid() && closeTask.Deciding?
      modifies this`closeEventDeferred, this`deferredCloseEventWaiter, this`nextWaiter
      modifies this`deferredClosePublishTask, this`hist, this`state, this`closeTask
      ensures View() == Next(old(View()), Decide(f)) && Valid()
      ensures deferred <==> old(Defers(View(), closeTask.origin, f))
    {
      hide Proofs.Inv, Next, RaisedDeferral;
      Proofs.DecideIs(View(), f);
      Proofs.RaisedIs(View(), !openingEventTask && (HandlerSide(View(), closeTask.origin, f) || f.activeInline));
      Proofs.DecideKeepsInv(View(), f);
      var origin, cancelled := closeTask.origin, closeTask.cancelled;
      var handlerOrigin := (origin.byStarter && openingEventTask) || f.handlerInFlight;
      var handlerSide := handlerOrigin || origin.usesInline || f.inherited;
      if !openingEventTask && !handlerSide && !f.activeInline && !closeEventDeferred {
        closeTask := Finalizing(cancelled);
        assert View() == DoDecide(old(View()), f);
        return false;
      }
      RaiseDeferral(!openingEventTask && (handlerSide || f.activeInline));
      state := Closed;
      if handlerSide {
        closeTask := NoLife;
        hist := hist.(livesRunning := hist.livesRunning - 1, livesEnded := hist.livesEnded + 1);
      } else {
        closeTask := AwaitsWaiter(cancelled, deferredCloseEventWaiter.id);
      }
      assert View() == DoDecide(old(View()), f);
      return true;
    }

    // _finalize_close up to its await: joins or creates the publication task.
    method FinalizeClose() returns (awaits: bool)
      modifies this`state, this`closeEventTask, this`hist
      ensures View() == Finalize(old(View()))
      ensures awaits == !closedEventPublished
      ensures !awaits ==> View() == old(View())
    {
      if closedEventPublished {
        return false;
      }
      if closeEventTask.NoPublication? {
        var previous := if closeEventPreviousState.Some? then closeEventPreviousState.value else Closing;
        state := Closed;
        closeEventTask := Ready(previous);
        hist := hist.(publicationsRunning := hist.publicationsRunning + 1);
      }
      return true;
    }

    method FinalizeOwnClose()
      requires Valid() && closeTask.Finalizing?
      modifies this`state, this`closeEventTask, this`hist, this`closeTask
      ensures View() == Next(old(View()), LifeFinalizes) && Valid()
    {
      hide Proofs.Inv, Next, Finalize;
      Proofs.LifeFinalizesIs(View());
      Proofs.LifeFinalizesKeepsInv(View());
      var cancelled := closeTask.cancelled;
      var awaits := FinalizeClose();
      if awaits {
        closeTask := AwaitsPublication(cancelled);
      } else {
        closeTask := NoLife;
        hist := hist.(livesRunning := hist.livesRunning - 1, livesEnded := hist.livesEnded + 1,
                      closesCompleted := hist.closesCompleted + if cancelled then 0 else 1);
      }
      assert View() == DoLifeFinalizes(old(View()));
    }

    // ---- the publication task ------------------------------------------------------------

    // The close event reports the state before the first close(), whatever happened
    // since, and no close event went out before.
    method EmitClosedEvent()
      requires Valid() && closeEventTask.Ready?
      modifies this`closeEventTask
      ensures View() == Next(old(View()), EmitBegins) && Valid()
      ensures hist.firstPreClose == Some(closeEventTask.report) && hist.reports == [] && state.Closed?
    {
      ReportsFirstState(View());
      hide Proofs.Inv;
      Proofs.EmissionKeepsInv(View(), EmitBegins);
      closeEventTask := Emitting(closeEventTask.report);
      assert View() == Next(old(View()), EmitBegins);
    }

    // A successful emission is the only one, with the state before the first close();
    // after a failed one none went out.
    method ClosedEventEmitted(ok: bool)
      requires Valid() && closeEventTask.Emitting?
      modifies this`closeEventTask, this`hist
      ensures View() == Next(old(View()), EmitReturns(ok)) && Valid()
      ensures if ok then hist.firstPreClose.Some? && hist.reports == [hist.firstPreClose.value] else hist.reports == []
    {
      ReportsFirstState(View());
      hide Proofs.Inv;
      Proofs.EmissionKeepsInv(View(), EmitReturns(ok));
      if ok {
        hist := hist.(reports := hist.reports + [closeEventTask.report]);
      }
      closeEventTask := Marking(ok);
      assert View() == Next(old(View()), EmitReturns(ok));
    }

    // Every task that awaits the publication learns its outcome.
    method TellOutcome(ok: bool)
      modifies this`closeTask, this`deferredClosePublishTask, this`startTask
      ensures View() == OutcomeTold(old(View()), ok)
    {
      if closeTask.AwaitsPublication? {
        closeTask := Informed(closeTask.cancelled, ok);
      }
      deferredClosePublishTask := Tell(deferredClosePublishTask, ok);
      if startTask.Settling? {
        startTask := startTask.(child := Tell(startTask.child, ok));
      }
    }

    // The locked finally block.
    method FinishPublication()
      requires Valid() && closeEventTask.Marking?
      modifies this`closedEventPublished, this`closeEventPreviousState, this`closeEventTask
      modifies this`closeTask, this`deferredClosePublishTask, this`startTask, this`hist
      ensures View() == Next(old(View()), MarkPublication) && Valid()
      ensures closedEventPublished == old(closeEventTask).ok
    {
      NotPublishedYet(View());
      hide OutcomeTold, Proofs.Inv, Next;
      Proofs.MarkPublicationIs(View());
      Proofs.MarkKeepsInv(View());
      var ok := closeEventTask.ok;
      if ok {
        closedEventPublished := true;
        closeEventPreviousState := None;
      }
      closeEventTask := NoPublication;
      hist := hist.(publicationsRunning := hist.publicationsRunning - 1);
      TellOutcome(ok);
      assert View() == DoMarkPublication(old(View()));
    }

    // ---- deferred publishers -------------------------------------------------------------

    // _ensure_deferred_close_publication_waiter
    method EnsureDeferredWaiter() returns (pending: bool)
      requires Valid() && (closedEventPublished || MayAskForWaiter(View()))
      modifies this`closeEventDeferred, this`deferredCloseEventWaiter, this`nextWaiter
      modifies this`deferredClosePublishTask, this`hist
      ensures View() == Next(old(View()), EnsureWaiter) && Valid()
      ensures pending == !closedEventPublished
      ensures pending ==> deferredCloseEventWaiter.Pending? && !deferredClosePublishTask.NoPublisher?
      ensures !pending ==> View() == old(View())
    {
      hide Proofs.Inv;
      if closedEventPublished {
        return false;
      }
      Proofs.EnsureKeepsInv(View());
      RaiseDeferral(true);
      assert View() == Next(old(View()), EnsureWaiter);
      return true;
    }

    // _publish_deferred_close_after_opened_event, run by the starter's child task
    // or by the handler-side publisher: takes the deferral if it is up.
    method ClaimDeferral(child: bool) returns (claimed: bool)
      requires Valid()
      requires if child then startTask.Settling? && startTask.child.Claiming? else deferredClosePublishTask.Claiming?
      modifies this`closeEventDeferred, this`hist, this`startTask, this`deferredClosePublishTask
      ensures View() == Next(old(View()), if child then ChildClaims else PublisherClaims) && Valid()
      ensures claimed == old(closeEventDeferred) && !closeEventDeferred
    {
      hide Proofs.Inv, Next;
      if child {
        Proofs.ChildClaimsIs(View());
        Proofs.ChildKeepsInv(View());
      } else {
        Proofs.PublisherClaimsIs(View());
        Proofs.PublisherClaimsKeepsInv(View());
      }
      claimed := closeEventDeferred;
      var next := if claimed then Claimed(IdOf(deferredCloseEventWaiter)) else NoPublisher;
      if claimed {
        closeEventDeferred := false;
        hist := hist.(claims := hist.claims + 1);
      }
      if child {
        startTask := if claimed then startTask.(child := next) else Settled(startTask.openFailed, NothingToPublish);
      } else {
        deferredClosePublishTask := next;
      }
      assert View() == if child then DoChildClaims(old(View())) else DoPublisherClaims(old(View()));
    }

    // Sets the claimed waiter's result and empties the slot it occupies.
    method SettleWaiter(settles: Option<nat>, ok: bool)
      modifies this`closeTask, this`deferredCloseEventWaiter
      ensures View() == Settle(old(View()), settles, ok)
    {
      if settles.Some? && deferredCloseEventWaiter == Pending(settles.value)
         && closeTask.AwaitsWaiter? && closeTask.awaited == settles.value
      {
        closeTask := Informed(closeTask.cancelled, ok);
      }
      if settles.Some? && !deferredCloseEventWaiter.NoWaiter? && deferredCloseEventWaiter.id == settles.value {
        deferredCloseEventWaiter := NoWaiter;
      }
    }

    method FinalizeForHandlers()
      requires Valid() && deferredClosePublishTask.Claimed?
      modifies this`state, this`closeEventTask, this`hist, this`closeTask
      modifies this`deferredCloseEventWaiter, this`deferredClosePublishTask
      ensures View() == Next(old(View()), PublisherFinalizes) && Valid()
    {
      hide Proofs.Inv, Next, Finalize, Settle;
      Proofs.PublisherFinalizesIs(View());
      Proofs.PublisherFinalizesKeepsInv(View());
      var settles := deferredClosePublishTask.settles;
      var awaits := FinalizeClose();
      if awaits {
        deferredClosePublishTask := AwaitsEmission(settles);
      } else {
        SettleWaiter(settles, true);
        deferredClosePublishTask := NoPublisher;
      }
      assert View() == DoPublisherFinalizes(old(View()));
    }

    method FinalizeForStarter()
      requires Valid() && startTask.Settling? && startTask.child.Claimed?
      modifies this`state, this`closeEventTask, this`hist, this`closeTask
      modifies this`deferredCloseEventWaiter, this`startTask
      ensures View() == Next(old(View()), ChildFinalizes) && Valid()
    {
      hide Proofs.Inv, Next, Finalize, Settle;
      Proofs.ChildFinalizesIs(View());
      Proofs.ChildFinalizesKeepsInv(View());
      var settles := startTask.child.settles;
      var awaits := FinalizeClose();
      if awaits {
        startTask := startTask.(child := AwaitsEmission(settles));
      } else {
        SettleWaiter(settles, true);
        startTask := Settled(startTask.openFailed, Published);
      }
      assert View() == DoChildFinalizes(old(View()));
    }

    method SettleForHandlers()
      requires Valid() && deferredClosePublishTask.Told?
      modifies this`closeTask, this`deferredCloseEventWaiter, this`deferredClosePublishTask
      ensures View() == Next(old(View()), PublisherSettles) && Valid()
    {
      hide Proofs.Inv, Next;
      Proofs.PublisherSettlesIs(View());
      Proofs.PublisherSettlesKeepsInv(View());
      var settles, ok := deferredClosePublishTask.settles, deferredClosePublishTask.ok;
      SettleWaiter(settles, ok);
      if !ok && deferredCloseEventWaiter.Pending? {
        if closeTask.AwaitsWaiter? && closeTask.awaited == deferredCloseEventWaiter.id {
          closeTask := Informed(closeTask.cancelled, false);
        }
        deferredCloseEventWaiter := Done(deferredCloseEventWaiter.id);
      }
      deferredClosePublishTask := NoPublisher;
      assert View() == DoPublisherSettles(old(View()));
    }

    method SettleForStarter()
      requires Valid() && startTask.Settling? && startTask.child.Told?
      modifies this`closeTask, this`deferredCloseEventWaiter, this`startTask
      ensures View() == Next(old(View()), ChildSettles) && Valid()
    {
      hide Proofs.Inv, Next, Settle;
      Proofs.ChildSettlesIs(View());
      Proofs.ChildKeepsInv(View());
      var ok := startTask.child.ok;
      SettleWaiter(startTask.child.settles, ok);
      startTask := Settled(startTask.openFailed, if ok then Published else Raised);
      assert View() == DoChildSettles(old(View()));
    }
  }

  // ---- what the invariant says to a caller --------------------------------------------------

  lemma NotOpenedYet(c: Conn)
    requires Proofs.Inv(c) && c.starter.ReadyHook?
    ensures c.hist.openedEmits == 0
  {
  }

  lemma SlotWhileOpening(c: Conn)
    requires Proofs.Inv(c) && c.starter.Opening?
    ensures c.opening
  {
  }

  lemma SlotWhileSettled(c: Conn)
    requires Proofs.Inv(c) && c.starter.Settled?
    ensures c.opening <==> c.starter.openFailed
    ensures !c.reading
  {
  }

  lemma ClosingNotesState(c: Conn, usesInline: bool, byStarter: bool)
    requires Proofs.Inv(c)
    ensures Next(c, Action.Close(usesInline, byStarter)) == DoClose(c, usesInline, byStarter)
    ensures
      DoClose(c, usesInline, byStarter).hist.firstPreClose == if Begun(c) then c.hist.firstPreClose else Some(c.state)
  {
  }

  lemma TornDownOnce(c: Conn)
    requires Proofs.Inv(c) && c.life.Teardown?
    ensures c.hist.teardowns == 0 && c.hist.callbacks == 0 && c.hist.reports == []
  {
  }

  lemma CalledBackOnce(c: Conn)
    requires Proofs.Inv(c) && c.life.Callback?
    ensures c.hist.teardowns == 1 && c.hist.callbacks == 0 && c.hist.reports == []
  {
  }

  lemma ReportsFirstState(c: Conn)
    requires Proofs.Inv(c) && (c.publication.Ready? || c.publication.Emitting?)
    ensures c.hist.firstPreClose == Some(c.publication.report) && c.hist.reports == [] && c.state.Closed?
  {
  }

  lemma NotPublishedYet(c: Conn)
    requires Proofs.Inv(c) && !c.publication.NoPublication?
    ensures !c.published
  {
  }
}

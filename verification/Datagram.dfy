// The asyncio datagram receiver base: its runtime fields and its code between two
// awaits.  Each method is proved to be the action of DatagramSpec it implements.

module Datagram {
  import opened Common
  import L = Lifecycle
  import opened DatagramSpec
  import Proofs = DatagramProofs

  lemma StoppedCannotStop()
    ensures L.Request(L.Stopped, L.Stopping).Illegal?
  {
  }

  class DatagramReceiver {
    var lifecycleState: L.Lifecycle
    var runtime: Runtime
    var stop: Owner
    var openingEventTask: Option<nat>
    var publishTask: bool
    var nextSock: nat
    var starters: Starters
    ghost var applied: seq<L.Transition>
    ghost var log: seq<Event>
    ghost var closed: seq<nat>
    ghost var leaked: seq<nat>

    ghost function View(): Receiver
      reads this
    {
      Receiver(L.Track(lifecycleState, applied), runtime, stop, starters, openingEventTask, publishTask, nextSock, log,
               closed, leaked)
    }

    ghost predicate Valid()
      reads this
    {
      Proofs.Inv(View())
    }

    constructor ()
      ensures View() == INITIAL && Valid()
    {
      lifecycleState, runtime, stop, openingEventTask, publishTask := L.Stopped, DETACHED, NoOwner, None, false;
      nextSock, starters := 0, INITIAL.starters;
      applied, log, closed, leaked := [], [], [], [];
    }

    method Apply(target: L.Lifecycle) returns (outcome: L.Applied)
      modifies this`lifecycleState, this`applied
      ensures outcome == L.Request(old(lifecycleState), target)
      ensures L.Track(lifecycleState, applied) == L.Apply(L.Track(old(lifecycleState), old(applied)), target)
    {
      outcome := L.Request(lifecycleState, target);
      if outcome.Changed? {
        applied := applied + [outcome.event];
        lifecycleState := target;
      }
    }

    // ---- start() ------------------------------------------------------------------

    // _begin_startup up to its await.
    method BeginStartup() returns (proceeds: bool, raises: bool)
      requires Valid()
      modifies this`lifecycleState, this`applied, this`starters, this`log
      ensures View() == Next(old(View()), StartBegins) && Valid()
      ensures proceeds <==> old(lifecycleState).Stopped?
      ensures raises <==> old(lifecycleState).Stopping?
    {
      hide Proofs.Inv;
      if L.Active(lifecycleState) {
        return false, false;
      }
      if lifecycleState.Stopped? {
        Proofs.StartBeginsKeepsInv(View());
      }
      var outcome := Apply(L.Starting);
      if outcome.Illegal? {
        return false, true;
      }
      starters := starters.(starting := starters.starting + 1);
      log := log + [Life(outcome.event)];
      assert View() == Next(old(View()), StartBegins);
      return true, false;
    }

    // STARTING was handled and no stop intervened: attach the new socket.
    method AttachSocket()
      requires starters.starting > 0 && lifecycleState.Starting?
      modifies this`lifecycleState, this`applied, this`starters, this`log, this`runtime, this`nextSock
      ensures View() == DoStartingDelivered(old(View()), true)
    {
      var _ := Apply(L.Running);
      hide L.Apply, L.Request;
      starters := starters.(starting := starters.starting - 1);
      log := log + [Life(L.Transition(L.Starting, L.Running))];
      runtime := Runtime(true, Some(nextSock), runtime.task, Connected);
      starters := starters.(at := starters.at[nextSock := Announcing]);
      nextSock := nextSock + 1;
    }

    // _fail_startup: there is no socket to attach.
    method FailStartup()
      requires starters.starting > 0 && lifecycleState.Starting?
      modifies this`lifecycleState, this`applied, this`starters, this`log, this`runtime
      ensures View() == DoStartingDelivered(old(View()), false)
    {
      var _ := Apply(L.Stopped);
      hide L.Apply, L.Request;
      starters := starters.(starting := starters.starting - 1);
      log := log + [Life(L.Transition(L.Starting, L.Stopped))];
      runtime := DETACHED;
    }

    method CompleteStartup(socketOk: bool)
      requires Valid() && starters.starting > 0
      modifies this`lifecycleState, this`applied, this`starters, this`log, this`runtime, this`nextSock
      ensures View() == Next(old(View()), StartingDelivered(socketOk)) && Valid()
    {
      hide Proofs.Inv, DoStartingDelivered;
      Proofs.DeliveredKeepsInv(View(), socketOk);
      if !lifecycleState.Starting? {
        NothingToAttach(View(), socketOk);
        starters := starters.(starting := starters.starting - 1);
      } else if socketOk {
        AttachSocket();
      } else {
        FailStartup();
      }
      assert View() == Next(old(View()), StartingDelivered(socketOk));
    }

    method RollBackStartingPublication()
      requires Valid() && starters.starting > 0
      modifies this`lifecycleState, this`applied, this`starters, this`runtime
      ensures View() == Next(old(View()), StartingFails) && Valid()
    {
      hide L.Apply, L.Request, Proofs.Inv;
      Proofs.FailedStartKeepsInv(View());
      starters := starters.(starting := starters.starting - 1);
      if lifecycleState.Starting? {
        runtime := DETACHED;
        var _ := Apply(L.Stopped);
      }
      assert View() == Next(old(View()), StartingFails);
    }

    // RUNNING was emitted: publish the opened event unless a stop won.
    method AnnounceOpened(id: nat, ok: bool)
      requires Valid() && Enabled(View(), RunningEmitted(id, ok))
      modifies this`openingEventTask, this`starters, this`log
      ensures View() == Next(old(View()), RunningEmitted(id, ok)) && Valid()
    {
      hide Proofs.Inv;
      Proofs.OpeningKeepsInv(View(), RunningEmitted(id, ok));
      if ok && runtime.sock == Some(id) && runtime.running && lifecycleState.Running? {
        openingEventTask := Some(id);
        starters := starters.(at := starters.at[id := Delivering]);
        log := log + [Opened(id)];
      } else {
        starters := starters.(at := starters.at - {id});
      }
      assert View() == Next(old(View()), RunningEmitted(id, ok));
    }

    // A failed delivery goes on with the slot still taken.
    method OpenedEventDone(id: nat, ok: bool)
      requires Valid() && Enabled(View(), OpenedHandled(id, ok))
      modifies this`openingEventTask, this`starters
      ensures View() == Next(old(View()), OpenedHandled(id, ok)) && Valid()
    {
      hide Proofs.Inv;
      Proofs.OpeningKeepsInv(View(), OpenedHandled(id, ok));
      if ok && openingEventTask == Some(id) {
        openingEventTask := None;
      }
      starters := starters.(at := starters.at[id := if ok then Looking else Failing]);
      assert View() == Next(old(View()), OpenedHandled(id, ok));
    }

    // _publish_deferred_close_after_opened_event: takes the deferred close event, if
    // there is one, publishes it and tells the stop that waits for it.
    method PublishDeferredClose(ok: bool) returns (published: bool)
      modifies this`stop, this`log
      ensures View() == Looked(old(View()), ok) && published == CloseDeferred(old(View()))
    {
      if !stop.Owner? || !stop.phase.AwaitClose? {
        return false;
      }
      log := log + [ClosedEvent(stop.plan.previous)];
      stop := Note(stop, ok, Finish);
      return true;
    }

    // The look of a start() call.  After a published close event there is nothing to
    // receive; in the failure path the slot comes next in any case.
    method LookForDeferredClose(id: nat, ok: bool)
      requires Valid() && Enabled(View(), StarterLooks(id, ok))
      modifies this`stop, this`log, this`starters
      ensures View() == Next(old(View()), StarterLooks(id, ok)) && Valid()
    {
      hide Proofs.Inv, Looked;
      Proofs.LookingKeepsInv(View(), StarterLooks(id, ok));
      LookedKeepsStarters(View(), ok);
      var published := PublishDeferredClose(ok);
      if starters.at[id].Failing? {
        starters := starters.(at := starters.at[id := Clearing]);
      } else if published {
        starters := starters.(at := starters.at - {id});
      } else {
        starters := starters.(at := starters.at[id := Attaching]);
      }
      assert View() == Next(old(View()), StarterLooks(id, ok));
    }

    // The look of the task made for a deferred close, once no handler is active.
    method PublishForHandlers(ok: bool)
      requires Valid() && publishTask
      modifies this`stop, this`log, this`publishTask
      ensures View() == Next(old(View()), PublisherLooks(ok)) && Valid()
    {
      hide Proofs.Inv, Looked;
      Proofs.LookingKeepsInv(View(), PublisherLooks(ok));
      var _ := PublishDeferredClose(ok);
      publishTask := false;
      assert View() == Next(old(View()), PublisherLooks(ok));
    }

    method ClearOpeningSlot(id: nat)
      requires Valid() && Enabled(View(), OpeningCleared(id))
      modifies this`openingEventTask, this`starters
      ensures View() == Next(old(View()), OpeningCleared(id)) && Valid()
    {
      hide Proofs.Inv;
      Proofs.OpeningKeepsInv(View(), OpeningCleared(id));
      starters := starters.(at := starters.at - {id});
      if openingEventTask == Some(id) {
        openingEventTask := None;
      }
      assert View() == Next(old(View()), OpeningCleared(id));
    }

    method StartReceiving(id: nat)
      requires Valid() && Enabled(View(), ReceiverStarts(id))
      modifies this`runtime, this`starters
      ensures View() == Next(old(View()), ReceiverStarts(id)) && Valid()
    {
      hide Proofs.Inv;
      Proofs.OpeningKeepsInv(View(), ReceiverStarts(id));
      starters := starters.(at := starters.at - {id});
      if runtime.sock == Some(id) && runtime.running && lifecycleState.Running? {
        runtime := runtime.(task := Some(id));
      }
      assert View() == Next(old(View()), ReceiverStarts(id));
    }

    // ---- stop() -------------------------------------------------------------------

    // Takes the stop over: resources leave the runtime state for the plan.
    method Detach(deferred: bool, sparesTask: bool)
      modifies this`lifecycleState, this`applied, this`runtime, this`stop
      ensures View() == DoStop(old(View()), deferred, sparesTask)
    {
      hide L.Apply, L.Request;
      var plan := Plan(None, false, !lifecycleState.Starting?, runtime.conn, runtime.sock,
                       runtime.task.Some? && !sparesTask, false);
      assert lifecycleState.Stopped? ==> !L.Request(lifecycleState, L.Stopping).Changed? by {
        StoppedCannotStop();
      }
      if !lifecycleState.Stopped? {
        var outcome := Apply(L.Stopping);
        plan := plan.(stopping := if outcome.Changed? then Some(outcome.event) else None, toStopped := true);
      }
      runtime := Runtime(false, None, None, Closed);
      stop := Owner(deferred, if deferred then Teardown else Announce, plan);
    }

    // _plan_stop_snapshot: the first caller owns the stop, later ones wait for it,
    // and a stopped receiver has nothing to do.
    method PlanStop(deferred: bool, sparesTask: bool) returns (owns: bool, waits: bool)
      requires Valid()
      modifies this`lifecycleState, this`applied, this`runtime, this`stop
      ensures View() == Next(old(View()), Stop(deferred, sparesTask)) && Valid()
      ensures owns <==> old(stop).NoOwner? && !FullyStopped(old(View()))
      ensures waits <==> old(stop).Owner?
    {
      hide DoStop, Proofs.Inv;
      waits := stop.Owner?;
      owns := !waits && !(!runtime.running && runtime.sock.None? && lifecycleState.Stopped?);
      if owns {
        Proofs.StopKeepsInv(View(), deferred, sparesTask);
        Detach(deferred, sparesTask);
        assert View() == Next(old(View()), Stop(deferred, sparesTask));
      }
    }

    method PublishStopping(ok: bool)
      requires Valid() && Enabled(View(), StopAnnounces(ok))
      modifies this`log, this`stop
      ensures View() == Next(old(View()), StopAnnounces(ok)) && Valid()
    {
      hide Proofs.Inv;
      Proofs.AnnouncingKeepsInv(View(), ok);
      if stop.plan.stopping.Some? {
        log := log + [Life(stop.plan.stopping.value)];
      }
      stop := Note(stop, ok, if stop.deferred then (if ok then Close else Finish) else Teardown);
      assert View() == Next(old(View()), StopAnnounces(ok));
    }

    // An exception of the awaited receive task leaves the socket open.
    method TearDownResources(outcome: Torn)
      requires Valid() && Enabled(View(), StopTearsDown(outcome))
      modifies this`closed, this`leaked, this`stop
      ensures View() == Next(old(View()), StopTearsDown(outcome)) && Valid()
    {
      hide Proofs.Inv;
      Proofs.TeardownKeepsInv(View(), outcome);
      if stop.plan.sock.Some? {
        if outcome.TaskRaised? {
          leaked := leaked + [stop.plan.sock.value];
        } else {
          closed := closed + [stop.plan.sock.value];
        }
      }
      var ok := outcome.TornDown?;
      if stop.deferred && !ok {
        stop := NoOwner;
      } else {
        var next := if stop.deferred then Bypass else if ok && !stop.plan.failed then Close else Finish;
        var plan := stop.plan.(sock := None, awaits := false, failed := stop.plan.failed || !ok);
        stop := stop.(phase := next, plan := plan);
      }
      assert closed + [] == closed && leaked + [] == leaked;
      assert View() == Next(old(View()), StopTearsDown(outcome));
    }

    method PublishClosed(handlerActive: bool, ok: bool)
      requires Valid() && Enabled(View(), StopCloses(handlerActive, ok))
      modifies this`log, this`stop, this`publishTask
      ensures View() == Next(old(View()), StopCloses(handlerActive, ok)) && Valid()
    {
      hide Proofs.Inv;
      Proofs.ClosingKeepsInv(View(), handlerActive, ok);
      if !stop.plan.closes {
        stop := stop.(phase := Finish);
      } else if openingEventTask.Some? || handlerActive {
        if openingEventTask.None? {
          publishTask := true;
        }
        stop := stop.(phase := AwaitClose);
      } else {
        log := log + [ClosedEvent(stop.plan.previous)];
        stop := Note(stop, ok, Finish);
      }
      assert View() == Next(old(View()), StopCloses(handlerActive, ok));
    }

    method PublishStopped()
      requires Valid() && Enabled(View(), StopFinishes)
      modifies this`lifecycleState, this`applied, this`log, this`stop
      ensures View() == Next(old(View()), StopFinishes) && Valid()
    {
      hide L.Apply, L.Request, L.Legal, Proofs.Inv;
      Proofs.FinishingKeepsInv(View());
      if stop.plan.toStopped {
        var outcome := Apply(L.Stopped);
        if !stop.plan.failed && outcome.Changed? {
          log := log + [Life(outcome.event)];
        }
      }
      stop := stop.(phase := Ending);
      assert View() == Next(old(View()), StopFinishes);
    }
  }

  lemma NothingToAttach(r: Receiver, socketOk: bool)
    requires r.starters.starting > 0 && !r.track.state.Starting?
    ensures DoStartingDelivered(r, socketOk) == r.(starters := r.starters.(starting := r.starters.starting - 1))
  {
  }

  lemma LookedKeepsStarters(r: Receiver, ok: bool)
    ensures Looked(r, ok).starters == r.starters
  {
  }
}

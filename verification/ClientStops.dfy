// What a stop() call of the TCP client finds when it returns.
//
// The call that owns a stop and every call that joined it return when the owner releases
// its waiter.  STOPPED is applied before that, and a start() need not wait for the waiter:
// a new life may be under way by then, also for a stop() that was called in it and joined
// the owner of the earlier one.

module ClientStops {
  import opened Common
  import L = Lifecycle
  import opened ClientLifecycle

  // The waiter is released, and the client is active.
  predicate ReturnsActive(c: Client) { c.owner.Releasing? && L.Active(c.track.state) }

  // A new life begins while a stop call still holds its waiter.
  predicate Restarts(c: Client, a: Action) { a.StartBegins? && Enabled(c, a) && !c.owner.NoOwner? }

  ghost predicate Patient(c: Client, acts: seq<Action>)
    decreases acts
  {
    acts == [] || (!Restarts(c, acts[0]) && Patient(Next(c, acts[0]), acts[1..]))
  }

  predicate Quieted(c: Client) { !c.owner.NoOwner? ==> !L.Active(c.track.state) }

  lemma StepStaysQuieted(c: Client, a: Action)
    requires Inv(c) && Quieted(c) && Enabled(c, a)
    ensures Quieted(Step(c, a)) <==> !Restarts(c, a)
  {
    hide L.IsPath, SameActorEnds;
  }

  lemma {:induction false} RunStaysQuieted(c: Client, acts: seq<Action>)
    requires Inv(c) && Quieted(c) && Patient(c, acts)
    ensures Inv(RunFrom(c, acts)) && Quieted(RunFrom(c, acts))
    decreases acts
  {
    hide Inv, Quieted, Step, Enabled, Restarts;
    if acts != [] {
      if Enabled(c, acts[0]) {
        StepKeepsInv(c, acts[0]);
        StepStaysQuieted(c, acts[0]);
      }
      RunStaysQuieted(Next(c, acts[0]), acts[1..]);
    }
  }

  // Some continuation without a further such beginning lets a stop() return on an active
  // client.
  ghost predicate CanReturnActive(c: Client) { exists acts :: Patient(c, acts) && ReturnsActive(RunFrom(c, acts)) }

  lemma RestartReturnsActive(c: Client)
    requires Restarts(c, StartBegins)
    ensures CanReturnActive(Step(c, StartBegins))
  {
    var d := Step(c, StartBegins);
    if d.owner.Releasing? {
      assert Patient(d, []) && ReturnsActive(RunFrom(d, []));
    } else {
      var acts := [StopApplies];
      assert acts[1..] == [] && Patient(d, acts);
      assert ReturnsActive(RunFrom(d, acts));
    }
  }

  lemma QuietedCannotReturnActive(c: Client)
    requires Inv(c) && Quieted(c)
    ensures !CanReturnActive(c)
  {
    hide Inv, RunFrom, Patient;
    forall acts | Patient(c, acts)
      ensures !ReturnsActive(RunFrom(c, acts))
    {
      RunStaysQuieted(c, acts);
    }
  }

  // After any run in which no life began beside a stop's waiter: an action makes it
  // possible that a stop() returns on an active client exactly if it begins such a life.
  lemma ReturnsActiveExactly(before: seq<Action>, a: Action)
    requires Patient(INITIAL, before)
    ensures CanReturnActive(Next(RunFrom(INITIAL, before), a)) <==> Restarts(RunFrom(INITIAL, before), a)
  {
    var c := RunFrom(INITIAL, before);
    RunStaysQuieted(INITIAL, before);
    hide Inv, Quieted, RunFrom, Patient, CanReturnActive, Step, Enabled;
    if Restarts(c, a) {
      RestartReturnsActive(c);
    } else {
      if Enabled(c, a) {
        StepKeepsInv(c, a);
        StepStaysQuieted(c, a);
      }
      QuietedCannotReturnActive(Next(c, a));
    }
  }

  ghost predicate RestartsAt(acts: seq<Action>, i: int) {
    0 <= i < |acts| && Restarts(RunFrom(INITIAL, acts[..i]), acts[i])
  }

  lemma {:induction false} RestartedSomewhere(c: Client, acts: seq<Action>) returns (i: nat)
    requires !Patient(c, acts)
    ensures i < |acts| && Restarts(RunFrom(c, acts[..i]), acts[i])
    decreases acts
  {
    hide Restarts, Next;
    if Restarts(c, acts[0]) {
      i := 0;
      assert acts[..0] == [];
    } else {
      var k := RestartedSomewhere(Next(c, acts[0]), acts[1..]);
      i := k + 1;
      assert acts[..k + 1][0] == acts[0] && acts[..k + 1][1..] == acts[1..][..k];
    }
  }

  // Over all runs: whoever awaited a stop finds the client inactive when the waiter is
  // released, unless a life began beside a stop's waiter.
  lemma ReturnedStopMeansInactive(acts: seq<Action>)
    ensures ReturnsActive(RunFrom(INITIAL, acts)) ==> exists i :: RestartsAt(acts, i)
  {
    hide RunFrom, Restarts;
    if Patient(INITIAL, acts) {
      hide Patient;
      assert Inv(INITIAL) && Quieted(INITIAL);
      RunStaysQuieted(INITIAL, acts);
      hide Inv;
    } else {
      var i := RestartedSomewhere(INITIAL, acts);
      assert RestartsAt(acts, i);
    }
  }

  // A stop of the second life, called now, would join the owner of the first one and
  // return with the client RUNNING.
  lemma StopReturnsOnRunningClient()
    ensures var c := RunFrom(INITIAL, FIRST_LIFE + SECOND_LIFE); ReturnsActive(c) && c.track.state.Running?
  {
    hide RunFrom;
    RunConcat(INITIAL, FIRST_LIFE, SECOND_LIFE);
    FirstLife();
    SecondLife(RunFrom(INITIAL, FIRST_LIFE));
  }
}

// What a stop() call of the TCP server finds when it returns.
//
// As for the client, everybody who awaits a stop returns when its owner releases the
// waiter, and a start() need not wait for that.

module ServerStops {
  import opened Common
  import L = Lifecycle
  import opened ServerTables

  // The waiter is released, and the server is active.
  predicate ReturnsActive(s: Server) { s.stopping && L.Active(s.lifecycle) }

  // A new life begins while a stop call still holds its waiter.
  predicate Restarts(s: Server, a: Action) { a.StartBegins? && Enabled(s, a) && s.stopping }

  ghost predicate Patient(s: Server, acts: seq<Action>, maxConnections: nat)
    decreases acts
  {
    acts == []
    || (!Restarts(s, acts[0]) && Patient(Next(s, acts[0], maxConnections), acts[1..], maxConnections))
  }

  predicate Quieted(s: Server) { s.stopping ==> !L.Active(s.lifecycle) }

  lemma NextStaysQuieted(s: Server, a: Action, maxConnections: nat)
    requires Quieted(s)
    ensures Quieted(Next(s, a, maxConnections)) <==> !Restarts(s, a)
  {
  }

  lemma {:induction false} RunStaysQuieted(s: Server, acts: seq<Action>, maxConnections: nat)
    requires Quieted(s) && Patient(s, acts, maxConnections)
    ensures Quieted(RunFrom(s, acts, maxConnections))
    decreases acts
  {
    hide Next, Quieted, Restarts;
    if acts != [] {
      NextStaysQuieted(s, acts[0], maxConnections);
      RunStaysQuieted(Next(s, acts[0], maxConnections), acts[1..], maxConnections);
    }
  }

  // Some continuation without a further such beginning lets a stop() return on an active
  // server.
  ghost predicate CanReturnActive(s: Server, maxConnections: nat) {
    exists acts :: Patient(s, acts, maxConnections) && ReturnsActive(RunFrom(s, acts, maxConnections))
  }

  // After any run in which no life began beside a stop's waiter: an action makes it
  // possible that a stop() returns on an active server exactly if it begins such a life.
  lemma ReturnsActiveExactly(before: seq<Action>, a: Action, maxConnections: nat)
    requires Patient(INITIAL, before, maxConnections)
    ensures
      var s := RunFrom(INITIAL, before, maxConnections);
      CanReturnActive(Next(s, a, maxConnections), maxConnections) <==> Restarts(s, a)
  {
    var s := RunFrom(INITIAL, before, maxConnections);
    RunStaysQuieted(INITIAL, before, maxConnections);
    var d := Next(s, a, maxConnections);
    NextStaysQuieted(s, a, maxConnections);
    if Restarts(s, a) {
      assert Patient(d, [], maxConnections) && ReturnsActive(RunFrom(d, [], maxConnections));
    } else {
      hide RunFrom, Patient, Next;
      forall acts | Patient(d, acts, maxConnections)
        ensures !ReturnsActive(RunFrom(d, acts, maxConnections))
      {
        RunStaysQuieted(d, acts, maxConnections);
      }
    }
  }

  ghost predicate RestartsAt(acts: seq<Action>, i: int, maxConnections: nat) {
    0 <= i < |acts| && Restarts(RunFrom(INITIAL, acts[..i], maxConnections), acts[i])
  }

  lemma {:induction false} RestartedSomewhere(s: Server, acts: seq<Action>, maxConnections: nat) returns (i: nat)
    requires !Patient(s, acts, maxConnections)
    ensures i < |acts| && Restarts(RunFrom(s, acts[..i], maxConnections), acts[i])
    decreases acts
  {
    hide Restarts, Next;
    if Restarts(s, acts[0]) {
      i := 0;
      assert acts[..0] == [];
    } else {
      var k := RestartedSomewhere(Next(s, acts[0], maxConnections), acts[1..], maxConnections);
      i := k + 1;
      assert acts[..k + 1][0] == acts[0] && acts[..k + 1][1..] == acts[1..][..k];
    }
  }

  // Over all runs: whoever awaited a stop finds the server inactive when the waiter is
  // released, unless a life began beside a stop's waiter.
  lemma ReturnedStopMeansInactive(acts: seq<Action>, maxConnections: nat)
    ensures ReturnsActive(RunFrom(INITIAL, acts, maxConnections)) ==> exists i :: RestartsAt(acts, i, maxConnections)
  {
    hide RunFrom, Restarts;
    if Patient(INITIAL, acts, maxConnections) {
      RunStaysQuieted(INITIAL, acts, maxConnections);
    } else {
      var i := RestartedSomewhere(INITIAL, acts, maxConnections);
      assert RestartsAt(acts, i, maxConnections);
    }
  }

  // A second life begins between STOPPED and the release of the waiter.
  const FIRST_LIFE := [StartBegins] + [StartCompletes] + [StopBegins] + [StopApplies]

  lemma StopReturnsOnRunningServer(maxConnections: nat)
    ensures
      var s := RunFrom(INITIAL, FIRST_LIFE + [StartBegins] + [StartCompletes], maxConnections);
      ReturnsActive(s) && s.lifecycle.Running?
  {
    hide RunFrom;
    assert [] + [StartBegins] == [StartBegins];
    RunSnoc(INITIAL, [], StartBegins, maxConnections);
    RunSnoc(INITIAL, [StartBegins], StartCompletes, maxConnections);
    RunSnoc(INITIAL, [StartBegins] + [StartCompletes], StopBegins, maxConnections);
    RunSnoc(INITIAL, [StartBegins] + [StartCompletes] + [StopBegins], StopApplies, maxConnections);
    RunSnoc(INITIAL, FIRST_LIFE, StartBegins, maxConnections);
    RunSnoc(INITIAL, FIRST_LIFE + [StartBegins], StartCompletes, maxConnections);
    NothingRun(maxConnections);
  }

  lemma NothingRun(maxConnections: nat)
    ensures RunFrom(INITIAL, [], maxConnections) == INITIAL
  {
  }
}

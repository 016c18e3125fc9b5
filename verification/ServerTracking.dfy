// What the server's tables mean: which connections and which heartbeat senders they hold,
// read off the actions of the run.

module ServerTracking {
  import opened Common
  import opened ConnectionIds
  import L = Lifecycle
  import opened ServerTables

  // How many clients were accepted or refused so far.
  function Arrivals(acts: seq<Action>): nat {
    if acts == [] then 0 else Arrivals(acts[..|acts| - 1]) + if acts[|acts| - 1].Accept? then 1 else 0
  }

  // The client that arrives with action `i` is admitted as `id`: the server is RUNNING and
  // has room.
  predicate Admits(acts: seq<Action>, i: int, id: string, maxConnections: nat) {
    0 <= i < |acts| && acts[i].Accept?
    && var s := RunFrom(INITIAL, acts[..i], maxConnections);
       && s.lifecycle.Running? && |s.connections| < maxConnections
       && id == ConnectionId(acts[i].peer, Arrivals(acts[..i]) + 1)
  }

  // A stop that finds no other one under way takes everything.
  predicate TakesAll(acts: seq<Action>, k: int, maxConnections: nat) {
    0 <= k < |acts| && acts[k].StopBegins? && !RunFrom(INITIAL, acts[..k], maxConnections).stopping
  }

  predicate Leaves(acts: seq<Action>, k: int, id: string, maxConnections: nat) {
    0 <= k < |acts| && (acts[k] == ConnectionClosed(id) || TakesAll(acts, k, maxConnections))
  }

  ghost predicate Stays(acts: seq<Action>, i: int, id: string, maxConnections: nat) {
    Admits(acts, i, id, maxConnections) && forall k :: i < k < |acts| ==> !Leaves(acts, k, id, maxConnections)
  }

  // ---- one more action -------------------------------------------------------------------

  lemma Earlier(acts: seq<Action>, a: Action, k: int, id: string, maxConnections: nat)
    requires 0 <= k < |acts|
    ensures Admits(acts + [a], k, id, maxConnections) == Admits(acts, k, id, maxConnections)
    ensures Leaves(acts + [a], k, id, maxConnections) == Leaves(acts, k, id, maxConnections)
    ensures Begins(acts + [a], k, id, maxConnections) == Begins(acts, k, id, maxConnections)
    ensures Ceases(acts + [a], k, id, maxConnections) == Ceases(acts, k, id, maxConnections)
    ensures (acts + [a])[k] == acts[k]
  {
    assert (acts + [a])[..k] == acts[..k];
    hide ConnectionId, RunFrom, Arrivals;
  }

  lemma LatestArrival(acts: seq<Action>, a: Action, id: string, maxConnections: nat)
    ensures
      var s := RunFrom(INITIAL, acts, maxConnections);
      Admits(acts + [a], |acts|, id, maxConnections)
      <==> a.Accept? && s.lifecycle.Running? && |s.connections| < maxConnections
           && id == ConnectionId(a.peer, Arrivals(acts) + 1)
  {
    hide ConnectionId, RunFrom, Arrivals;
    assert (acts + [a])[..|acts|] == acts && (acts + [a])[|acts|] == a;
  }

  lemma Latest(acts: seq<Action>, a: Action, id: string, maxConnections: nat)
    ensures
      var n, s := |acts|, RunFrom(INITIAL, acts, maxConnections);
      && (Leaves(acts + [a], n, id, maxConnections)
          <==> a == ConnectionClosed(id) || (a.StopBegins? && !s.stopping))
      && (Begins(acts + [a], n, id, maxConnections)
          <==> a == RegisterHeartbeat(id) && id in s.accepting && s.lifecycle.Running? && id in s.connections)
      && (Ceases(acts + [a], n, id, maxConnections)
          <==> a == ConnectionClosed(id) || a == HeartbeatFails(id) || (a.StopBegins? && !s.stopping))
  {
    hide RunFrom;
    assert (acts + [a])[..|acts|] == acts && (acts + [a])[|acts|] == a;
  }

  lemma StaysOn(acts: seq<Action>, a: Action, id: string, maxConnections: nat)
    ensures
      (exists i :: Stays(acts + [a], i, id, maxConnections))
      <==> Admits(acts + [a], |acts|, id, maxConnections)
           || ((exists i :: Stays(acts, i, id, maxConnections)) && !Leaves(acts + [a], |acts|, id, maxConnections))
  {
    hide Admits, Leaves, Begins, Ceases;
    var more := acts + [a];
    forall k | 0 <= k < |acts|
      ensures Admits(more, k, id, maxConnections) == Admits(acts, k, id, maxConnections)
      ensures Leaves(more, k, id, maxConnections) == Leaves(acts, k, id, maxConnections)
    {
      Earlier(acts, a, k, id, maxConnections);
    }
    if i :| Stays(more, i, id, maxConnections) {
      AdmittedWithin(more, i, id, maxConnections);
      if i < |acts| {
        assert Stays(acts, i, id, maxConnections);
      }
    }
    if Admits(more, |acts|, id, maxConnections) {
      assert Stays(more, |acts|, id, maxConnections);
    }
    if i :| Stays(acts, i, id, maxConnections) {
      AdmittedWithin(acts, i, id, maxConnections);
      if !Leaves(more, |acts|, id, maxConnections) {
        assert Stays(more, i, id, maxConnections);
      }
    }
  }

  lemma AdmittedWithin(acts: seq<Action>, i: int, id: string, maxConnections: nat)
    requires Admits(acts, i, id, maxConnections)
    ensures 0 <= i < |acts|
  {
  }

  // ---- who is tracked -----------------------------------------------------------------------

  lemma {:induction false} CountsArrivals(acts: seq<Action>, maxConnections: nat)
    ensures RunFrom(INITIAL, acts, maxConnections).sequence == Arrivals(acts)
    decreases |acts|
  {
    hide RunFrom, ConnectionId;
    if acts == [] {
      NothingRun(maxConnections);
    } else {
      var before, a := acts[..|acts| - 1], acts[|acts| - 1];
      assert acts == before + [a];
      CountsArrivals(before, maxConnections);
      RunSnoc(INITIAL, before, a, maxConnections);
    }
  }

  lemma NothingRun(maxConnections: nat)
    ensures RunFrom(INITIAL, [], maxConnections) == INITIAL
  {
  }

  lemma TablesMove(s: Server, a: Action, id: string, maxConnections: nat)
    ensures
      var d := Next(s, a, maxConnections);
      var admitted := a.Accept? && s.lifecycle.Running? && |s.connections| < maxConnections
                      && id == ConnectionId(a.peer, s.sequence + 1);
      var taken := a == ConnectionClosed(id) || (a.StopBegins? && !s.stopping);
      var entered := a == RegisterHeartbeat(id) && id in s.accepting && s.lifecycle.Running? && id in s.connections;
      && (id in d.connections <==> admitted || (id in s.connections && !taken))
      && (id in d.heartbeats <==> entered || (id in s.heartbeats && a != HeartbeatFails(id) && !taken))
      && (id in d.accepting <==> admitted || (id in s.accepting && a != RegisterHeartbeat(id)))
  {
    hide ConnectionId;
  }

  // Over all runs: exactly those connections are tracked that were admitted and have neither
  // closed nor been taken by a stop since.
  lemma {:induction false} TrackedExactly(acts: seq<Action>, id: string, maxConnections: nat)
    ensures
      id in RunFrom(INITIAL, acts, maxConnections).connections
      <==> exists i :: Stays(acts, i, id, maxConnections)
    decreases |acts|
  {
    hide RunFrom, ConnectionId, Stays, Admits, Leaves, Begins, Ceases, Next;
    if acts == [] {
      NothingRun(maxConnections);
      NobodyStays(id, maxConnections);
    } else {
      var before, a := acts[..|acts| - 1], acts[|acts| - 1];
      assert acts == before + [a];
      TrackedExactly(before, id, maxConnections);
      RunSnoc(INITIAL, before, a, maxConnections);
      CountsArrivals(before, maxConnections);
      TablesMove(RunFrom(INITIAL, before, maxConnections), a, id, maxConnections);
      StaysOn(before, a, id, maxConnections);
      LatestArrival(before, a, id, maxConnections);
      Latest(before, a, id, maxConnections);
      hide Arrivals;
    }
  }

  lemma NobodyStays(id: string, maxConnections: nat)
    ensures forall i :: !Stays([], i, id, maxConnections)
  {
  }

  // So the place of a connection that closed is free for the next client.
  lemma ClosedPlaceIsFree(acts: seq<Action>, id: string, peer: Peer, maxConnections: nat)
    requires
      var s := RunFrom(INITIAL, acts, maxConnections);
      s.lifecycle.Running? && id in s.connections
    ensures
      var next := ConnectionId(peer, Arrivals(acts) + 1);
      next in RunFrom(INITIAL, acts + [ConnectionClosed(id)] + [Accept(peer)], maxConnections).connections
  {
    hide RunFrom, ConnectionId;
    var s := RunFrom(INITIAL, acts, maxConnections);
    TablesStayConsistent(acts, maxConnections);
    CountsArrivals(acts, maxConnections);
    RunSnoc(INITIAL, acts, ConnectionClosed(id), maxConnections);
    RunSnoc(INITIAL, acts + [ConnectionClosed(id)], Accept(peer), maxConnections);
    assert |s.connections - {id}| == |s.connections| - 1;
  }

  // ---- whose senders ------------------------------------------------------------------------

  // The accept call of `id` comes to its heartbeat, with the server RUNNING and the
  // connection tracked.
  predicate Begins(acts: seq<Action>, i: int, id: string, maxConnections: nat) {
    0 <= i < |acts| && acts[i] == RegisterHeartbeat(id)
    && var s := RunFrom(INITIAL, acts[..i], maxConnections);
       id in s.accepting && s.lifecycle.Running? && id in s.connections
  }

  predicate Ceases(acts: seq<Action>, k: int, id: string, maxConnections: nat) {
    0 <= k < |acts| && (acts[k] == HeartbeatFails(id) || Leaves(acts, k, id, maxConnections))
  }

  ghost predicate Beats(acts: seq<Action>, i: int, id: string, maxConnections: nat) {
    Begins(acts, i, id, maxConnections) && forall k :: i < k < |acts| ==> !Ceases(acts, k, id, maxConnections)
  }

  lemma BeatsOn(acts: seq<Action>, a: Action, id: string, maxConnections: nat)
    ensures
      (exists i :: Beats(acts + [a], i, id, maxConnections))
      <==> Begins(acts + [a], |acts|, id, maxConnections)
           || ((exists i :: Beats(acts, i, id, maxConnections)) && !Ceases(acts + [a], |acts|, id, maxConnections))
  {
    hide Admits, Leaves, Begins, Ceases;
    var more := acts + [a];
    forall k | 0 <= k < |acts|
      ensures Begins(more, k, id, maxConnections) == Begins(acts, k, id, maxConnections)
      ensures Ceases(more, k, id, maxConnections) == Ceases(acts, k, id, maxConnections)
    {
      Earlier(acts, a, k, id, maxConnections);
    }
    if i :| Beats(more, i, id, maxConnections) {
      BegunWithin(more, i, id, maxConnections);
      if i < |acts| {
        assert Beats(acts, i, id, maxConnections);
      }
    }
    if Begins(more, |acts|, id, maxConnections) {
      assert Beats(more, |acts|, id, maxConnections);
    }
    if i :| Beats(acts, i, id, maxConnections) {
      BegunWithin(acts, i, id, maxConnections);
      if !Ceases(more, |acts|, id, maxConnections) {
        assert Beats(more, i, id, maxConnections);
      }
    }
  }

  lemma BegunWithin(acts: seq<Action>, i: int, id: string, maxConnections: nat)
    requires Begins(acts, i, id, maxConnections)
    ensures 0 <= i < |acts|
  {
  }

  lemma NobodyBeats(id: string, maxConnections: nat)
    ensures forall i :: !Beats([], i, id, maxConnections)
  {
  }

  // Over all runs: exactly those senders are in the table that were entered and have neither
  // failed nor gone with their connection since.
  lemma {:induction false} BeatingExactly(acts: seq<Action>, id: string, maxConnections: nat)
    ensures
      id in RunFrom(INITIAL, acts, maxConnections).heartbeats
      <==> exists i :: Beats(acts, i, id, maxConnections)
    decreases |acts|
  {
    hide RunFrom, ConnectionId, Beats, Admits, Leaves, Begins, Ceases, Next;
    if acts == [] {
      NothingRun(maxConnections);
      NobodyBeats(id, maxConnections);
    } else {
      var before, a := acts[..|acts| - 1], acts[|acts| - 1];
      assert acts == before + [a];
      BeatingExactly(before, id, maxConnections);
      RunSnoc(INITIAL, before, a, maxConnections);
      TablesMove(RunFrom(INITIAL, before, maxConnections), a, id, maxConnections);
      BeatsOn(before, a, id, maxConnections);
      Latest(before, a, id, maxConnections);
      hide Arrivals;
    }
  }

  // The accept call of `id` has not come to its heartbeat yet.
  ghost predicate Pends(acts: seq<Action>, i: int, id: string, maxConnections: nat) {
    Admits(acts, i, id, maxConnections) && forall k :: i < k < |acts| ==> acts[k] != RegisterHeartbeat(id)
  }

  lemma PendsOn(acts: seq<Action>, a: Action, id: string, maxConnections: nat)
    ensures
      (exists i :: Pends(acts + [a], i, id, maxConnections))
      <==> Admits(acts + [a], |acts|, id, maxConnections)
           || ((exists i :: Pends(acts, i, id, maxConnections)) && a != RegisterHeartbeat(id))
  {
    hide Admits, Leaves, Begins, Ceases;
    var more := acts + [a];
    forall k | 0 <= k < |acts|
      ensures Admits(more, k, id, maxConnections) == Admits(acts, k, id, maxConnections) && more[k] == acts[k]
    {
      Earlier(acts, a, k, id, maxConnections);
    }
    assert more[|acts|] == a;
    if i :| Pends(more, i, id, maxConnections) {
      AdmittedWithin(more, i, id, maxConnections);
      if i < |acts| {
        assert Pends(acts, i, id, maxConnections);
      }
    }
    if Admits(more, |acts|, id, maxConnections) {
      assert Pends(more, |acts|, id, maxConnections);
    }
    if i :| Pends(acts, i, id, maxConnections) {
      AdmittedWithin(acts, i, id, maxConnections);
      if a != RegisterHeartbeat(id) {
        assert Pends(more, i, id, maxConnections);
      }
    }
  }

  lemma NobodyPends(id: string, maxConnections: nat)
    ensures forall i :: !Pends([], i, id, maxConnections)
  {
  }

  // Every admitted client gets its turn to start a sender, once.
  lemma {:induction false} PendingExactly(acts: seq<Action>, id: string, maxConnections: nat)
    ensures
      id in RunFrom(INITIAL, acts, maxConnections).accepting
      <==> exists i :: Pends(acts, i, id, maxConnections)
    decreases |acts|
  {
    hide RunFrom, ConnectionId, Pends, Admits, Leaves, Begins, Ceases, Next;
    if acts == [] {
      NothingRun(maxConnections);
      NobodyPends(id, maxConnections);
    } else {
      var before, a := acts[..|acts| - 1], acts[|acts| - 1];
      assert acts == before + [a];
      PendingExactly(before, id, maxConnections);
      RunSnoc(INITIAL, before, a, maxConnections);
      CountsArrivals(before, maxConnections);
      TablesMove(RunFrom(INITIAL, before, maxConnections), a, id, maxConnections);
      PendsOn(before, a, id, maxConnections);
      LatestArrival(before, a, id, maxConnections);
      hide Arrivals;
    }
  }

  // ---- the lifecycle ---------------------------------------------------------------------------

  // In every state a stop under way runs to its end, STOPPED and with its waiter released,
  // and a start that fails ends STOPPED.
  lemma StopRunsToEnd(s: Server, maxConnections: nat)
    requires s.stopping
    ensures
      var acts := (if s.lifecycle.Stopping? then [StopApplies] else []) + [StopEnds];
      var d := RunFrom(s, acts, maxConnections);
      d == s.(stopping := false, lifecycle := if s.lifecycle.Stopping? then L.Stopped else s.lifecycle)
  {
    assert [StopEnds][1..] == [] && [] + [StopEnds] == [StopEnds];
    assert [StopApplies] + [StopEnds] == [StopApplies, StopEnds] && [StopApplies, StopEnds][1..] == [StopEnds];
    var d := Next(s, StopApplies, maxConnections);
    assert RunFrom(d, [StopEnds], maxConnections) == Next(d, StopEnds, maxConnections);
    assert RunFrom(s, [StopEnds], maxConnections) == Next(s, StopEnds, maxConnections);
  }

  lemma FailedStartEndsStopped(s: Server, a: Action, maxConnections: nat)
    requires Enabled(s, a) && (a.StartFailsToBind? || a.StartRollsBack?)
    ensures Step(s, a, maxConnections) == s.(lifecycle := L.Stopped)
  {
  }

  // Every action leaves the lifecycle alone or moves it along the table; a rollback out of
  // RUNNING takes two of its steps at once.
  lemma LifecycleIsLegal(s: Server, a: Action, maxConnections: nat)
    requires Enabled(s, a)
    ensures
      var d := Step(s, a, maxConnections);
      d.lifecycle == s.lifecycle || L.Legal(s.lifecycle, d.lifecycle)
      || (a.StartRollsBack? && s.lifecycle.Running? && d.lifecycle.Stopped?)
  {
    hide ConnectionId;
  }
}

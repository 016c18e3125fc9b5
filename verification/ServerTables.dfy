// The tables of the TCP server: accepted connections and their heartbeat senders.
//
// One action is one locked section.  The environment chooses which lifecycle step,
// accept, heartbeat registration or close callback comes next.

module ServerTables {
  import opened Common
  import opened ConnectionIds
  import L = Lifecycle

  // `accepting` are the accept calls that have not yet come to their heartbeat.
  // `ids`, `registered` and `released` are history: every identifier handed out,
  // every sender entered, and every sender taken out, in order.
  datatype Server = Server(
    lifecycle: L.Lifecycle,
    stopping: bool,
    sequence: nat,
    connections: set<string>,
    heartbeats: set<string>,
    accepting: set<string>,
    ids: seq<string>,
    registered: set<string>,
    released: set<string>)

  const INITIAL := Server(L.Stopped, false, 0, {}, {}, {}, [], {}, {})

  datatype Action =
    | StartBegins
    | StartCompletes
    | StartFailsToBind
    | StartRollsBack
    | StopBegins
    | StopApplies
    | StopEnds
    | Accept(peer: Peer)
    | RegisterHeartbeat(id: string)
    | HeartbeatFails(id: string)
    | ConnectionClosed(id: string)

  // handle_accepted_client: the identifier is drawn before the decision.
  function DoAccept(s: Server, peer: Peer, maxConnections: nat): Server {
    var id := ConnectionId(peer, s.sequence + 1);
    var s1 := s.(sequence := s.sequence + 1, ids := s.ids + [id]);
    if !s.lifecycle.Running? || |s.connections| >= maxConnections then s1
    else s1.(connections := s.connections + {id}, accepting := s.accepting + {id})
  }

  // start_server_heartbeat_if_needed, up to the start of the sender.
  function DoRegister(s: Server, id: string): Server {
    var s1 := s.(accepting := s.accepting - {id});
    if s.lifecycle.Running? && id in s.connections
    then s1.(heartbeats := s.heartbeats + {id}, registered := s.registered + {id})
    else s1
  }

  // A sender leaves the table; whoever takes it out stops it.
  function Release(s: Server, ids: set<string>): Server {
    s.(heartbeats := s.heartbeats - ids, released := s.released + (s.heartbeats * ids))
  }

  // _plan_stop of the stop call that finds no other one under way.
  function DoStopBegins(s: Server): Server {
    Release(s, s.heartbeats).(
      stopping := true, connections := {},
      lifecycle := if L.Active(s.lifecycle) then L.Stopping else s.lifecycle)
  }

  predicate Enabled(s: Server, a: Action) {
    match a
    case StartBegins => s.lifecycle.Stopped?
    case StartCompletes => s.lifecycle.Starting?
    case StartFailsToBind => s.lifecycle.Starting? || s.lifecycle.Stopping?
    case StartRollsBack => s.lifecycle.Starting? || s.lifecycle.Running?
    case StopBegins => !s.stopping
    case StopApplies => s.stopping && s.lifecycle.Stopping?
    case StopEnds => s.stopping
    case Accept(_) => true
    case RegisterHeartbeat(id) => id in s.accepting
    case HeartbeatFails(_) => true
    case ConnectionClosed(_) => true
  }

  function Step(s: Server, a: Action, maxConnections: nat): Server
    requires Enabled(s, a)
  {
    match a
    case StartBegins => s.(lifecycle := L.Starting)
    case StartCompletes => s.(lifecycle := L.Running)
    case StartFailsToBind => s.(lifecycle := L.Stopped)
    case StartRollsBack => s.(lifecycle := L.Stopped)
    case StopBegins => DoStopBegins(s)
    case StopApplies => s.(lifecycle := L.Stopped)
    case StopEnds => s.(stopping := false)
    case Accept(peer) => DoAccept(s, peer, maxConnections)
    case RegisterHeartbeat(id) => DoRegister(s, id)
    case HeartbeatFails(id) => Release(s, {id})
    case ConnectionClosed(id) => Release(s, {id}).(connections := s.connections - {id})
  }

  function Next(s: Server, a: Action, maxConnections: nat): Server {
    if Enabled(s, a) then Step(s, a, maxConnections) else s
  }

  function RunFrom(s: Server, acts: seq<Action>, maxConnections: nat): Server
    decreases acts
  {
    if acts == [] then s else RunFrom(Next(s, acts[0], maxConnections), acts[1..], maxConnections)
  }

  // ---- the invariant -----------------------------------------------------------------

  predicate BuiltFrom(id: string, p: Peer, n: nat) { id == ConnectionId(p, n) }

  ghost predicate Numbered(id: string, n: nat) { exists p :: BuiltFrom(id, p, n) }

  // The `i`-th identifier was built from some peer and the number `i + 1`.
  ghost predicate Issued(ids: seq<string>) { forall i :: 0 <= i < |ids| ==> Numbered(ids[i], i + 1) }

  lemma NumbersDiffer(a: string, m: nat, b: string, n: nat)
    requires Numbered(a, m) && Numbered(b, n) && a == b
    ensures m == n
  {
    hide ConnectionId;
    var p :| BuiltFrom(a, p, m);
    var q :| BuiltFrom(b, q, n);
    IdsDistinct(p, m, q, n);
  }

  ghost predicate IdsOk(s: Server) {
    && s.sequence == |s.ids| && Issued(s.ids)
    && (forall id :: id in s.connections + s.accepting + s.registered ==> id in s.ids)
  }

  predicate TablesOk(s: Server, maxConnections: nat) {
    && |s.connections| <= maxConnections
    && s.heartbeats <= s.connections
    && s.registered == s.heartbeats + s.released
    && s.heartbeats !! s.released
    && s.accepting !! s.registered
  }

  ghost predicate Inv(s: Server, maxConnections: nat) { IdsOk(s) && TablesOk(s, maxConnections) }

  // A new identifier is none of the earlier ones.
  lemma NextIdIsNew(ids: seq<string>, peer: Peer)
    requires Issued(ids)
    ensures ConnectionId(peer, |ids| + 1) !in ids
    ensures Issued(ids + [ConnectionId(peer, |ids| + 1)])
  {
    var id := ConnectionId(peer, |ids| + 1);
    hide ConnectionId;
    assert BuiltFrom(id, peer, |ids| + 1);
    hide Numbered;
    forall i | 0 <= i < |ids|
      ensures ids[i] != id
    {
      if ids[i] == id {
        NumbersDiffer(ids[i], i + 1, id, |ids| + 1);
      }
    }
  }

  // A fresh identifier enters the tables of a server with room for it.
  lemma AddingKeepsTables(s: Server, id: string, maxConnections: nat)
    requires TablesOk(s, maxConnections) && id !in s.connections + s.accepting + s.registered
    requires |s.connections| < maxConnections
    ensures TablesOk(s.(connections := s.connections + {id}, accepting := s.accepting + {id}), maxConnections)
  {
    assert |s.connections + {id}| == |s.connections| + 1;
  }

  lemma AcceptKeepsIds(s: Server, peer: Peer, maxConnections: nat)
    requires IdsOk(s)
    ensures IdsOk(DoAccept(s, peer, maxConnections))
    ensures ConnectionId(peer, s.sequence + 1) !in s.connections + s.accepting + s.registered
  {
    NextIdIsNew(s.ids, peer);
    hide ConnectionId, Issued;
  }

  lemma AcceptKeepsInv(s: Server, peer: Peer, maxConnections: nat)
    requires Inv(s, maxConnections)
    ensures Inv(DoAccept(s, peer, maxConnections), maxConnections)
  {
    hide ConnectionId, IdsOk;
    AcceptKeepsIds(s, peer, maxConnections);
    var id := ConnectionId(peer, s.sequence + 1);
    if s.lifecycle.Running? && |s.connections| < maxConnections {
      AddingKeepsTables(s, id, maxConnections);
    }
  }

  lemma RegisterKeepsInv(s: Server, id: string, maxConnections: nat)
    requires Inv(s, maxConnections) && id in s.accepting
    ensures Inv(DoRegister(s, id), maxConnections)
  {
    hide Issued;
  }

  // Senders and connections only leave.
  lemma ReleaseKeepsInv(s: Server, gone: set<string>, connections: set<string>, maxConnections: nat)
    requires Inv(s, maxConnections) && connections <= s.connections && s.heartbeats - gone <= connections
    ensures Inv(Release(s, gone).(connections := connections), maxConnections)
  {
    hide Issued;
    SubsetSize(connections, s.connections);
    assert s.heartbeats == (s.heartbeats - gone) + (s.heartbeats * gone);
  }

  lemma LifecycleKeepsInv(s: Server, lifecycle: L.Lifecycle, stopping: bool, maxConnections: nat)
    requires Inv(s, maxConnections)
    ensures Inv(s.(lifecycle := lifecycle, stopping := stopping), maxConnections)
  {
    hide Issued;
  }

  lemma TableStepKeepsInv(s: Server, a: Action, maxConnections: nat)
    requires Inv(s, maxConnections) && Enabled(s, a) && !a.Accept?
    ensures Inv(Step(s, a, maxConnections), maxConnections)
  {
    hide IdsOk, Release, DoRegister, DoAccept;
    var d := Step(s, a, maxConnections);
    match a
    case RegisterHeartbeat(id) => RegisterKeepsInv(s, id, maxConnections);
    case HeartbeatFails(id) => {
      ReleaseKeepsInv(s, {id}, s.connections, maxConnections);
      ReleaseKeepsConnections(s, {id});
    }
    case ConnectionClosed(id) => ReleaseKeepsInv(s, {id}, s.connections - {id}, maxConnections);
    case StopBegins => {
      ReleaseKeepsInv(s, s.heartbeats, {}, maxConnections);
      LifecycleKeepsInv(Release(s, s.heartbeats).(connections := {}), d.lifecycle, true, maxConnections);
    }
    case _ => LifecycleKeepsInv(s, d.lifecycle, d.stopping, maxConnections);
  }

  lemma ReleaseKeepsConnections(s: Server, gone: set<string>)
    ensures Release(s, gone) == Release(s, gone).(connections := s.connections)
  {
  }

  lemma {:induction false} RunKeepsInv(s: Server, acts: seq<Action>, maxConnections: nat)
    requires Inv(s, maxConnections)
    ensures Inv(RunFrom(s, acts, maxConnections), maxConnections)
    decreases acts
  {
    if acts != [] {
      hide Inv, DoAccept;
      if Enabled(s, acts[0]) {
        if acts[0].Accept? {
          AcceptKeepsInv(s, acts[0].peer, maxConnections);
        } else {
          TableStepKeepsInv(s, acts[0], maxConnections);
        }
      }
      RunKeepsInv(Next(s, acts[0], maxConnections), acts[1..], maxConnections);
    }
  }

  // ---- the promises --------------------------------------------------------------------

  // Over any accepts, closes, heartbeat starts and stops: the tables are bounded
  // and nested, identifiers are never reused, and every sender that was entered is
  // either still in the table or was taken out, once, by whoever stops it.
  lemma TablesStayConsistent(acts: seq<Action>, maxConnections: nat)
    ensures
      var s := RunFrom(INITIAL, acts, maxConnections);
      && |s.connections| <= maxConnections
      && s.heartbeats <= s.connections
      && (forall i, j :: 0 <= i < j < |s.ids| ==> s.ids[i] != s.ids[j])
      && s.registered == s.heartbeats + s.released && s.heartbeats !! s.released
  {
    RunKeepsInv(INITIAL, acts, maxConnections);
    hide RunFrom, Issued;
    IssuedAreDistinct(RunFrom(INITIAL, acts, maxConnections).ids);
  }

  lemma IssuedAreDistinct(ids: seq<string>)
    requires Issued(ids)
    ensures forall i, j :: 0 <= i < j < |ids| ==> ids[i] != ids[j]
  {
    hide Numbered;
    forall i, j | 0 <= i < j < |ids|
      ensures ids[i] != ids[j]
    {
      if ids[i] == ids[j] {
        NumbersDiffer(ids[i], i + 1, ids[j], j + 1);
      }
    }
  }

  // A sender that was taken out of the table never comes back.
  lemma {:induction false} ReleasedOnce(s: Server, acts: seq<Action>, maxConnections: nat, id: string)
    requires Inv(s, maxConnections) && id in s.released
    ensures
      var d := RunFrom(s, acts, maxConnections);
      id in d.released && id !in d.heartbeats
  {
    RunKeepsReleased(s, acts, maxConnections);
    RunKeepsInv(s, acts, maxConnections);
    hide RunFrom, IdsOk;
  }

  lemma {:induction false} RunKeepsReleased(s: Server, acts: seq<Action>, maxConnections: nat)
    ensures s.released <= RunFrom(s, acts, maxConnections).released
    decreases acts
  {
    if acts != [] {
      RunKeepsReleased(Next(s, acts[0], maxConnections), acts[1..], maxConnections);
    }
  }

  // ---- connections of a server that does not run ----------------------------------------------

  // A start whose RUNNING could not be published is rolled back, and the connections
  // it accepted meanwhile stay in the table.
  predicate LeavesConnections(s: Server, a: Action) {
    a.StartRollsBack? && s.lifecycle.Running? && s.connections != {}
  }

  // Of the connections that rollbacks left, those that neither closed nor were taken
  // by a stop.
  function LeftAfter(s: Server, left: set<string>, a: Action): set<string> {
    if LeavesConnections(s, a) then s.connections
    else
      match a
      case ConnectionClosed(id) => left - {id}
      case StopBegins => if s.stopping then left else {}
      case _ => left
  }

  function Left(s: Server, left: set<string>, acts: seq<Action>, maxConnections: nat): set<string>
    decreases acts
  {
    if acts == [] then left
    else Left(Next(s, acts[0], maxConnections), LeftAfter(s, left, acts[0]), acts[1..], maxConnections)
  }

  predicate TracksLeft(s: Server, left: set<string>) {
    left <= s.connections && (!s.lifecycle.Running? ==> s.connections == left)
  }

  lemma StepTracksLeft(s: Server, left: set<string>, a: Action, maxConnections: nat)
    requires TracksLeft(s, left)
    ensures TracksLeft(Next(s, a, maxConnections), LeftAfter(s, left, a))
  {
    hide ConnectionId;
  }

  lemma {:induction false} RunTracksLeft(s: Server, left: set<string>, acts: seq<Action>, maxConnections: nat)
    requires TracksLeft(s, left)
    ensures TracksLeft(RunFrom(s, acts, maxConnections), Left(s, left, acts, maxConnections))
    decreases acts
  {
    hide Next, LeftAfter, TracksLeft;
    if acts != [] {
      StepTracksLeft(s, left, acts[0], maxConnections);
      RunTracksLeft(Next(s, acts[0], maxConnections), LeftAfter(s, left, acts[0]), acts[1..], maxConnections);
    }
  }

  ghost predicate LeavesAt(acts: seq<Action>, i: int, maxConnections: nat) {
    0 <= i < |acts| && LeavesConnections(RunFrom(INITIAL, acts[..i], maxConnections), acts[i])
  }

  // Over all runs: a server that does not run tracks exactly the connections that
  // rollbacks out of RUNNING left and that neither closed nor were stopped since.
  lemma TrackingEndsWithRunning(acts: seq<Action>, maxConnections: nat)
    ensures
      var s := RunFrom(INITIAL, acts, maxConnections);
      !s.lifecycle.Running? ==> s.connections == Left(INITIAL, {}, acts, maxConnections)
  {
    RunTracksLeft(INITIAL, {}, acts, maxConnections);
    hide RunFrom, Left;
  }

  // Never outside RUNNING, at any moment of the run, exactly if no start was rolled
  // back with connections in the table.
  lemma TracksOnlyWhileRunningExactly(acts: seq<Action>, maxConnections: nat)
    ensures
      (forall n :: 0 <= n <= |acts| ==> TracksLeft(RunFrom(INITIAL, acts[..n], maxConnections), {}))
      <==> !exists i :: LeavesAt(acts, i, maxConnections)
  {
    hide TracksLeft, RunFrom, LeavesConnections;
    if i :| LeavesAt(acts, i, maxConnections) {
      LeavingTracks(acts, i, maxConnections);
    } else {
      forall n | 0 <= n <= |acts|
        ensures TracksLeft(RunFrom(INITIAL, acts[..n], maxConnections), {})
      {
        NothingLeft(acts, n, maxConnections);
      }
    }
  }

  lemma {:induction false} RunSnoc(s: Server, acts: seq<Action>, a: Action, maxConnections: nat)
    ensures RunFrom(s, acts + [a], maxConnections) == Next(RunFrom(s, acts, maxConnections), a, maxConnections)
    decreases acts
  {
    hide Next;
    if acts == [] {
      assert [] + [a] == [a] && [a][1..] == [];
    } else {
      assert (acts + [a])[1..] == acts[1..] + [a];
      RunSnoc(Next(s, acts[0], maxConnections), acts[1..], a, maxConnections);
    }
  }

  lemma LeavingTracks(acts: seq<Action>, i: int, maxConnections: nat)
    requires LeavesAt(acts, i, maxConnections)
    ensures !TracksLeft(RunFrom(INITIAL, acts[..i + 1], maxConnections), {})
  {
    assert acts[..i + 1] == acts[..i] + [acts[i]];
    RunSnoc(INITIAL, acts[..i], acts[i], maxConnections);
    hide RunFrom;
  }

  lemma {:induction false} NothingLeft(acts: seq<Action>, n: nat, maxConnections: nat)
    requires n <= |acts| && !exists i :: LeavesAt(acts, i, maxConnections)
    ensures TracksLeft(RunFrom(INITIAL, acts[..n], maxConnections), {})
  {
    if n > 0 {
      NothingLeft(acts, n - 1, maxConnections);
      assert acts[..n] == acts[..n - 1] + [acts[n - 1]];
      RunSnoc(INITIAL, acts[..n - 1], acts[n - 1], maxConnections);
      hide RunFrom, TracksLeft, LeavesConnections, Next;
      assert !LeavesAt(acts, n - 1, maxConnections);
      StepTracksLeft(RunFrom(INITIAL, acts[..n - 1], maxConnections), {}, acts[n - 1], maxConnections);
      LeftStaysEmpty(RunFrom(INITIAL, acts[..n - 1], maxConnections), acts[n - 1]);
    } else {
      assert acts[..0] == [];
    }
  }

  lemma LeftStaysEmpty(s: Server, a: Action)
    requires !LeavesConnections(s, a)
    ensures LeftAfter(s, {}, a) == {}
  {
  }

  // A client is accepted before the publication of RUNNING fails.
  lemma RollbackLeavesConnection(peer: Peer, maxConnections: nat)
    requires maxConnections > 0
    ensures
      var s := RunFrom(INITIAL, [StartBegins, StartCompletes, Accept(peer), StartRollsBack], maxConnections);
      s.lifecycle.Stopped? && s.connections == {ConnectionId(peer, 1)}
    ensures LeavesAt([StartBegins, StartCompletes, Accept(peer), StartRollsBack], 3, maxConnections)
  {
    hide ConnectionId;
    var acts := [StartBegins, StartCompletes, Accept(peer), StartRollsBack];
    var s1, s2 := INITIAL.(lifecycle := L.Starting), INITIAL.(lifecycle := L.Running);
    var s3 := DoAccept(s2, peer, maxConnections);
    assert acts[..3] == [] + [StartBegins] + [StartCompletes] + [Accept(peer)];
    assert acts == acts[..3] + [StartRollsBack];
    RunSnoc(INITIAL, [], StartBegins, maxConnections);
    RunSnoc(INITIAL, [] + [StartBegins], StartCompletes, maxConnections);
    RunSnoc(INITIAL, [] + [StartBegins] + [StartCompletes], Accept(peer), maxConnections);
    RunSnoc(INITIAL, acts[..3], StartRollsBack, maxConnections);
    assert {} + {ConnectionId(peer, 1)} == {ConnectionId(peer, 1)};
    assert RunFrom(INITIAL, acts[..3], maxConnections) == s3;
  }

  // ---- the object ------------------------------------------------------------------------

  lemma KeyAdded(m: map<string, nat>, k: string, v: nat)
    ensures m[k := v].Keys == m.Keys + {k}
  {
  }

  lemma MapSize(m: map<string, nat>)
    ensures |m| == |m.Keys|
  {
  }

  // The locked sections of AsyncioTcpServer; a connection or sender object is shown
  // as the number of its accept.
  class AsyncioTcpServer {
    const maxConnections: nat
    var lifecycle: L.Lifecycle
    var stopWaiter: bool
    var connectionSequence: nat
    var connections: map<string, nat>
    var heartbeatSenders: map<string, nat>
    ghost var accepting: set<string>
    ghost var ids: seq<string>
    ghost var registered: set<string>
    ghost var released: set<string>

    ghost function View(): Server
      reads this
    {
      Server(lifecycle, stopWaiter, connectionSequence, connections.Keys, heartbeatSenders.Keys, accepting, ids,
             registered, released)
    }

    ghost predicate Valid()
      reads this
    {
      Inv(View(), maxConnections)
    }

    constructor (maximum: nat)
      ensures View() == INITIAL && maxConnections == maximum && Valid()
    {
      maxConnections := maximum;
      lifecycle, stopWaiter, connectionSequence := L.Stopped, false, 0;
      connections, heartbeatSenders := map[], map[];
      accepting, ids, registered, released := {}, [], {}, {};
    }

    // A new connection enters the table.
    method Track(id: string, connection: nat)
      modifies this`connections, this`accepting
      ensures View() == var s := old(View()); s.(connections := s.connections + {id}, accepting := s.accepting + {id})
    {
      KeyAdded(connections, id, connection);
      connections := connections[id := connection];
      accepting := accepting + {id};
    }

    method HandleAccepted(peer: Peer) returns (id: string, accepted: bool, full: bool)
      requires Valid()
      modifies this`connectionSequence, this`connections, this`accepting, this`ids
      ensures View() == Next(old(View()), Accept(peer), maxConnections) && Valid()
      ensures id == ConnectionId(peer, old(connectionSequence) + 1)
      ensures accepted <==> old(lifecycle).Running? && |old(connections)| < maxConnections
      ensures full <==> old(lifecycle).Running? && !accepted
    {
      hide ConnectionId, Inv;
      AcceptKeepsInv(View(), peer, maxConnections);
      MapSize(connections);
      connectionSequence := connectionSequence + 1;
      id := ConnectionId(peer, connectionSequence);
      ids := ids + [id];
      accepted, full := false, false;
      if lifecycle.Running? {
        if |connections| >= maxConnections {
          full := true;
        } else {
          Track(id, connectionSequence);
          accepted := true;
        }
      }
      assert View() == Next(old(View()), Accept(peer), maxConnections);
    }

    method RegisterSender(id: string, sender: nat) returns (starts: bool)
      requires Valid() && id in accepting
      modifies this`accepting, this`heartbeatSenders, this`registered
      ensures View() == Next(old(View()), RegisterHeartbeat(id), maxConnections) && Valid()
      ensures starts <==> old(lifecycle).Running? && id in old(connections)
    {
      hide Inv;
      RegisterKeepsInv(View(), id, maxConnections);
      accepting := accepting - {id};
      starts := lifecycle.Running? && id in connections;
      if starts {
        heartbeatSenders := heartbeatSenders[id := sender];
        registered := registered + {id};
      }
      assert View() == Next(old(View()), RegisterHeartbeat(id), maxConnections);
    }

    // _on_connection_closed: whoever takes the sender out stops it.
    method OnConnectionClosed(id: string) returns (sender: Option<nat>)
      requires Valid()
      modifies this`heartbeatSenders, this`connections, this`released
      ensures View() == Next(old(View()), ConnectionClosed(id), maxConnections) && Valid()
      ensures if id in old(heartbeatSenders) then sender == Some(old(heartbeatSenders)[id]) else sender.None?
    {
      hide Inv;
      TableStepKeepsInv(View(), ConnectionClosed(id), maxConnections);
      released := released + (heartbeatSenders.Keys * {id});
      sender := if id in heartbeatSenders then Some(heartbeatSenders[id]) else None;
      heartbeatSenders := heartbeatSenders - {id};
      connections := connections - {id};
      assert View() == Next(old(View()), ConnectionClosed(id), maxConnections);
    }

    // _plan_stop: the call that finds no stop under way takes everything.
    method PlanStop() returns (owns: bool, senders: map<string, nat>, taken: map<string, nat>)
      requires Valid()
      modifies this`stopWaiter, this`lifecycle, this`connections, this`heartbeatSenders, this`released
      ensures View() == Next(old(View()), StopBegins, maxConnections) && Valid()
      ensures owns <==> !old(stopWaiter)
      ensures owns ==> senders == old(heartbeatSenders) && taken == old(connections)
      ensures !owns ==> senders == map[] && taken == map[]
    {
      hide Inv;
      if stopWaiter {
        return false, map[], map[];
      }
      TableStepKeepsInv(View(), StopBegins, maxConnections);
      stopWaiter := true;
      if L.Active(lifecycle) {
        lifecycle := L.Stopping;
      }
      released := released + (heartbeatSenders.Keys * heartbeatSenders.Keys);
      owns, senders, taken := true, heartbeatSenders, connections;
      heartbeatSenders, connections := map[], map[];
      assert View() == Next(old(View()), StopBegins, maxConnections);
    }
  }
}

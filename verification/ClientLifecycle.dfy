// The lifecycle of the TCP client: start, its rollback, overlapping stops, and a
// supervisor that ends on its own.  One action is one locked section.

module ClientLifecycle {
  import opened Common
  import L = Lifecycle

  datatype Actor = Start | Rollback | StopOwner | Supervisor

  // The stop call that owns the shutdown, until it has applied STOPPED (if that is
  // its to apply) and until it has released the waiter.
  datatype Owner = NoOwner | Working(applies: bool) | Releasing

  // `actors` names who applied each transition, `illegal` counts the requests of stop,
  // supervision and rollback that the table refused.
  datatype Client = Client(
    track: L.Track,
    running: bool,
    owner: Owner,
    starting: nat,      // start() calls awaiting delivery of STARTING
    announcing: nat,    // start() calls awaiting emission of RUNNING
    supervisors: nat,   // supervision tasks that have not finalized
    actors: seq<Actor>,
    illegal: nat)

  const INITIAL := Client(L.NEW, false, NoOwner, 0, 0, 0, [], 0)

  datatype Action =
    | StartBegins
    | StartingEmitted(ok: bool)
    | RunningEmitted(ok: bool)
    | StopBegins(dispatcherRuns: bool, idle: bool)
    | StopApplies
    | StopEnds
    | SupervisorFinalizes

  // One request to the transition publisher; `running` mirrors the state.
  function Ask(c: Client, target: L.Lifecycle, who: Actor): Client {
    match L.Request(c.track.state, target)
    case Unchanged => c
    case Illegal => if who.Start? then c else c.(illegal := c.illegal + 1)
    case Changed(_) => c.(track := L.Apply(c.track, target), running := L.Active(target), actors := c.actors + [who])
  }

  function AskIf(c: Client, condition: bool, target: L.Lifecycle, who: Actor): Client {
    if condition then Ask(c, target, who) else c
  }

  // _rollback_failed_startup
  function RollBack(c: Client): Client {
    var c1 := AskIf(c, c.track.state.Running?, L.Stopping, Rollback);
    AskIf(c1, c.track.state.Running? || c.track.state.Starting?, L.Stopped, Rollback)
  }

  // _collect_terminal_lifecycle_events
  function Terminate(c: Client, who: Actor): Client {
    var c1 := AskIf(c, L.Active(c.track.state), L.Stopping, who);
    AskIf(c1, c1.track.state.Stopping?, L.Stopped, who)
  }

  function DoStartingEmitted(c: Client, ok: bool): Client
    requires c.starting > 0
  {
    var c1 := c.(starting := c.starting - 1);
    if !ok then RollBack(c1)
    else if !c.track.state.Starting? then c1
    else Ask(c1, L.Running, Start).(supervisors := c.supervisors + 1, announcing := c.announcing + 1)
  }

  function DoRunningEmitted(c: Client, ok: bool): Client
    requires c.announcing > 0
  {
    var c1 := c.(announcing := c.announcing - 1);
    if ok then c1 else RollBack(c1)
  }

  // _plan_stop of the call that becomes the owner.
  function DoStopBegins(c: Client, dispatcherRuns: bool): Client {
    var active := L.Active(c.track.state);
    AskIf(c, active, L.Stopping, StopOwner).(owner := Working(active || dispatcherRuns))
  }

  function DoStopApplies(c: Client): Client
    requires c.owner.Working?
  {
    AskIf(c, c.owner.applies && c.track.state.Stopping?, L.Stopped, StopOwner).(owner := Releasing)
  }

  // _finalize_supervision: an explicit stop under way does the rest itself.
  function DoFinalize(c: Client): Client
    requires c.supervisors > 0
  {
    var c1 := c.(supervisors := c.supervisors - 1);
    if c.owner.NoOwner? then Terminate(c1, Supervisor) else c1
  }

  predicate Enabled(c: Client, a: Action) {
    match a
    // From STOPPING start() raises, from STARTING and RUNNING it returns.
    case StartBegins => c.track.state.Stopped?
    case StartingEmitted(_) => c.starting > 0
    case RunningEmitted(_) => c.announcing > 0
    // A stopped client with nothing left over (`idle`) has nothing to stop.
    case StopBegins(_, idle) => c.owner.NoOwner? && !(c.track.state.Stopped? && idle)
    case StopApplies => c.owner.Working?
    case StopEnds => c.owner.Releasing?
    case SupervisorFinalizes => c.supervisors > 0
  }

  function Step(c: Client, a: Action): Client
    requires Enabled(c, a)
  {
    match a
    case StartBegins => Ask(c, L.Starting, Start).(starting := c.starting + 1)
    case StartingEmitted(ok) => DoStartingEmitted(c, ok)
    case RunningEmitted(ok) => DoRunningEmitted(c, ok)
    case StopBegins(dispatcherRuns, _) => DoStopBegins(c, dispatcherRuns)
    case StopApplies => DoStopApplies(c)
    case StopEnds => c.(owner := NoOwner)
    case SupervisorFinalizes => DoFinalize(c)
  }

  function Next(c: Client, a: Action): Client { if Enabled(c, a) then Step(c, a) else c }

  function RunFrom(c: Client, acts: seq<Action>): Client
    decreases acts
  {
    if acts == [] then c else RunFrom(Next(c, acts[0]), acts[1..])
  }

  // ---- the invariant -----------------------------------------------------------------

  // Whoever applied STOPPING of a run applies its STOPPED too.
  ghost predicate SameActorEnds(applied: seq<L.Transition>, actors: seq<Actor>) {
    && |actors| == |applied|
    && (forall i :: 0 < i < |actors| && applied[i].previous.Stopping? ==> actors[i] == actors[i - 1])
  }

  ghost predicate Inv(c: Client) {
    && L.IsPath(c.track)
    && SameActorEnds(c.track.applied, c.actors)
    && c.illegal == 0
    && (c.running <==> L.Active(c.track.state))
    && (c.track.state.Stopping? ==> c.owner == Working(true) && c.actors != [] && c.actors[|c.actors| - 1] == StopOwner)
  }

  lemma AskExtends(c: Client, target: L.Lifecycle, who: Actor)
    requires L.IsPath(c.track) && SameActorEnds(c.track.applied, c.actors)
    requires c.track.state.Stopping? && target.Stopped? ==> c.actors != [] && c.actors[|c.actors| - 1] == who
    ensures var d := Ask(c, target, who); L.IsPath(d.track) && SameActorEnds(d.track.applied, d.actors)
  {
    L.ApplyKeepsPath(c.track, target);
  }

  lemma RollBackKeepsInv(c: Client)
    requires Inv(c)
    ensures Inv(RollBack(c)) && !L.Active(RollBack(c).track.state)
  {
    if L.Active(c.track.state) {
      if c.track.state.Running? {
        AskExtends(c, L.Stopping, Rollback);
        AskExtends(Ask(c, L.Stopping, Rollback), L.Stopped, Rollback);
      } else {
        AskExtends(c, L.Stopped, Rollback);
      }
    }
    hide L.IsPath, SameActorEnds;
  }

  lemma TerminateKeepsInv(c: Client)
    requires Inv(c) && c.owner.NoOwner?
    ensures Inv(Terminate(c, Supervisor)) && Terminate(c, Supervisor).track.state.Stopped?
  {
    if L.Active(c.track.state) {
      AskExtends(c, L.Stopping, Supervisor);
      AskExtends(Ask(c, L.Stopping, Supervisor), L.Stopped, Supervisor);
    }
    hide L.IsPath, SameActorEnds;
  }

  lemma StopKeepsInv(c: Client, a: Action)
    requires Inv(c) && Enabled(c, a) && (a.StopBegins? || a.StopApplies? || a.StopEnds?)
    ensures Inv(Step(c, a))
  {
    AskExtends(c, L.Stopping, StopOwner);
    if c.track.state.Stopping? {
      AskExtends(c, L.Stopped, StopOwner);
    }
    hide L.IsPath, SameActorEnds;
  }

  lemma StartKeepsInv(c: Client, a: Action)
    requires Inv(c) && Enabled(c, a) && (a.StartBegins? || a == StartingEmitted(true))
    ensures Inv(Step(c, a))
  {
    AskExtends(c, L.Starting, Start);
    AskExtends(c, L.Running, Start);
    hide L.IsPath, SameActorEnds;
  }

  lemma StepKeepsInv(c: Client, a: Action)
    requires Inv(c) && Enabled(c, a)
    ensures Inv(Step(c, a))
  {
    hide RollBack, Terminate, L.IsPath, SameActorEnds;
    match a
    case StartBegins => StartKeepsInv(c, a);
    case StartingEmitted(ok) =>
      if ok {
        StartKeepsInv(c, a);
      } else {
        RollBackKeepsInv(c.(starting := c.starting - 1));
      }
    case RunningEmitted(ok) =>
      if !ok {
        RollBackKeepsInv(c.(announcing := c.announcing - 1));
      }
    case SupervisorFinalizes =>
      if c.owner.NoOwner? {
        TerminateKeepsInv(c.(supervisors := c.supervisors - 1));
      }
    case _ => StopKeepsInv(c, a);
  }

  lemma {:induction false} RunKeepsInv(c: Client, acts: seq<Action>)
    requires Inv(c)
    ensures Inv(RunFrom(c, acts))
    decreases acts
  {
    hide Inv, Step, Enabled;
    if acts != [] {
      if Enabled(c, acts[0]) {
        StepKeepsInv(c, acts[0]);
      }
      RunKeepsInv(Next(c, acts[0]), acts[1..]);
    }
  }

  // ---- the promises ---------------------------------------------------------------------

  // For every interleaving of starts, rollbacks, stops and ending supervisors: the
  // applied transitions are a path of the table; stop, supervision and rollback
  // never ask for an illegal one; every run has at most one STOPPING and is ended by
  // one STOPPED, which the actor of its STOPPING applies.
  lemma EveryRunEndsOnce(acts: seq<Action>)
    ensures
      var c := RunFrom(INITIAL, acts);
      var starts := L.Count(c.track.applied, L.Starting);
      && L.IsPath(c.track) && c.illegal == 0 && SameActorEnds(c.track.applied, c.actors)
      && starts == L.Count(c.track.applied, L.Stopped) + (if c.track.state.Stopped? then 0 else 1)
      && L.Count(c.track.applied, L.Stopping) <= starts
      && (L.Active(c.track.state) ==> L.Count(c.track.applied, L.Stopping) <= L.Count(c.track.applied, L.Stopped))
  {
    RunKeepsInv(INITIAL, acts);
    L.PathCounts(RunFrom(INITIAL, acts).track);
    hide RunFrom, L.IsPath, SameActorEnds, L.Count;
  }

  // In every reachable state: a start() call that comes back from a publication ends the life
  // it finds exactly if the publication failed, whatever became of its own life meanwhile.
  lemma FailedPublicationEndsLife(acts: seq<Action>, a: Action)
    requires Enabled(RunFrom(INITIAL, acts), a) && (a.StartingEmitted? || a.RunningEmitted?)
    requires L.Active(RunFrom(INITIAL, acts).track.state)
    ensures
      var c := RunFrom(INITIAL, acts);
      if a.ok then L.Active(Next(c, a).track.state) else Next(c, a).track.state.Stopped?
  {
    hide RunFrom, L.IsPath, SameActorEnds, RollBack;
    var c := RunFrom(INITIAL, acts);
    RollBackStops(if a.StartingEmitted? then c.(starting := c.starting - 1) else c.(announcing := c.announcing - 1));
  }

  lemma RollBackStops(c: Client)
    requires L.Active(c.track.state)
    ensures RollBack(c).track.state.Stopped?
  {
  }

  // STOPPING is only ever seen while the stop that applied it is at work, and its
  // next locked section ends the run: nobody else needs to, or can.
  lemma StoppingBelongsToOwner(acts: seq<Action>, a: Action)
    requires RunFrom(INITIAL, acts).track.state.Stopping?
    ensures
      var c := RunFrom(INITIAL, acts);
      && Enabled(c, StopApplies) && Step(c, StopApplies).track.state.Stopped?
      && (Next(c, a).track.state != c.track.state ==> a.StopApplies?)
  {
    RunKeepsInv(INITIAL, acts);
    hide RunFrom, L.IsPath, SameActorEnds;
  }

  // ---- a run that nobody ends ---------------------------------------------------------------

  predicate UnderWay(c: Client) { c.starting > 0 || c.announcing > 0 || c.supervisors > 0 || !c.owner.NoOwner? }

  // The client counts as active, but no start, supervisor or stop is at work on it.
  predicate Abandoned(c: Client) { L.Active(c.track.state) && !UnderWay(c) }

  // The last supervisor of a running client ends while a stop call holds the waiter,
  // although that stop was for an earlier run: the supervisor leaves the rest to it.
  predicate Abandons(c: Client, a: Action) {
    a.SupervisorFinalizes? && c.supervisors == 1 && !c.owner.NoOwner? && c.track.state.Running?
  }

  predicate Watched(c: Client) {
    (c.track.state.Starting? ==> c.starting > 0) && (c.track.state.Running? ==> c.supervisors > 0)
  }

  lemma StepStaysWatched(c: Client, a: Action)
    requires Inv(c) && Watched(c) && Enabled(c, a)
    ensures Watched(Step(c, a)) <==> !Abandons(c, a)
  {
    hide L.IsPath, SameActorEnds;
  }

  ghost predicate Attended(c: Client, acts: seq<Action>)
    decreases acts
  {
    acts == [] || (!Abandons(c, acts[0]) && Attended(Next(c, acts[0]), acts[1..]))
  }

  lemma {:induction false} RunStaysWatched(c: Client, acts: seq<Action>)
    requires Inv(c) && Watched(c) && Attended(c, acts)
    ensures Inv(RunFrom(c, acts)) && Watched(RunFrom(c, acts))
    decreases acts
  {
    hide Inv, Watched, Step, Enabled, Abandons;
    if acts != [] {
      if Enabled(c, acts[0]) {
        StepKeepsInv(c, acts[0]);
        StepStaysWatched(c, acts[0]);
      }
      RunStaysWatched(Next(c, acts[0]), acts[1..]);
    }
  }

  // Some continuation without a further such end leaves the client abandoned.
  ghost predicate CanBeAbandoned(c: Client) { exists acts :: Attended(c, acts) && Abandoned(RunFrom(c, acts)) }

  // Every start call of a running client returns, and the stop call with it.
  function Returning(c: Client): seq<Action>
    decreases c.starting + c.announcing
  {
    if c.starting > 0 then [StartingEmitted(true)] + Returning(c.(starting := c.starting - 1))
    else if c.announcing > 0 then [RunningEmitted(true)] + Returning(c.(announcing := c.announcing - 1))
    else [StopApplies, StopEnds]
  }

  lemma RunCons(c: Client, a: Action, rest: seq<Action>)
    ensures RunFrom(c, [a] + rest) == RunFrom(Next(c, a), rest)
    ensures Attended(c, [a] + rest) <==> !Abandons(c, a) && Attended(Next(c, a), rest)
  {
    assert ([a] + rest)[1..] == rest;
  }

  lemma {:induction false} ReturningAbandons(c: Client)
    requires c.track.state.Running? && c.supervisors == 0
    ensures Attended(c, Returning(c)) && Abandoned(RunFrom(c, Returning(c)))
    decreases c.starting + c.announcing
  {
    if c.starting > 0 {
      var d := c.(starting := c.starting - 1);
      RunCons(c, StartingEmitted(true), Returning(d));
      ReturningAbandons(d);
    } else if c.announcing > 0 {
      var d := c.(announcing := c.announcing - 1);
      RunCons(c, RunningEmitted(true), Returning(d));
      ReturningAbandons(d);
    } else {
      assert [StopApplies, StopEnds] == [StopApplies] + ([StopEnds] + []);
      RunCons(c, StopApplies, [StopEnds] + []);
      RunCons(Next(c, StopApplies), StopEnds, []);
    }
  }

  lemma WatchedCannotBeAbandoned(c: Client)
    requires Inv(c) && Watched(c)
    ensures !CanBeAbandoned(c)
  {
    hide Inv, RunFrom, Attended;
    forall acts | Attended(c, acts)
      ensures !Abandoned(RunFrom(c, acts))
    {
      hide Watched;
      RunStaysWatched(c, acts);
      WatchedIsNotAbandoned(RunFrom(c, acts));
    }
  }

  lemma WatchedIsNotAbandoned(c: Client)
    requires Watched(c)
    ensures !Abandoned(c)
  {
  }

  // After any run in which no supervisor ended that way: an action makes it possible
  // that the client stays active with nothing under way exactly if it is such an end.
  lemma AbandonedExactly(before: seq<Action>, a: Action)
    requires Attended(INITIAL, before)
    ensures CanBeAbandoned(Next(RunFrom(INITIAL, before), a)) <==> Abandons(RunFrom(INITIAL, before), a)
  {
    var c := RunFrom(INITIAL, before);
    RunStaysWatched(INITIAL, before);
    hide Inv, Watched, RunFrom, Attended;
    if Abandons(c, a) {
      var d := Next(c, a);
      ReturningAbandons(d);
      hide Abandoned;
      assert Attended(d, Returning(d)) && Abandoned(RunFrom(d, Returning(d)));
    } else {
      hide Abandons, Step, Enabled, CanBeAbandoned;
      if Enabled(c, a) {
        StepKeepsInv(c, a);
        StepStaysWatched(c, a);
      }
      WatchedCannotBeAbandoned(Next(c, a));
    }
  }

  ghost predicate AbandonsAt(acts: seq<Action>, i: int) {
    0 <= i < |acts| && Abandons(RunFrom(INITIAL, acts[..i]), acts[i])
  }

  lemma {:induction false} AbandonedSomewhere(c: Client, acts: seq<Action>) returns (i: nat)
    requires !Attended(c, acts)
    ensures i < |acts| && Abandons(RunFrom(c, acts[..i]), acts[i])
    decreases acts
  {
    hide Abandons, Next;
    if Abandons(c, acts[0]) {
      i := 0;
      assert acts[..0] == [];
    } else {
      var k := AbandonedSomewhere(Next(c, acts[0]), acts[1..]);
      i := k + 1;
      assert acts[..k + 1][0] == acts[0] && acts[..k + 1][1..] == acts[1..][..k];
    }
  }

  // Over all runs: with nothing under way the client is inactive, its last run ended
  // by STOPPED, unless some supervisor ended that way.
  lemma QuietMeansEnded(acts: seq<Action>)
    ensures
      var c := RunFrom(INITIAL, acts);
      UnderWay(c) || c.track.state.Stopped? || exists i :: AbandonsAt(acts, i)
  {
    hide RunFrom, Abandons;
    if Attended(INITIAL, acts) {
      hide Attended;
      assert Inv(INITIAL) && Watched(INITIAL);
      RunStaysWatched(INITIAL, acts);
      QuietIsStopped(RunFrom(INITIAL, acts));
    } else {
      var i := AbandonedSomewhere(INITIAL, acts);
      assert AbandonsAt(acts, i);
    }
  }

  lemma QuietIsStopped(c: Client)
    requires Inv(c) && Watched(c)
    ensures UnderWay(c) || c.track.state.Stopped?
  {
  }

  // A stop whose run its supervisor had left to it is slow to release its waiter; the
  // next run begins and its supervisor ends in the meantime.
  const FIRST_LIFE := [StartBegins, StartingEmitted(true), RunningEmitted(true), StopBegins(true, false)]
  const SECOND_LIFE := [SupervisorFinalizes, StopApplies, StartBegins, StartingEmitted(true)]
  const LEFT := [RunningEmitted(true), SupervisorFinalizes, StopEnds]

  lemma ClientIsAbandoned()
    ensures Abandoned(RunFrom(INITIAL, FIRST_LIFE + SECOND_LIFE + LEFT))
    ensures AbandonsAt(FIRST_LIFE + SECOND_LIFE + LEFT, 9)
  {
    hide RunFrom, Next, Abandoned, Abandons;
    var acts := FIRST_LIFE + SECOND_LIFE + LEFT;
    var c1 := RunFrom(INITIAL, FIRST_LIFE);
    var c2 := RunFrom(c1, SECOND_LIFE);
    FirstLife();
    SecondLife(c1);
    LastLife(c2);
    RunConcat(INITIAL, FIRST_LIFE + SECOND_LIFE, LEFT);
    RunConcat(INITIAL, FIRST_LIFE, SECOND_LIFE);
    assert acts[..9] == FIRST_LIFE + SECOND_LIFE + [RunningEmitted(true)];
    RunConcat(INITIAL, FIRST_LIFE + SECOND_LIFE, [RunningEmitted(true)]);
    assert acts[9] == SupervisorFinalizes;
  }

  lemma {:induction false} RunConcat(c: Client, xs: seq<Action>, ys: seq<Action>)
    ensures RunFrom(c, xs + ys) == RunFrom(RunFrom(c, xs), ys)
    decreases xs
  {
    hide Next;
    if xs == [] {
      assert xs + ys == ys;
    } else {
      assert (xs + ys)[0] == xs[0] && (xs + ys)[1..] == xs[1..] + ys;
      RunConcat(Next(c, xs[0]), xs[1..], ys);
    }
  }

  lemma RunFour(c: Client, x: Action, y: Action, z: Action, w: Action)
    ensures RunFrom(c, [x, y, z, w]) == Next(Next(Next(Next(c, x), y), z), w)
  {
    hide Next;
    assert [x, y, z, w][1..] == [y, z, w] && [y, z, w][1..] == [z, w] && [z, w][1..] == [w] && [w][1..] == [];
    var c1 := Next(c, x);
    assert RunFrom(c, [x, y, z, w]) == RunFrom(c1, [y, z, w]);
    assert RunFrom(c1, [y, z, w]) == RunFrom(Next(c1, y), [z, w]);
    assert RunFrom(Next(Next(c1, y), z), [w]) == Next(Next(Next(c1, y), z), w);
  }

  lemma FirstLife()
    ensures
      var d := RunFrom(INITIAL, FIRST_LIFE);
      d.track.state.Stopping? && d.owner == Working(true) && d.starting == 0 && d.announcing == 0 && d.supervisors == 1
  {
    hide RunFrom, Next;
    RunFour(INITIAL, StartBegins, StartingEmitted(true), RunningEmitted(true), StopBegins(true, false));
    var c1 := Next(INITIAL, StartBegins);
    StartsFirst();
    GoesUp(c1);
    var c2 := Next(c1, StartingEmitted(true));
    AnnouncesAndStops(c2);
  }

  lemma StartsFirst()
    ensures
      var d := Next(INITIAL, StartBegins);
      d.track.state.Starting? && d.starting == 1 && d.announcing == 0 && d.supervisors == 0 && d.owner.NoOwner?
  {
  }

  lemma GoesUp(c: Client)
    requires c.track.state.Starting? && c.starting == 1 && c.announcing == 0 && c.supervisors == 0 && c.owner.NoOwner?
    ensures
      var d := Next(c, StartingEmitted(true));
      d.track.state.Running? && d.starting == 0 && d.announcing == 1 && d.supervisors == 1 && d.owner.NoOwner?
  {
  }

  lemma AnnouncesAndStops(c: Client)
    requires c.track.state.Running? && c.starting == 0 && c.announcing == 1 && c.supervisors == 1 && c.owner.NoOwner?
    ensures
      var d := Next(Next(c, RunningEmitted(true)), StopBegins(true, false));
      d.track.state.Stopping? && d.owner == Working(true) && d.starting == 0 && d.announcing == 0 && d.supervisors == 1
  {
    assert Next(c, RunningEmitted(true)) == c.(announcing := 0);
  }

  lemma SecondLife(c: Client)
    requires c.track.state.Stopping? && c.owner == Working(true) && c.starting == 0 && c.announcing == 0
    requires c.supervisors == 1
    ensures
      var d := RunFrom(c, SECOND_LIFE);
      d.track.state.Running? && d.owner.Releasing? && d.starting == 0 && d.announcing == 1 && d.supervisors == 1
  {
    RunFour(c, SupervisorFinalizes, StopApplies, StartBegins, StartingEmitted(true));
    hide RunFrom;
    var c2 := Next(Next(c, SupervisorFinalizes), StopApplies);
    assert c2.track.state.Stopped? && c2.owner.Releasing?;
  }

  lemma LastLife(c: Client)
    requires c.track.state.Running? && c.owner.Releasing? && c.starting == 0 && c.announcing == 1 && c.supervisors == 1
    ensures Abandoned(RunFrom(c, LEFT)) && Abandons(RunFrom(c, [RunningEmitted(true)]), SupervisorFinalizes)
  {
    assert LEFT == [RunningEmitted(true)] + ([SupervisorFinalizes] + ([StopEnds] + []));
    RunCons(c, RunningEmitted(true), LEFT[1..]);
    assert [RunningEmitted(true)] == [RunningEmitted(true)] + [];
    RunCons(c, RunningEmitted(true), []);
    var c1 := Next(c, RunningEmitted(true));
    RunCons(c1, SupervisorFinalizes, LEFT[2..]);
    RunCons(Next(c1, SupervisorFinalizes), StopEnds, []);
  }

  // ---- the object ------------------------------------------------------------------------

  // The locked sections of AsyncioTcpClient and of its supervisor.
  class AsyncioTcpClient {
    var lifecycleState: L.Lifecycle
    var running: bool
    var stopWaiter: Owner
    var supervisors: nat
    var starting: nat
    var announcing: nat
    ghost var applied: seq<L.Transition>
    ghost var actors: seq<Actor>
    ghost var illegal: nat

    ghost function View(): Client
      reads this
    {
      Client(L.Track(lifecycleState, applied), running, stopWaiter, starting, announcing, supervisors, actors, illegal)
    }

    ghost predicate Valid()
      reads this
    {
      Inv(View())
    }

    constructor ()
      ensures View() == INITIAL && Valid()
    {
      lifecycleState, running, stopWaiter := L.Stopped, false, NoOwner;
      supervisors, starting, announcing := 0, 0, 0;
      applied, actors, illegal := [], [], 0;
    }

    // _apply_lifecycle_state with _on_lifecycle_state_applied
    method Apply(target: L.Lifecycle, ghost who: Actor) returns (outcome: L.Applied)
      modifies this`lifecycleState, this`running, this`applied, this`actors, this`illegal
      ensures outcome == L.Request(old(lifecycleState), target)
      ensures View() == Ask(old(View()), target, who)
    {
      outcome := L.Request(lifecycleState, target);
      if outcome.Changed? {
        applied := applied + [outcome.event];
        actors := actors + [who];
        lifecycleState := target;
        running := target.Starting? || target.Running?;
      } else if outcome.Illegal? && who != Start {
        illegal := illegal + 1;
      }
    }

    method BeginStart() returns (proceeds: bool, raises: bool)
      requires Valid()
      modifies this`lifecycleState, this`running, this`starting, this`applied, this`actors, this`illegal
      ensures View() == Next(old(View()), StartBegins) && Valid()
      ensures proceeds <==> old(lifecycleState).Stopped?
      ensures raises <==> old(lifecycleState).Stopping?
    {
      hide Inv;
      if lifecycleState.Starting? || lifecycleState.Running? {
        return false, false;
      }
      if lifecycleState.Stopped? {
        StepKeepsInv(View(), StartBegins);
      }
      var outcome := Apply(L.Starting, Start);
      if outcome.Changed? {
        starting := starting + 1;
      }
      assert View() == Next(old(View()), StartBegins);
      return outcome.Changed?, outcome.Illegal?;
    }

    // STARTING was handled: create the supervisor unless a stop intervened.
    method CompleteStart()
      requires Valid() && starting > 0
      modifies this`lifecycleState, this`running, this`starting, this`announcing, this`supervisors, this`applied,
        this`actors, this`illegal
      ensures View() == Next(old(View()), StartingEmitted(true)) && Valid()
    {
      hide Inv;
      StepKeepsInv(View(), StartingEmitted(true));
      starting := starting - 1;
      if lifecycleState.Starting? {
        var _ := Apply(L.Running, Start);
        supervisors := supervisors + 1;
        announcing := announcing + 1;
      }
      assert View() == Next(old(View()), StartingEmitted(true));
    }

    method RollBackFailedStartup()
      modifies this`lifecycleState, this`running, this`applied, this`actors, this`illegal
      ensures View() == RollBack(old(View()))
    {
      hide Ask;
      if lifecycleState == L.Running {
        var _ := Apply(L.Stopping, Rollback);
        var _ := Apply(L.Stopped, Rollback);
      } else if lifecycleState == L.Starting {
        var _ := Apply(L.Stopped, Rollback);
      }
    }

    // Publication of STARTING or of RUNNING failed; afterwards the client is inactive,
    // unless a stop is at work on it.
    method FailStartup(announced: bool)
      requires Valid() && (if announced then announcing > 0 else starting > 0)
      modifies this`lifecycleState, this`running, this`starting, this`announcing
      modifies this`applied, this`actors, this`illegal
      ensures
        View() == Next(old(View()), if announced then Action.RunningEmitted(false) else StartingEmitted(false))
        && Valid()
      ensures !running && !L.Active(lifecycleState)
    {
      hide Inv, RollBack;
      var a := if announced then Action.RunningEmitted(false) else StartingEmitted(false);
      StepKeepsInv(View(), a);
      if announced {
        announcing := announcing - 1;
      } else {
        starting := starting - 1;
      }
      RollBackIsInactive(View());
      RollBackFailedStartup();
      assert View() == Next(old(View()), a);
      ValidRuns(View());
    }

    // `idle` says that neither supervisor, heartbeat, connection nor dispatcher is left.
    method PlanStop(dispatcherRuns: bool, idle: bool) returns (owns: bool, waits: bool)
      requires Valid()
      modifies this`lifecycleState, this`running, this`stopWaiter, this`applied, this`actors, this`illegal
      ensures waits <==> !old(stopWaiter).NoOwner?
      ensures owns <==> old(stopWaiter).NoOwner? && !(old(lifecycleState).Stopped? && idle)
      ensures View() == Next(old(View()), StopBegins(dispatcherRuns, idle)) && Valid()
    {
      hide Inv;
      if !stopWaiter.NoOwner? {
        return false, true;
      }
      if lifecycleState == L.Stopped && idle {
        return false, false;
      }
      hide Ask;
      StepKeepsInv(View(), StopBegins(dispatcherRuns, idle));
      var active := L.Active(lifecycleState);
      if active {
        var _ := Apply(L.Stopping, StopOwner);
      }
      stopWaiter := Working(active || dispatcherRuns);
      assert View() == Next(old(View()), StopBegins(dispatcherRuns, idle));
      return true, false;
    }

    method ApplyStopped()
      requires Valid() && stopWaiter.Working?
      modifies this`lifecycleState, this`running, this`stopWaiter, this`applied, this`actors, this`illegal
      ensures View() == Next(old(View()), StopApplies) && Valid()
      ensures old(lifecycleState).Stopping? ==> lifecycleState.Stopped?
    {
      StepKeepsInv(View(), StopApplies);
      hide L.IsPath, SameActorEnds;
      assert lifecycleState.Stopping? ==> Next(View(), StopApplies).track.state.Stopped?;
      hide Ask;
      if stopWaiter.applies && lifecycleState == L.Stopping {
        var _ := Apply(L.Stopped, StopOwner);
      }
      stopWaiter := Releasing;
      assert View() == Next(old(View()), StopApplies);
    }

    method FinalizeSupervision()
      requires Valid() && supervisors > 0
      modifies this`lifecycleState, this`running, this`supervisors, this`applied, this`actors, this`illegal
      ensures View() == Next(old(View()), SupervisorFinalizes) && Valid()
    {
      hide Ask, Inv;
      StepKeepsInv(View(), SupervisorFinalizes);
      supervisors := supervisors - 1;
      if stopWaiter.NoOwner? {
        if L.Active(lifecycleState) {
          var _ := Apply(L.Stopping, Supervisor);
        }
        if lifecycleState == L.Stopping {
          var _ := Apply(L.Stopped, Supervisor);
        }
      }
      assert View() == Next(old(View()), SupervisorFinalizes);
    }
  }

  lemma RollBackIsInactive(c: Client)
    ensures !L.Active(RollBack(c).track.state)
  {
  }

  lemma ValidRuns(c: Client)
    requires Inv(c)
    ensures c.running <==> L.Active(c.track.state)
  {
  }
}

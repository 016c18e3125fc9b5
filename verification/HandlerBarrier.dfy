// The handler barrier of the dispatcher: tokens of active handlers, and the tasks
// that wait until no handler of a resource is active.

module HandlerBarrier {
  import opened Common

  // A parked task: the resource it waits for (none: any), and the future it awaits.
  datatype Park = Park(resource: Option<nat>, waiter: nat)

  // The three tables by token, the waiter slot, the settled futures and the tasks
  // inside wait_for_handler_context.  `provenance` are the tokens whose child tasks
  // inherit the handler's origin.
  datatype Barrier = Barrier(
    lastToken: nat,
    tokens: set<nat>,
    resources: map<nat, Option<nat>>,
    owners: map<nat, Option<nat>>,
    provenance: set<nat>,
    changedWaiter: Option<nat>,
    settled: set<nat>,
    nextWaiter: nat,
    parked: map<nat, Park>)

  const INITIAL := Barrier(0, {}, map[], map[], {}, None, {}, 0, map[])

  datatype Action =
    | Enter(resource: Option<nat>, owner: Option<nat>, dispatching: bool)
    | Exit(token: nat)
    | WaitBegins(task: nat, resource: Option<nat>)
    | WaitResumes(task: nat)
    | WaitCancelled(task: nat)

  // has_active_handler_context
  predicate HasActive(b: Barrier, resource: Option<nat>) {
    if resource.None? then b.tokens != {} else exists t :: t in b.resources && b.resources[t] == resource
  }

  // _handler_dispatch_context and _handler_origin_context_only, on entry.
  function DoEnter(b: Barrier, resource: Option<nat>, owner: Option<nat>, dispatching: bool): Barrier {
    var token := b.lastToken + 1;
    b.(lastToken := token, tokens := b.tokens + {token}, resources := b.resources[token := resource],
       owners := b.owners[token := owner],
       provenance := if dispatching then b.provenance + {token} else b.provenance)
  }

  // _notify_handler_context_changed
  function Notify(b: Barrier): Barrier {
    if b.changedWaiter.None? then b
    else b.(settled := b.settled + {b.changedWaiter.value}, changedWaiter := None)
  }

  // The finally block of both contexts.
  function DoExit(b: Barrier, token: nat): Barrier {
    Notify(b.(tokens := b.tokens - {token}, resources := b.resources - {token}, owners := b.owners - {token},
              provenance := b.provenance - {token}))
  }

  // One pass through the loop of wait_for_handler_context, when the barrier is up.
  function DoPark(b: Barrier, task: nat, resource: Option<nat>): Barrier {
    if b.changedWaiter.Some? && b.changedWaiter.value !in b.settled
    then b.(parked := b.parked[task := Park(resource, b.changedWaiter.value)])
    else b.(changedWaiter := Some(b.nextWaiter), nextWaiter := b.nextWaiter + 1,
            parked := b.parked[task := Park(resource, b.nextWaiter)])
  }

  // The task returns if the barrier is down, and parks (again) otherwise.
  function DoWait(b: Barrier, task: nat, resource: Option<nat>): Barrier {
    if HasActive(b, resource) then DoPark(b, task, resource) else b.(parked := b.parked - {task})
  }

  predicate Runnable(b: Barrier, task: nat) { task in b.parked && b.parked[task].waiter in b.settled }

  predicate Enabled(b: Barrier, a: Action) {
    match a
    case Enter(_, _, _) => true
    case Exit(token) => token in b.tokens
    case WaitBegins(task, _) => task !in b.parked
    case WaitResumes(task) => Runnable(b, task)
    case WaitCancelled(task) => task in b.parked
  }

  function Step(b: Barrier, a: Action): Barrier
    requires Enabled(b, a)
  {
    match a
    case Enter(resource, owner, dispatching) => DoEnter(b, resource, owner, dispatching)
    case Exit(token) => DoExit(b, token)
    case WaitBegins(task, resource) => DoWait(b, task, resource)
    case WaitResumes(task) => DoWait(b, task, b.parked[task].resource)
    case WaitCancelled(task) => b.(parked := b.parked - {task})
  }

  function Next(b: Barrier, a: Action): Barrier { if Enabled(b, a) then Step(b, a) else b }

  function RunFrom(b: Barrier, acts: seq<Action>): Barrier
    decreases acts
  {
    if acts == [] then b else RunFrom(Next(b, acts[0]), acts[1..])
  }

  // ---- the invariant ----------------------------------------------------------------

  ghost predicate TablesOk(b: Barrier) {
    && b.tokens == b.resources.Keys == b.owners.Keys
    && b.provenance <= b.tokens
    && (forall t :: t in b.tokens ==> t <= b.lastToken)
  }

  // Whoever sleeps sleeps on the current waiter, and its barrier is up.
  ghost predicate SleepersOk(b: Barrier) {
    && (b.changedWaiter.Some? ==> b.changedWaiter.value < b.nextWaiter && b.changedWaiter.value !in b.settled)
    && (forall w :: w in b.settled ==> w < b.nextWaiter)
    && (forall t :: t in b.parked && !Runnable(b, t) ==>
          b.changedWaiter == Some(b.parked[t].waiter) && HasActive(b, b.parked[t].resource))
  }

  ghost predicate Inv(b: Barrier) { TablesOk(b) && SleepersOk(b) }

  lemma EnterKeepsInv(b: Barrier, resource: Option<nat>, owner: Option<nat>, dispatching: bool)
    requires Inv(b)
    ensures Inv(DoEnter(b, resource, owner, dispatching))
  {
    var d := DoEnter(b, resource, owner, dispatching);
    forall t | t in d.parked && !Runnable(d, t)
      ensures d.changedWaiter == Some(d.parked[t].waiter) && HasActive(d, d.parked[t].resource)
    {
      assert !Runnable(b, t);
      var r := b.parked[t].resource;
      if r.Some? {
        var u :| u in b.resources && b.resources[u] == r;
        assert u in d.resources && d.resources[u] == r;
      } else {
        assert b.lastToken + 1 in d.tokens;
      }
    }
  }

  // Every release wakes everyone who is parked.
  lemma ExitWakesAll(b: Barrier, token: nat)
    requires Inv(b)
    ensures var d := DoExit(b, token); forall t :: t in d.parked ==> Runnable(d, t)
  {
    var d := DoExit(b, token);
    forall t | t in d.parked
      ensures Runnable(d, t)
    {
      if !Runnable(b, t) {
        assert b.changedWaiter == Some(b.parked[t].waiter);
      }
    }
  }

  lemma ExitKeepsInv(b: Barrier, token: nat)
    requires Inv(b)
    ensures Inv(DoExit(b, token))
  {
    ExitWakesAll(b, token);
  }

  lemma WaitKeepsInv(b: Barrier, task: nat, resource: Option<nat>)
    requires Inv(b)
    ensures Inv(DoWait(b, task, resource))
  {
    hide TablesOk;
    var d := DoWait(b, task, resource);
    assert d.resources == b.resources && d.tokens == b.tokens;
    forall t | t in d.parked && !Runnable(d, t)
      ensures d.changedWaiter == Some(d.parked[t].waiter) && HasActive(d, d.parked[t].resource)
    {
      if t != task || !HasActive(b, resource) {
        assert t in b.parked && !Runnable(b, t);
      }
      assert HasActive(b, d.parked[t].resource);
    }
    TablesSame(b, d);
  }

  lemma TablesSame(b: Barrier, d: Barrier)
    requires TablesOk(b) && d.tokens == b.tokens && d.resources == b.resources && d.owners == b.owners
    requires d.provenance == b.provenance && d.lastToken == b.lastToken
    ensures TablesOk(d)
  {
  }

  lemma CancelKeepsInv(b: Barrier, task: nat)
    requires Inv(b)
    ensures Inv(b.(parked := b.parked - {task}))
  {
    hide TablesOk;
    var d := b.(parked := b.parked - {task});
    forall t | t in d.parked && !Runnable(d, t)
      ensures d.changedWaiter == Some(d.parked[t].waiter) && HasActive(d, d.parked[t].resource)
    {
      assert !Runnable(b, t) && HasActive(b, b.parked[t].resource);
    }
    TablesSame(b, d);
  }

  lemma StepKeepsInv(b: Barrier, a: Action)
    requires Inv(b) && Enabled(b, a)
    ensures Inv(Step(b, a))
  {
    hide Inv;
    match a
    case Enter(resource, owner, dispatching) => EnterKeepsInv(b, resource, owner, dispatching);
    case Exit(token) => ExitKeepsInv(b, token);
    case WaitBegins(task, resource) => WaitKeepsInv(b, task, resource);
    case WaitResumes(task) => WaitKeepsInv(b, task, b.parked[task].resource);
    case WaitCancelled(task) => CancelKeepsInv(b, task);
  }

  lemma {:induction false} RunKeepsInv(b: Barrier, acts: seq<Action>)
    requires Inv(b)
    ensures Inv(RunFrom(b, acts))
    ensures RunFrom(b, acts).lastToken >= b.lastToken
    decreases acts
  {
    hide Inv;
    if acts != [] {
      if Enabled(b, acts[0]) {
        StepKeepsInv(b, acts[0]);
      }
      RunKeepsInv(Next(b, acts[0]), acts[1..]);
    }
  }

  // ---- the promises ------------------------------------------------------------------

  // In every reachable state the three tables have the same keys, and no wakeup was
  // lost: a task that sleeps does so while a handler it waits for is active.
  lemma NoLostWakeup(acts: seq<Action>, task: nat)
    ensures
      var b := RunFrom(INITIAL, acts);
      && b.tokens == b.resources.Keys == b.owners.Keys
      && (task in b.parked && !HasActive(b, b.parked[task].resource) ==> Runnable(b, task))
  {
    RunKeepsInv(INITIAL, acts);
    hide RunFrom, HasActive, Runnable;
  }

  // A token is never handed out twice.
  lemma TokensNeverReused(before: seq<Action>, between: seq<Action>, resource: Option<nat>, owner: Option<nat>,
                          dispatching: bool)
    ensures
      var b := RunFrom(INITIAL, before);
      var first := b.lastToken + 1;
      var d := RunFrom(DoEnter(b, resource, owner, dispatching), between);
      var later := d.lastToken + 1;
      first < later && later !in d.tokens
  {
    RunKeepsInv(INITIAL, before);
    var b := RunFrom(INITIAL, before);
    EnterKeepsInv(b, resource, owner, dispatching);
    RunKeepsInv(DoEnter(b, resource, owner, dispatching), between);
    hide RunFrom, SleepersOk;
  }

  lemma EnterIs(b: Barrier, resource: Option<nat>, owner: Option<nat>, dispatching: bool)
    ensures Next(b, Enter(resource, owner, dispatching)) == DoEnter(b, resource, owner, dispatching)
  {
    hide DoEnter;
  }

  lemma TokenIsNew(b: Barrier)
    requires Inv(b)
    ensures b.lastToken + 1 !in b.tokens
  {
  }

  // ---- the object -------------------------------------------------------------------------

  class HandlerContexts {
    var nextToken: nat
    var tokens: set<nat>
    var resources: map<nat, Option<nat>>
    var ownerTasks: map<nat, Option<nat>>
    var provenanceTokens: set<nat>
    var changedWaiter: Option<nat>
    var settled: set<nat>
    var nextWaiter: nat
    var parked: map<nat, Park>

    ghost function View(): Barrier
      reads this
    {
      Barrier(nextToken, tokens, resources, ownerTasks, provenanceTokens, changedWaiter, settled, nextWaiter, parked)
    }

    ghost predicate Valid()
      reads this
    {
      Inv(View())
    }

    constructor ()
      ensures View() == INITIAL && Valid()
    {
      nextToken, tokens, resources, ownerTasks, provenanceTokens := 0, {}, map[], map[], {};
      changedWaiter, settled, nextWaiter, parked := None, {}, 0, map[];
    }

    method EnterContext(resource: Option<nat>, owner: Option<nat>, dispatching: bool) returns (token: nat)
      requires Valid()
      modifies this`nextToken, this`tokens, this`resources, this`ownerTasks, this`provenanceTokens
      ensures View() == Next(old(View()), Enter(resource, owner, dispatching)) && Valid()
      ensures token == nextToken && token in tokens && token !in old(tokens)
    {
      TokenIsNew(View());
      EnterIs(View(), resource, owner, dispatching);
      hide Inv, Next;
      EnterKeepsInv(View(), resource, owner, dispatching);
      nextToken := nextToken + 1;
      token := nextToken;
      tokens := tokens + {token};
      resources := resources[token := resource];
      ownerTasks := ownerTasks[token := owner];
      if dispatching {
        provenanceTokens := provenanceTokens + {token};
      }
      assert View() == DoEnter(old(View()), resource, owner, dispatching);
    }

    method ExitContext(token: nat)
      requires Valid() && token in tokens
      modifies this`tokens, this`resources, this`ownerTasks, this`provenanceTokens, this`settled, this`changedWaiter
      ensures View() == Next(old(View()), Exit(token)) && Valid()
      ensures forall t :: t in parked ==> Runnable(View(), t)
    {
      hide Inv;
      ExitKeepsInv(View(), token);
      ExitWakesAll(View(), token);
      tokens := tokens - {token};
      resources := resources - {token};
      ownerTasks := ownerTasks - {token};
      provenanceTokens := provenanceTokens - {token};
      if changedWaiter.Some? {
        settled := settled + {changedWaiter.value};
        changedWaiter := None;
      }
      assert View() == Next(old(View()), Exit(token));
    }

    // any(active == resource for active in the resource table)
    method HasActiveHandler(resource: Option<nat>) returns (active: bool)
      ensures active == HasActive(View(), resource)
    {
      if resource.None? {
        return tokens != {};
      }
      var left := resources.Keys;
      while left != {}
        invariant left <= resources.Keys
        invariant forall t :: t in resources.Keys - left ==> resources[t] != resource
        decreases |left|
      {
        var t :| t in left;
        if resources[t] == resource {
          return true;
        }
        left := left - {t};
      }
      return false;
    }

    // One pass of wait_for_handler_context: returns, or sleeps on the waiter.
    method WaitOnce(task: nat, resource: Option<nat>) returns (leaves: bool)
      requires Valid() && (task in parked ==> Runnable(View(), task) && parked[task].resource == resource)
      modifies this`parked, this`changedWaiter, this`nextWaiter
      ensures View() == Next(old(View()), if task in old(parked) then WaitResumes(task) else WaitBegins(task, resource))
      ensures Valid()
      ensures leaves <==> !HasActive(old(View()), resource)
    {
      hide Inv;
      WaitKeepsInv(View(), task, resource);
      var active := HasActiveHandler(resource);
      if !active {
        parked := parked - {task};
        assert View() == DoWait(old(View()), task, resource);
        return true;
      }
      if changedWaiter.None? || changedWaiter.value in settled {
        changedWaiter := Some(nextWaiter);
        nextWaiter := nextWaiter + 1;
      }
      parked := parked[task := Park(resource, changedWaiter.value)];
      assert View() == DoWait(old(View()), task, resource);
      return false;
    }
  }
}

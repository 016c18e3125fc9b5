// What the handler barrier means: the contexts that were entered and not yet left, and
// the tasks that wait for them, read off the actions alone.

module HandlerOrigins {
  import opened Common
  import opened HandlerBarrier

  // A handler's context: the resource of its event, the task that runs it, and whether
  // it is dispatching (its child tasks inherit its origin) or an origin only.
  datatype Context = Context(resource: Option<nat>, owner: Option<nat>, dispatching: bool)

  // How many contexts were entered, which of them are open, by number, and who waits for
  // the contexts of which resource.
  datatype Account = Account(entered: nat, open: map<nat, Context>, waiting: map<nat, Option<nat>>)

  const NOTHING := Account(0, map[], map[])

  // A context of the resource is open, or any if none is named.
  ghost predicate Open(s: Account, resource: Option<nat>) {
    exists t :: t in s.open && (resource.None? || s.open[t].resource == resource)
  }

  // A task waits from the call that finds such a context open until it runs with none
  // open, or is cancelled.
  ghost function Told(s: Account, a: Action): Account {
    match a
    case Enter(resource, owner, dispatching) =>
      s.(entered := s.entered + 1, open := s.open[s.entered + 1 := Context(resource, owner, dispatching)])
    case Exit(token) => s.(open := s.open - {token})
    case WaitBegins(task, resource) =>
      if task !in s.waiting && Open(s, resource) then s.(waiting := s.waiting[task := resource]) else s
    case WaitResumes(task) =>
      if task in s.waiting && !Open(s, s.waiting[task]) then s.(waiting := s.waiting - {task}) else s
    case WaitCancelled(task) => s.(waiting := s.waiting - {task})
  }

  ghost function TellAll(s: Account, acts: seq<Action>): Account
    decreases acts
  {
    if acts == [] then s else TellAll(Told(s, acts[0]), acts[1..])
  }

  // ---- the tables hold exactly that -----------------------------------------------------

  ghost predicate Records(b: Barrier, s: Account) {
    && b.lastToken == s.entered
    && b.tokens == b.resources.Keys == b.owners.Keys == s.open.Keys
    && b.provenance <= b.tokens
    && (forall t :: t in b.tokens ==> s.open[t] == Context(b.resources[t], b.owners[t], t in b.provenance))
    && b.parked.Keys == s.waiting.Keys
    && (forall t :: t in b.parked ==> b.parked[t].resource == s.waiting[t])
  }

  lemma ActiveIsOpen(b: Barrier, s: Account, resource: Option<nat>)
    requires Records(b, s)
    ensures HasActive(b, resource) <==> Open(s, resource)
  {
    if resource.None? {
      if b.tokens != {} {
        var t :| t in b.tokens;
        assert t in s.open;
      }
    } else if HasActive(b, resource) {
      var t :| t in b.resources && b.resources[t] == resource;
      assert t in s.open && s.open[t].resource == resource;
    }
  }

  lemma EnterRecords(b: Barrier, s: Account, resource: Option<nat>, owner: Option<nat>, dispatching: bool)
    requires Records(b, s) && b.lastToken + 1 !in b.tokens
    ensures Records(DoEnter(b, resource, owner, dispatching), Told(s, Enter(resource, owner, dispatching)))
  {
  }

  lemma ExitRecords(b: Barrier, s: Account, token: nat)
    requires Records(b, s)
    ensures Records(DoExit(b, token), Told(s, Exit(token)))
  {
    var d := DoExit(b, token);
    assert d.tokens == b.tokens - {token} && d.parked == b.parked && d.lastToken == b.lastToken;
    assert d.resources == b.resources - {token} && d.owners == b.owners - {token};
    assert d.provenance == b.provenance - {token};
    hide DoExit;
  }

  lemma WaitRecords(b: Barrier, s: Account, task: nat, resource: Option<nat>)
    requires Records(b, s)
    ensures
      Records(DoWait(b, task, resource),
              s.(waiting := if Open(s, resource) then s.waiting[task := resource] else s.waiting - {task}))
  {
    ActiveIsOpen(b, s, resource);
    hide HasActive, Open;
  }

  lemma StepRecords(b: Barrier, s: Account, a: Action)
    requires Inv(b) && Records(b, s)
    ensures Records(Next(b, a), Told(s, a))
  {
    match a
    case Enter(resource, owner, dispatching) => {
      TokenIsNew(b);
      EnterIs(b, resource, owner, dispatching);
      hide Inv, Records, Next;
      EnterRecords(b, s, resource, owner, dispatching);
    }
    case Exit(token) => {
      assert token !in s.open ==> s.open - {token} == s.open;
      hide Inv, DoExit;
      ExitRecords(b, s, token);
    }
    case WaitBegins(task, resource) => {
      hide DoWait, Open;
      WaitRecords(b, s, task, resource);
      assert task !in s.waiting ==> s.waiting - {task} == s.waiting;
    }
    case WaitResumes(task) => {
      if task in b.parked {
        var r := b.parked[task].resource;
        WaitRecords(b, s, task, r);
        ActiveIsOpen(b, s, r);
        assert s.waiting[task := r] == s.waiting;
        assert !HasActive(b, r) ==> Runnable(b, task);
      }
      hide DoWait, Open, HasActive, Runnable;
    }
    case WaitCancelled(task) => {
      assert task !in s.waiting ==> s.waiting - {task} == s.waiting;
    }
  }

  lemma {:induction false} RunRecords(b: Barrier, s: Account, acts: seq<Action>)
    requires Inv(b) && Records(b, s)
    ensures Records(RunFrom(b, acts), TellAll(s, acts))
    decreases acts
  {
    hide Inv, Records, Told, Step, Enabled;
    if acts != [] {
      if Enabled(b, acts[0]) {
        StepKeepsInv(b, acts[0]);
      }
      StepRecords(b, s, acts[0]);
      RunRecords(Next(b, acts[0]), Told(s, acts[0]), acts[1..]);
    }
  }

  // Over all runs the tables hold exactly the contexts that were entered and not left, with
  // resource, owner and kind; the barrier of a resource is up exactly if one of them is of
  // that resource; and exactly the tasks are inside the wait that should be.
  lemma TablesHoldOpenContexts(acts: seq<Action>)
    ensures
      var b, s := RunFrom(INITIAL, acts), TellAll(NOTHING, acts);
      Records(b, s) && forall r :: HasActive(b, r) <==> Open(s, r)
  {
    RunRecords(INITIAL, NOTHING, acts);
    hide RunFrom, TellAll;
    forall r
      ensures HasActive(RunFrom(INITIAL, acts), r) <==> Open(TellAll(NOTHING, acts), r)
    {
      ActiveIsOpen(RunFrom(INITIAL, acts), TellAll(NOTHING, acts), r);
    }
  }

  // Hence in every reachable state a waiting task leaves the wait by exactly two actions:
  // its own next run, if no context of the resource it named is open, and its
  // cancellation.
  lemma LeavesExactlyWhenClear(acts: seq<Action>, a: Action, task: nat)
    requires task in RunFrom(INITIAL, acts).parked
    ensures
      var s := TellAll(NOTHING, acts);
      && task in s.waiting
      && (task !in Next(RunFrom(INITIAL, acts), a).parked
          <==> a == WaitCancelled(task) || (a == WaitResumes(task) && !Open(s, s.waiting[task])))
  {
    var b, s := RunFrom(INITIAL, acts), TellAll(NOTHING, acts);
    RunRecords(INITIAL, NOTHING, acts);
    assert Inv(INITIAL);
    RunKeepsInv(INITIAL, acts);
    hide RunFrom, TellAll, Inv, Open, Next;
    StepRecords(b, s, a);
    assert Next(b, a).parked.Keys == Told(s, a).waiting.Keys;
  }

  // ---- who is a handler's task ------------------------------------------------------------

  // current_task_has_handler_origin_context: `carried` are the tokens in the context
  // variable of the task.
  predicate HasOrigin(b: Barrier, carried: set<nat>, task: nat, resource: Option<nat>) {
    exists t :: t in carried && t in b.tokens && t in b.owners && (b.owners[t].None? || b.owners[t] == Some(task))
                && (resource.None? || (t in b.resources && b.resources[t] == resource))
  }

  // current_task_inherits_handler_origin_context
  predicate Inherits(b: Barrier, carried: set<nat>, task: nat, resource: Option<nat>) {
    exists t :: t in carried && t in b.tokens
                && (t in b.provenance || (t in b.owners && b.owners[t] == Some(task)))
                && (resource.None? || (t in b.resources && b.resources[t] == resource))
  }

  ghost predicate OfOpen(s: Account, carried: set<nat>, t: nat, resource: Option<nat>) {
    t in carried && t in s.open && (resource.None? || s.open[t].resource == resource)
  }

  // In every reachable state: a task has a handler's authority exactly if it carries an open
  // context of its own or of nobody, and inherits the origin exactly if it carries a
  // dispatching one or its own.  Either way a handler of the resource is active.
  lemma OriginsAreOpenContexts(acts: seq<Action>, carried: set<nat>, task: nat, resource: Option<nat>)
    ensures
      var b, s := RunFrom(INITIAL, acts), TellAll(NOTHING, acts);
      && (HasOrigin(b, carried, task, resource)
          <==> exists t :: OfOpen(s, carried, t, resource) && (s.open[t].owner.None? || s.open[t].owner == Some(task)))
      && (Inherits(b, carried, task, resource)
          <==> exists t :: OfOpen(s, carried, t, resource) && (s.open[t].dispatching || s.open[t].owner == Some(task)))
      && (HasOrigin(b, carried, task, resource) || Inherits(b, carried, task, resource) ==> HasActive(b, resource))
  {
    RunRecords(INITIAL, NOTHING, acts);
    hide RunFrom, TellAll;
    OriginsOf(RunFrom(INITIAL, acts), TellAll(NOTHING, acts), carried, task, resource);
    ActiveIsOpen(RunFrom(INITIAL, acts), TellAll(NOTHING, acts), resource);
  }

  lemma OriginsOf(b: Barrier, s: Account, carried: set<nat>, task: nat, resource: Option<nat>)
    requires Records(b, s)
    ensures
      HasOrigin(b, carried, task, resource)
      <==> exists t :: OfOpen(s, carried, t, resource) && (s.open[t].owner.None? || s.open[t].owner == Some(task))
    ensures
      Inherits(b, carried, task, resource)
      <==> exists t :: OfOpen(s, carried, t, resource) && (s.open[t].dispatching || s.open[t].owner == Some(task))
  {
    forall t
      ensures OfOpen(s, carried, t, resource)
              <==> t in carried && t in b.tokens && (resource.None? || b.resources[t] == resource)
    {
    }
    forall t | t in b.tokens
      ensures s.open[t].owner == b.owners[t] && (s.open[t].dispatching <==> t in b.provenance)
    {
    }
  }
}

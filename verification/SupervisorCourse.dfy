// How supervision goes on: what is published when, when it ends, and that it retries.

module SupervisorCourse {
  import opened Common
  import B = Backoff
  import opened Supervisor

  // ---- what each action publishes, exactly ------------------------------------------------

  // The cycle under way fails: an emission of its own, or the connect.
  predicate Fails(s: Supervisor, a: Action) {
    match a
    case StartedEmitted(ok, _, _) => !ok
    case ConnectReturns(ok, _) => !ok
    case ScheduledEmitted(ok, _) => !ok && s.phase.EmittingScheduled? && !s.phase.afterFailure
    case _ => false
  }

  // A reconnect is still wanted.
  predicate Wanted(cfg: Settings, s: Supervisor) { s.running && cfg.reconnect.enabled }

  function Drawn(cfg: Settings, s: Supervisor, fraction: real): real {
    B.Jittered(cfg.reconnect.jitter, B.DelayAfter(cfg.reconnect, s.steps), fraction)
  }

  function FractionOf(a: Action): real {
    match a
    case StartedEmitted(_, _, f) => f
    case ConnectReturns(_, f) => f
    case ConnectionEnds(f) => f
    case ScheduledEmitted(_, f) => f
    case _ => 0.0
  }

  // Supervision ends: it was stopped or no reconnect is wanted where that is tested,
  // FAIL_FAST applies, the failure announced no retry, an emission or the teardown that
  // belongs to a failure fails, or the task is cancelled.
  predicate Ends(cfg: Settings, s: Supervisor, a: Action) {
    match a
    case AttemptStarts => !s.running
    case StartedEmitted(ok, lifecycleRunning, _) => ok && !(s.running && lifecycleRunning)
    case ConnectReturns(ok, _) => ok && !s.running
    case ConnectionEnds(_) => !Wanted(cfg, s)
    case ErrorEmitted(ok) => !ok
    case FailedEmitted(ok) => !ok
    case TornDown(ok) => !ok || cfg.policy.FailFast? || !Wanted(cfg, s) || s.phase == TearingDown(None)
    case ScheduledEmitted(ok, _) => if ok then !Wanted(cfg, s) else !Fails(s, a)
    case Wakes => !Wanted(cfg, s)
    case Cancelled => true
    case _ => false
  }

  predicate Publishes(cfg: Settings, s: Supervisor, a: Action, n: Note) {
    var delay := Drawn(cfg, s, FractionOf(a));
    match n
    case Started(k) => a.AttemptStarts? && s.running && k == s.attempts + 1
    case ConnectedMark => a.ConnectReturns? && a.ok && s.running
    case PlanMark(d) => (Fails(s, a) || a.ConnectionEnds?) && Wanted(cfg, s) && d == delay
    case NetworkError => Fails(s, a) && !cfg.policy.Ignore?
    case Failed(k, d) =>
      && k == s.attempts
      && if Fails(s, a) then cfg.policy.Ignore? && d == if Wanted(cfg, s) then Some(delay) else None
         else a == ErrorEmitted(true) && s.phase == EmittingError(d)
    case Scheduled(k, d) =>
      && k == s.attempts + 1 && Wanted(cfg, s)
      && if a.ConnectionEnds? then d == delay
         else a == TornDown(true) && !cfg.policy.FailFast? && s.phase == TearingDown(Some(d))
    case EndMark => Ends(cfg, s, a)
  }

  ghost predicate PublishesAll(cfg: Settings, s: Supervisor, a: Action, d: Supervisor) {
    s.tape <= d.tape && forall n :: n in d.tape[|s.tape|..] <==> Publishes(cfg, s, a, n)
  }

  lemma NoNote(cfg: Settings, s: Supervisor, a: Action, d: Supervisor)
    requires d.tape == s.tape && forall n :: !Publishes(cfg, s, a, n)
    ensures PublishesAll(cfg, s, a, d)
  {
    hide Publishes;
  }

  lemma OneNote(cfg: Settings, s: Supervisor, a: Action, d: Supervisor, m: Note)
    requires d.tape == s.tape + [m] && forall n :: Publishes(cfg, s, a, n) <==> n == m
    ensures PublishesAll(cfg, s, a, d)
  {
    hide Publishes;
    assert d.tape[|s.tape|..] == [m];
  }

  lemma TwoNotes(cfg: Settings, s: Supervisor, a: Action, d: Supervisor, l: Note, m: Note)
    requires d.tape == s.tape + [l] + [m] && forall n :: Publishes(cfg, s, a, n) <==> n == l || n == m
    ensures PublishesAll(cfg, s, a, d)
  {
    hide Publishes;
    assert d.tape[|s.tape|..] == [l, m];
  }

  lemma FailurePublishes(cfg: Settings, s: Supervisor, a: Action)
    requires Enabled(s, a) && Fails(s, a)
    ensures PublishesAll(cfg, s, a, Fail(cfg, s, FractionOf(a)))
  {
    hide B.DelayAfter, B.Jittered, PublishesAll;
    var delay := Drawn(cfg, s, FractionOf(a));
    var report := if cfg.policy.Ignore? then Failed(s.attempts, if Wanted(cfg, s) then Some(delay) else None)
                  else NetworkError;
    if Wanted(cfg, s) {
      TwoNotes(cfg, s, a, Fail(cfg, s, FractionOf(a)), PlanMark(delay), report);
    } else {
      OneNote(cfg, s, a, Fail(cfg, s, FractionOf(a)), report);
    }
  }

  lemma DisconnectPublishes(cfg: Settings, s: Supervisor, f: real)
    requires s.phase.Waiting?
    ensures PublishesAll(cfg, s, ConnectionEnds(f), AfterDisconnect(cfg, s, f))
  {
    hide B.DelayAfter, B.Jittered, PublishesAll;
    var a, d, delay := ConnectionEnds(f), AfterDisconnect(cfg, s, f), Drawn(cfg, s, f);
    if Wanted(cfg, s) {
      TwoNotes(cfg, s, a, d, PlanMark(delay), Scheduled(s.attempts + 1, delay));
    } else {
      OneNote(cfg, s, a, d, EndMark);
    }
  }

  lemma AttemptPublishes(cfg: Settings, s: Supervisor)
    ensures PublishesAll(cfg, s, AttemptStarts, DoAttempt(s))
  {
    hide B.DelayAfter, B.Jittered, PublishesAll;
    OneNote(cfg, s, AttemptStarts, DoAttempt(s), if s.running then Started(s.attempts + 1) else EndMark);
  }

  lemma SuccessPublishes(cfg: Settings, s: Supervisor, a: Action)
    requires Enabled(s, a) && !Fails(s, a) && (a.StartedEmitted? || a.ConnectReturns?)
    ensures PublishesAll(cfg, s, a, Step(cfg, s, a))
  {
    hide B.DelayAfter, B.Jittered, PublishesAll, Fail;
    if Ends(cfg, s, a) {
      OneNote(cfg, s, a, Step(cfg, s, a), EndMark);
    } else if a.ConnectReturns? {
      OneNote(cfg, s, a, Step(cfg, s, a), ConnectedMark);
    } else {
      NoNote(cfg, s, a, Step(cfg, s, a));
    }
  }

  lemma CleaningPublishes(cfg: Settings, s: Supervisor, a: Action)
    requires Enabled(s, a) && (a.ErrorEmitted? || a.FailedEmitted? || a.TornDown?)
    ensures PublishesAll(cfg, s, a, Step(cfg, s, a))
  {
    hide B.DelayAfter, B.Jittered, PublishesAll;
    if Ends(cfg, s, a) {
      OneNote(cfg, s, a, Step(cfg, s, a), EndMark);
    } else if a.ErrorEmitted? {
      OneNote(cfg, s, a, Step(cfg, s, a), Failed(s.attempts, s.phase.delay));
    } else if a.TornDown? {
      OneNote(cfg, s, a, Step(cfg, s, a), Scheduled(s.attempts + 1, s.phase.delay.value));
    } else {
      NoNote(cfg, s, a, Step(cfg, s, a));
    }
  }

  lemma OtherPublishes(cfg: Settings, s: Supervisor, a: Action)
    requires Enabled(s, a) && !Fails(s, a)
    requires a.RunningBecomes? || a.SupervisionStarts? || a.ScheduledEmitted? || a.Wakes? || a.Cancelled?
    ensures PublishesAll(cfg, s, a, Step(cfg, s, a))
  {
    hide B.DelayAfter, B.Jittered, PublishesAll, Fail;
    if Ends(cfg, s, a) {
      OneNote(cfg, s, a, Step(cfg, s, a), EndMark);
    } else {
      NoNote(cfg, s, a, Step(cfg, s, a));
    }
  }

  // In every state: an action publishes exactly the notes that its outcome, the client's
  // flag, the policy and the settings call for, with these numbers and delays.
  lemma PublishesExactly(cfg: Settings, s: Supervisor, a: Action)
    requires Enabled(s, a)
    ensures PublishesAll(cfg, s, a, Step(cfg, s, a))
  {
    hide PublishesAll, Fail, AfterDisconnect, DoAttempt, End, EmitFailed, DoTornDown, Ends;
    if Fails(s, a) {
      FailurePublishes(cfg, s, a);
    } else {
      match a
      case AttemptStarts => AttemptPublishes(cfg, s);
      case StartedEmitted(_, _, _) => SuccessPublishes(cfg, s, a);
      case ConnectReturns(_, _) => SuccessPublishes(cfg, s, a);
      case ConnectionEnds(f) => DisconnectPublishes(cfg, s, f);
      case ErrorEmitted(_) => CleaningPublishes(cfg, s, a);
      case FailedEmitted(_) => CleaningPublishes(cfg, s, a);
      case TornDown(_) => CleaningPublishes(cfg, s, a);
      case _ => OtherPublishes(cfg, s, a);
    }
  }

  // And supervision, once begun, ends exactly then.
  lemma EndsExactly(cfg: Settings, s: Supervisor, a: Action)
    requires Enabled(s, a) && !s.phase.Idle?
    ensures Step(cfg, s, a).phase.Idle? <==> Ends(cfg, s, a)
  {
    hide NextDelay, Write;
  }

  // ---- it retries ------------------------------------------------------------------------------

  lemma RunCons(cfg: Settings, s: Supervisor, a: Action, rest: seq<Action>)
    ensures RunFrom(cfg, s, [a] + rest) == RunFrom(cfg, Next(cfg, s, a), rest)
  {
    assert ([a] + rest)[1..] == rest;
  }

  lemma {:induction false} RunConcat(cfg: Settings, s: Supervisor, xs: seq<Action>, ys: seq<Action>)
    ensures RunFrom(cfg, s, xs + ys) == RunFrom(cfg, RunFrom(cfg, s, xs), ys)
    decreases xs
  {
    hide Next;
    if xs == [] {
      assert xs + ys == ys;
    } else {
      assert (xs + ys)[0] == xs[0] && (xs + ys)[1..] == xs[1..] + ys;
      RunConcat(cfg, Next(cfg, s, xs[0]), xs[1..], ys);
    }
  }

  // The connect fails, and its failure is published and cleaned up.
  function Reported(cfg: Settings, fraction: real): seq<Action> {
    [ConnectReturns(false, fraction)]
    + ((if cfg.policy.Ignore? then [] else [ErrorEmitted(true)]) + ([FailedEmitted(true)] + [TornDown(true)]))
  }

  function Report(cfg: Settings, attempt: nat, delay: real): seq<Note> {
    [PlanMark(delay)] + (if cfg.policy.Ignore? then [] else [NetworkError])
    + [Failed(attempt, Some(delay)), Scheduled(attempt + 1, delay)]
  }

  lemma FailureIsScheduled(cfg: Settings, s: Supervisor, fraction: real)
    requires s.phase.Connecting? && Wanted(cfg, s) && !cfg.policy.FailFast? && 0.0 <= fraction <= 1.0
    ensures
      var delay := Drawn(cfg, s, fraction);
      RunFrom(cfg, s, Reported(cfg, fraction))
      == s.(steps := s.steps + 1, phase := EmittingScheduled(delay, true),
            tape := s.tape + Report(cfg, s.attempts, delay))
  {
    hide RunFrom, B.DelayAfter, B.Jittered;
    var delay := Drawn(cfg, s, fraction);
    var rest := [FailedEmitted(true)] + [TornDown(true)];
    var planned := s.(steps := s.steps + 1, tape := s.tape + [PlanMark(delay)]);
    var failed := EmitFailed(if cfg.policy.Ignore? then planned else Write(planned, NetworkError), Some(delay));
    RunCons(cfg, s, ConnectReturns(false, fraction),
            (if cfg.policy.Ignore? then [] else [ErrorEmitted(true)]) + rest);
    if cfg.policy.Ignore? {
      assert [] + rest == rest;
    } else {
      RunCons(cfg, Next(cfg, s, ConnectReturns(false, fraction)), ErrorEmitted(true), rest);
    }
    FailureEmits(cfg, failed, delay);
    assert s.tape + Report(cfg, s.attempts, delay) == failed.tape + [Scheduled(s.attempts + 1, delay)];
  }

  lemma FailureEmits(cfg: Settings, s: Supervisor, delay: real)
    requires s.phase == EmittingFailed(Some(delay)) && Wanted(cfg, s) && !cfg.policy.FailFast?
    ensures
      RunFrom(cfg, s, [FailedEmitted(true)] + [TornDown(true)])
      == s.(phase := EmittingScheduled(delay, true), tape := s.tape + [Scheduled(s.attempts + 1, delay)])
  {
    RunCons(cfg, s, FailedEmitted(true), [TornDown(true)]);
    RunCons(cfg, Next(cfg, s, FailedEmitted(true)), TornDown(true), []);
    assert [TornDown(true)] + [] == [TornDown(true)];
  }

  // The schedule is published, the delay passes, and the next attempt connects.
  const CONNECTS_AGAIN :=
    [ScheduledEmitted(true, 0.0)] + ([Wakes] + ([AttemptStarts] + [StartedEmitted(true, true, 0.0)]))

  lemma ScheduleIsKept(cfg: Settings, s: Supervisor)
    requires s.phase.EmittingScheduled? && Wanted(cfg, s)
    ensures
      RunFrom(cfg, s, CONNECTS_AGAIN)
      == s.(attempts := s.attempts + 1, phase := Phase.Connecting, tape := s.tape + [Started(s.attempts + 1)])
  {
    hide RunFrom;
    RunCons(cfg, s, ScheduledEmitted(true, 0.0), [Wakes] + ([AttemptStarts] + [StartedEmitted(true, true, 0.0)]));
    var s1 := s.(phase := Sleeping);
    RunCons(cfg, s1, Wakes, [AttemptStarts] + [StartedEmitted(true, true, 0.0)]);
    var s2 := s.(phase := Top);
    RunCons(cfg, s2, AttemptStarts, [StartedEmitted(true, true, 0.0)]);
    var s3 := DoAttempt(s2);
    assert [StartedEmitted(true, true, 0.0)] + [] == [StartedEmitted(true, true, 0.0)];
    RunCons(cfg, s3, StartedEmitted(true, true, 0.0), []);
    NothingRun(cfg, Next(cfg, s3, StartedEmitted(true, true, 0.0)));
  }

  lemma NothingRun(cfg: Settings, s: Supervisor)
    ensures RunFrom(cfg, s, []) == s
  {
  }

  const BEGINS := [SupervisionStarts] + ([AttemptStarts] + [StartedEmitted(true, true, 0.0)])

  // A supervision task that begins connects at once, with the next number.
  lemma SupervisionConnects(cfg: Settings, s: Supervisor)
    requires s.phase.Idle? && s.running
    ensures
      RunFrom(cfg, s, BEGINS)
      == s.(attempts := s.attempts + 1, phase := Phase.Connecting, tape := s.tape + [Started(s.attempts + 1)])
  {
    hide RunFrom;
    RunCons(cfg, s, SupervisionStarts, [AttemptStarts] + [StartedEmitted(true, true, 0.0)]);
    var s1 := s.(phase := Top);
    RunCons(cfg, s1, AttemptStarts, [StartedEmitted(true, true, 0.0)]);
    var s2 := DoAttempt(s1);
    assert [StartedEmitted(true, true, 0.0)] + [] == [StartedEmitted(true, true, 0.0)];
    RunCons(cfg, s2, StartedEmitted(true, true, 0.0), []);
    NothingRun(cfg, Next(cfg, s2, StartedEmitted(true, true, 0.0)));
  }

  // What a client publishes whose connects fail as often as there are fractions.
  function Failures(cfg: Settings, attempts: nat, steps: nat, fractions: seq<real>): seq<Note>
    decreases |fractions|
  {
    if fractions == [] then []
    else
      var delay := B.Jittered(cfg.reconnect.jitter, B.DelayAfter(cfg.reconnect, steps), fractions[0]);
      Report(cfg, attempts, delay) + [Started(attempts + 1)]
      + Failures(cfg, attempts + 1, steps + 1, fractions[1..])
  }

  function Failing(cfg: Settings, fractions: seq<real>): seq<Action>
    decreases |fractions|
  {
    if fractions == [] then []
    else Reported(cfg, fractions[0]) + CONNECTS_AGAIN + Failing(cfg, fractions[1..])
  }

  // Under RETRY and IGNORE a client that stays wanted never gives up: however often the
  // connect fails in a row, it is connecting again, and each failure was announced with
  // its number and followed by a schedule and an attempt with the next one, after the
  // delay of one backoff step more.
  lemma {:induction false} EveryFailureIsRetried(cfg: Settings, s: Supervisor, fractions: seq<real>)
    requires s.phase.Connecting? && Wanted(cfg, s) && !cfg.policy.FailFast?
    requires forall i :: 0 <= i < |fractions| ==> 0.0 <= fractions[i] <= 1.0
    ensures
      RunFrom(cfg, s, Failing(cfg, fractions))
      == s.(attempts := s.attempts + |fractions|, steps := s.steps + |fractions|,
            tape := s.tape + Failures(cfg, s.attempts, s.steps, fractions))
    decreases |fractions|
  {
    hide RunFrom, Reported, Report, B.DelayAfter, B.Jittered;
    if fractions == [] {
      NothingRun(cfg, s);
    } else {
      var f := fractions[0];
      var delay := Drawn(cfg, s, f);
      FailureIsScheduled(cfg, s, f);
      var scheduled := RunFrom(cfg, s, Reported(cfg, f));
      ScheduleIsKept(cfg, scheduled);
      RunConcat(cfg, s, Reported(cfg, f), CONNECTS_AGAIN);
      RunConcat(cfg, s, Reported(cfg, f) + CONNECTS_AGAIN, Failing(cfg, fractions[1..]));
      var again := RunFrom(cfg, s, Reported(cfg, f) + CONNECTS_AGAIN);
      EveryFailureIsRetried(cfg, again, fractions[1..]);
      assert again.tape == s.tape + (Report(cfg, s.attempts, delay) + [Started(s.attempts + 1)]);
    }
  }

  // So does a client whose connection ends.
  lemma DisconnectIsRetried(cfg: Settings, s: Supervisor, fraction: real)
    requires s.phase.Waiting? && Wanted(cfg, s) && 0.0 <= fraction <= 1.0
    ensures
      var delay := Drawn(cfg, s, fraction);
      RunFrom(cfg, s, [ConnectionEnds(fraction)] + CONNECTS_AGAIN)
      == s.(attempts := s.attempts + 1, steps := s.steps + 1, phase := Phase.Connecting,
            tape := s.tape + [PlanMark(delay), Scheduled(s.attempts + 1, delay), Started(s.attempts + 1)])
  {
    hide RunFrom, B.DelayAfter, B.Jittered;
    RunCons(cfg, s, ConnectionEnds(fraction), CONNECTS_AGAIN);
    var d := AfterDisconnect(cfg, s, fraction);
    assert Next(cfg, s, ConnectionEnds(fraction)) == d;
    ScheduleIsKept(cfg, d);
  }

  // ---- and goes on -----------------------------------------------------------------------------

  // Nothing stops it: no flag falls, no task is cancelled, and nothing that belongs to a
  // failure fails in turn.  Connects and the emissions of a cycle may fail.
  predicate Undisturbed(a: Action) {
    match a
    case RunningBecomes(value) => value
    case StartedEmitted(ok, lifecycleRunning, _) => !ok || lifecycleRunning
    case ErrorEmitted(ok) => ok
    case FailedEmitted(ok) => ok
    case TornDown(ok) => ok
    case ScheduledEmitted(ok, _) => ok
    case Cancelled => false
    case _ => true
  }

  // Under way, and every failure so far was announced with a retry.
  predicate Keen(s: Supervisor) {
    && s.running && !s.phase.Idle?
    && (s.phase.EmittingError? || s.phase.EmittingFailed? || s.phase.TearingDown? ==> s.phase.delay.Some?)
  }

  lemma StepStaysKeen(cfg: Settings, s: Supervisor, a: Action)
    requires Keen(s) && Enabled(s, a) && Undisturbed(a) && cfg.reconnect.enabled && !cfg.policy.FailFast?
    ensures Keen(Step(cfg, s, a))
  {
    hide NextDelay;
  }

  // Over all runs: while the client runs, reconnect is enabled and the policy is not
  // FAIL_FAST, no outcome of connects and no end of a connection ends supervision.
  lemma {:induction false} SupervisionGoesOn(cfg: Settings, s: Supervisor, acts: seq<Action>)
    requires Keen(s) && cfg.reconnect.enabled && !cfg.policy.FailFast? && forall a :: a in acts ==> Undisturbed(a)
    ensures Keen(RunFrom(cfg, s, acts))
    decreases acts
  {
    hide Keen, Step, Enabled, Undisturbed;
    if acts != [] {
      if Enabled(s, acts[0]) {
        StepStaysKeen(cfg, s, acts[0]);
      }
      SupervisionGoesOn(cfg, Next(cfg, s, acts[0]), acts[1..]);
    }
  }
}

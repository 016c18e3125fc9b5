// The connect/reconnect supervision of the TCP client: what it publishes over any
// sequence of outcomes, and the delays it plans.
//
// One action is the code between two awaits.  `tape` records what is published,
// with three marks that are not events: a successful connect, a reconnect plan and
// the end of a supervision task.

module Supervisor {
  import opened Common
  import B = Backoff

  datatype Policy = Retry | FailFast | Ignore

  datatype Settings = Settings(reconnect: B.ReconnectSettings, policy: Policy)

  datatype Note =
    | Started(attempt: nat)
    | NetworkError
    | Failed(attempt: nat, next: Option<real>)
    | Scheduled(attempt: nat, delay: real)
    | ConnectedMark
    | PlanMark(delay: real)
    | EndMark

  datatype Phase =
    | Idle
    | Top
    | EmittingStarted
    | Connecting
    | Waiting
    | EmittingError(delay: Option<real>)
    | EmittingFailed(delay: Option<real>)
    | TearingDown(delay: Option<real>)
    | EmittingScheduled(planned: real, afterFailure: bool)
    | Sleeping

  // `attempts` and `steps` (of the backoff) belong to the client and outlive a
  // supervision task; `running` is the client's flag.
  datatype Supervisor = Supervisor(running: bool, attempts: nat, steps: nat, phase: Phase, tape: seq<Note>)

  const INITIAL := Supervisor(false, 0, 0, Idle, [])

  // `fraction` is the jitter drawn if the action plans a reconnect.
  datatype Action =
    | RunningBecomes(value: bool)
    | SupervisionStarts
    | AttemptStarts
    | StartedEmitted(ok: bool, lifecycleRunning: bool, fraction: real)
    | ConnectReturns(ok: bool, fraction: real)
    | ConnectionEnds(fraction: real)
    | ErrorEmitted(ok: bool)
    | FailedEmitted(ok: bool)
    | TornDown(ok: bool)
    | ScheduledEmitted(ok: bool, fraction: real)
    | Wakes
    | Cancelled

  function Write(s: Supervisor, n: Note): Supervisor { s.(tape := s.tape + [n]) }

  function End(s: Supervisor): Supervisor { Write(s, EndMark).(phase := Idle) }

  // ---- planning -----------------------------------------------------------------

  predicate Retries(cfg: Settings, s: Supervisor) { s.running && cfg.reconnect.enabled }

  function NextDelay(cfg: Settings, s: Supervisor, fraction: real): real {
    B.Jittered(cfg.reconnect.jitter, B.DelayAfter(cfg.reconnect, s.steps), fraction)
  }

  // _plan_reconnect that schedules: the backoff moves on.
  function Plan(cfg: Settings, s: Supervisor, fraction: real): Supervisor {
    Write(s, PlanMark(NextDelay(cfg, s, fraction))).(steps := s.steps + 1)
  }

  function EmitFailed(s: Supervisor, delay: Option<real>): Supervisor {
    Write(s, Failed(s.attempts, delay)).(phase := EmittingFailed(delay))
  }

  function EmitScheduled(s: Supervisor, delay: real, afterFailure: bool): Supervisor {
    Write(s, Scheduled(s.attempts + 1, delay)).(phase := EmittingScheduled(delay, afterFailure))
  }

  // _handle_connect_cycle_failure up to its first await: the plan comes first.
  function Fail(cfg: Settings, s: Supervisor, fraction: real): Supervisor {
    var retries := Retries(cfg, s);
    var delay := if retries then Some(NextDelay(cfg, s, fraction)) else None;
    var s1 := if retries then Plan(cfg, s, fraction) else s;
    if cfg.policy.Ignore? then EmitFailed(s1, delay)
    else Write(s1, NetworkError).(phase := EmittingError(delay))
  }

  // _schedule_reconnect_after_disconnect
  function AfterDisconnect(cfg: Settings, s: Supervisor, fraction: real): Supervisor {
    if Retries(cfg, s) then EmitScheduled(Plan(cfg, s, fraction), NextDelay(cfg, s, fraction), false) else End(s)
  }

  // ---- the segments of run() --------------------------------------------------------

  function DoAttempt(s: Supervisor): Supervisor {
    if !s.running then End(s)
    else Write(s, Started(s.attempts + 1)).(attempts := s.attempts + 1, phase := EmittingStarted)
  }

  function DoStartedEmitted(cfg: Settings, s: Supervisor, ok: bool, lifecycleRunning: bool, fraction: real): Supervisor
  {
    if !ok then Fail(cfg, s, fraction)
    else if !s.running || !lifecycleRunning then End(s)
    else s.(phase := Phase.Connecting)
  }

  function DoConnectReturns(cfg: Settings, s: Supervisor, ok: bool, fraction: real): Supervisor {
    if !ok then Fail(cfg, s, fraction)
    else if !s.running then End(s)
    else Write(s, ConnectedMark).(steps := 0, phase := Waiting)
  }

  function DoTornDown(cfg: Settings, s: Supervisor, ok: bool): Supervisor
    requires s.phase.TearingDown?
  {
    if !ok || cfg.policy.FailFast? || !Retries(cfg, s) || s.phase.delay.None? then End(s)
    else EmitScheduled(s, s.phase.delay.value, true)
  }

  // A failing emission after a disconnect is handled like any failure of the cycle;
  // after a failure it ends the supervision.
  function DoScheduledEmitted(cfg: Settings, s: Supervisor, ok: bool, fraction: real): Supervisor
    requires s.phase.EmittingScheduled?
  {
    if !ok then if s.phase.afterFailure then End(s) else Fail(cfg, s, fraction)
    else if !Retries(cfg, s) then End(s)
    else s.(phase := Sleeping)
  }

  predicate Enabled(s: Supervisor, a: Action) {
    match a
    case RunningBecomes(_) => true
    case SupervisionStarts => s.phase.Idle?
    case AttemptStarts => s.phase.Top?
    case StartedEmitted(_, _, f) => s.phase.EmittingStarted? && 0.0 <= f <= 1.0
    case ConnectReturns(_, f) => s.phase.Connecting? && 0.0 <= f <= 1.0
    case ConnectionEnds(f) => s.phase.Waiting? && 0.0 <= f <= 1.0
    case ErrorEmitted(_) => s.phase.EmittingError?
    case FailedEmitted(_) => s.phase.EmittingFailed?
    case TornDown(_) => s.phase.TearingDown?
    case ScheduledEmitted(_, f) => s.phase.EmittingScheduled? && 0.0 <= f <= 1.0
    case Wakes => s.phase.Sleeping?
    case Cancelled => !s.phase.Idle?
  }

  function Step(cfg: Settings, s: Supervisor, a: Action): Supervisor
    requires Enabled(s, a)
  {
    match a
    case RunningBecomes(value) => s.(running := value)
    case SupervisionStarts => s.(phase := Top)
    case AttemptStarts => DoAttempt(s)
    case StartedEmitted(ok, lifecycleRunning, f) => DoStartedEmitted(cfg, s, ok, lifecycleRunning, f)
    case ConnectReturns(ok, f) => DoConnectReturns(cfg, s, ok, f)
    case ConnectionEnds(f) => AfterDisconnect(cfg, s, f)
    case ErrorEmitted(ok) => if ok then EmitFailed(s, s.phase.delay) else End(s)
    case FailedEmitted(ok) => if ok then s.(phase := TearingDown(s.phase.delay)) else End(s)
    case TornDown(ok) => DoTornDown(cfg, s, ok)
    case ScheduledEmitted(ok, f) => DoScheduledEmitted(cfg, s, ok, f)
    case Wakes => if Retries(cfg, s) then s.(phase := Top) else End(s)
    case Cancelled => End(s)
  }

  function Next(cfg: Settings, s: Supervisor, a: Action): Supervisor { if Enabled(s, a) then Step(cfg, s, a) else s }

  function RunFrom(cfg: Settings, s: Supervisor, acts: seq<Action>): Supervisor
    decreases acts
  {
    if acts == [] then s else RunFrom(cfg, Next(cfg, s, acts[0]), acts[1..])
  }

  // ---- the grammar of the tape ----------------------------------------------------------

  datatype Last = AtRest | AtStart | AtConnect | AtPlan | AtError | AtFailure | AtSchedule

  // What a reader of the tape knows: the last attempt number, how many plans there
  // were since the last connect, the delay that was planned and not scheduled yet,
  // whether an attempt has failed since it started, and the last note.
  datatype Reader = Reader(attempt: nat, plans: nat, delay: Option<real>, failed: bool, last: Last) | Lost

  // A delay that `plans` earlier plans since the last connect allow.
  predicate Plausible(cfg: Settings, plans: nat, delay: real) {
    var d := B.DelayAfter(cfg.reconnect, plans);
    && 0.0 <= delay <= d <= cfg.reconnect.maxDelay
    && (cfg.reconnect.jitter.NoJitter? ==> delay == d)
    && (cfg.reconnect.jitter.Equal? ==> d / 2.0 <= delay)
  }

  predicate MayFail(l: Last) { l.AtStart? || l.AtPlan? || l.AtSchedule? }

  function Read(cfg: Settings, r: Reader, n: Note): Reader {
    if r.Lost? then Lost
    else
      match n
      case Started(k) =>
        if k == r.attempt + 1 && (r.last.AtRest? || r.last.AtSchedule?) then Reader(k, r.plans, None, false, AtStart)
        else Lost
      case ConnectedMark =>
        if r.last.AtStart? then r.(plans := 0, last := AtConnect) else Lost
      case PlanMark(d) =>
        if Plausible(cfg, r.plans, d) && !r.failed && (r.last.AtStart? || r.last.AtConnect? || r.last.AtSchedule?)
        then r.(plans := r.plans + 1, delay := Some(d), last := AtPlan)
        else Lost
      case NetworkError =>
        if !cfg.policy.Ignore? && !r.failed && MayFail(r.last) then r.(last := AtError) else Lost
      case Failed(k, d) =>
        if k == r.attempt && !r.failed && d == r.delay
           && (if cfg.policy.Ignore? then MayFail(r.last) else r.last.AtError?)
        then r.(failed := true, delay := d, last := AtFailure)
        else Lost
      case Scheduled(k, d) =>
        if k == r.attempt + 1 && r.delay == Some(d) && cfg.reconnect.enabled
           && (if r.failed then r.last.AtFailure? && !cfg.policy.FailFast? else r.last.AtPlan?)
        then r.(delay := if r.failed then r.delay else None, last := AtSchedule)
        else Lost
      case EndMark => r.(delay := None, failed := false, last := AtRest)
  }

  function ReadAll(cfg: Settings, tape: seq<Note>): Reader {
    if tape == [] then Reader(0, 0, None, false, AtRest)
    else Read(cfg, ReadAll(cfg, tape[..|tape| - 1]), tape[|tape| - 1])
  }

  lemma ReadSnoc(cfg: Settings, tape: seq<Note>, n: Note)
    ensures ReadAll(cfg, tape + [n]) == Read(cfg, ReadAll(cfg, tape), n)
  {
    assert (tape + [n])[..|tape|] == tape;
  }

  // ---- the invariant: where the reader stands, from the state -------------------------------

  predicate ReaderOk(cfg: Settings, s: Supervisor, r: Reader) {
    && r.Reader? && r.attempt == s.attempts && r.plans == s.steps
    && match s.phase
       case Idle => r.last.AtRest?
       case Top => (r.last.AtRest? || r.last.AtSchedule?)
       case EmittingStarted => r.last.AtStart? && !r.failed && r.delay.None?
       case Connecting => r.last.AtStart? && !r.failed && r.delay.None?
       case Waiting => r.last.AtConnect? && !r.failed
       case EmittingError(d) => r.last.AtError? && !r.failed && r.delay == d
       case EmittingFailed(d) => r.last.AtFailure? && r.failed && r.delay == d
       case TearingDown(d) => r.last.AtFailure? && r.failed && r.delay == d
       case EmittingScheduled(_, afterFailure) =>
         r.last.AtSchedule? && r.failed == afterFailure && (!r.failed ==> r.delay.None?)
       case Sleeping => r.last.AtSchedule?
  }

  ghost predicate Inv(cfg: Settings, s: Supervisor) { ReaderOk(cfg, s, ReadAll(cfg, s.tape)) }

  lemma PlanIsPlausible(cfg: Settings, s: Supervisor, fraction: real)
    requires cfg.reconnect.Valid() && 0.0 <= fraction <= 1.0
    ensures Plausible(cfg, s.steps, NextDelay(cfg, s, fraction))
  {
    hide B.DelayAfter, B.Jittered;
    B.JitterRange(cfg.reconnect, s.steps, fraction);
  }

  lemma EndKeepsInv(cfg: Settings, s: Supervisor)
    requires Inv(cfg, s)
    ensures Inv(cfg, End(s))
  {
    ReadSnoc(cfg, s.tape, EndMark);
    hide ReadAll, Plausible;
  }

  lemma PlanRead(cfg: Settings, s: Supervisor, fraction: real)
    requires cfg.reconnect.Valid() && 0.0 <= fraction <= 1.0
    requires var r := ReadAll(cfg, s.tape);
             && r.Reader? && r.plans == s.steps && !r.failed
             && (r.last.AtStart? || r.last.AtConnect? || r.last.AtSchedule?)
    ensures
      var d := NextDelay(cfg, s, fraction);
      ReadAll(cfg, Plan(cfg, s, fraction).tape)
      == ReadAll(cfg, s.tape).(plans := s.steps + 1, delay := Some(d), last := AtPlan)
  {
    PlanIsPlausible(cfg, s, fraction);
    ReadSnoc(cfg, s.tape, PlanMark(NextDelay(cfg, s, fraction)));
    hide ReadAll, Plausible, NextDelay;
  }

  // The attempt under way may be reported as failed, with the delay planned if any.
  predicate MayReport(s: Supervisor, r: Reader, delay: Option<real>) {
    && r.Reader? && r.attempt == s.attempts && r.plans == s.steps
    && !r.failed && MayFail(r.last) && delay == r.delay
  }

  lemma ReportKeepsInv(cfg: Settings, s: Supervisor, delay: Option<real>)
    requires MayReport(s, ReadAll(cfg, s.tape), delay)
    ensures cfg.policy.Ignore? ==> Inv(cfg, EmitFailed(s, delay))
    ensures !cfg.policy.Ignore? ==> Inv(cfg, Write(s, NetworkError).(phase := EmittingError(delay)))
  {
    ReadSnoc(cfg, s.tape, NetworkError);
    ReadSnoc(cfg, s.tape, Failed(s.attempts, delay));
    hide ReadAll, Plausible;
  }

  lemma FailKeepsInv(cfg: Settings, s: Supervisor, fraction: real)
    requires Inv(cfg, s) && cfg.reconnect.Valid() && 0.0 <= fraction <= 1.0
    requires s.phase.EmittingStarted? || s.phase.Connecting? || (s.phase.EmittingScheduled? && !s.phase.afterFailure)
    ensures Inv(cfg, Fail(cfg, s, fraction))
  {
    hide ReadAll, Plausible, NextDelay;
    if Retries(cfg, s) {
      PlanRead(cfg, s, fraction);
      ReportKeepsInv(cfg, Plan(cfg, s, fraction), Some(NextDelay(cfg, s, fraction)));
    } else {
      ReportKeepsInv(cfg, s, None);
    }
  }

  lemma DisconnectKeepsInv(cfg: Settings, s: Supervisor, fraction: real)
    requires Inv(cfg, s) && cfg.reconnect.Valid() && 0.0 <= fraction <= 1.0 && s.phase.Waiting?
    ensures Inv(cfg, AfterDisconnect(cfg, s, fraction))
  {
    EndKeepsInv(cfg, s);
    PlanRead(cfg, s, fraction);
    hide ReadAll, Plausible, NextDelay;
    ReadSnoc(cfg, Plan(cfg, s, fraction).tape, Scheduled(s.attempts + 1, NextDelay(cfg, s, fraction)));
  }

  lemma QuietKeepsInv(cfg: Settings, s: Supervisor, a: Action)
    requires Inv(cfg, s) && Enabled(s, a)
    requires a.FailedEmitted? || a.Wakes? || a.Cancelled? || a.RunningBecomes? || a.SupervisionStarts?
    ensures Inv(cfg, Step(cfg, s, a))
  {
    EndKeepsInv(cfg, s);
    hide ReadAll, Plausible, End;
  }

  lemma AttemptKeepsInv(cfg: Settings, s: Supervisor)
    requires Inv(cfg, s) && s.phase.Top?
    ensures Inv(cfg, DoAttempt(s))
  {
    EndKeepsInv(cfg, s);
    ReadSnoc(cfg, s.tape, Started(s.attempts + 1));
    hide ReadAll, Plausible, End;
  }

  lemma ErrorKeepsInv(cfg: Settings, s: Supervisor, ok: bool)
    requires Inv(cfg, s) && s.phase.EmittingError?
    ensures Inv(cfg, if ok then EmitFailed(s, s.phase.delay) else End(s))
  {
    EndKeepsInv(cfg, s);
    ReadSnoc(cfg, s.tape, Failed(s.attempts, s.phase.delay));
    hide ReadAll, Plausible, End;
  }

  lemma TornDownKeepsInv(cfg: Settings, s: Supervisor, ok: bool)
    requires Inv(cfg, s) && s.phase.TearingDown?
    ensures Inv(cfg, DoTornDown(cfg, s, ok))
  {
    EndKeepsInv(cfg, s);
    if s.phase.delay.Some? {
      ReadSnoc(cfg, s.tape, Scheduled(s.attempts + 1, s.phase.delay.value));
    }
    hide ReadAll, Plausible, End;
  }

  lemma StartedKeepsInv(cfg: Settings, s: Supervisor, ok: bool, lifecycleRunning: bool, fraction: real)
    requires Inv(cfg, s) && s.phase.EmittingStarted? && cfg.reconnect.Valid() && 0.0 <= fraction <= 1.0
    ensures Inv(cfg, DoStartedEmitted(cfg, s, ok, lifecycleRunning, fraction))
  {
    EndKeepsInv(cfg, s);
    hide ReadAll, Plausible, End, Fail;
    if !ok {
      FailKeepsInv(cfg, s, fraction);
    }
  }

  lemma ConnectKeepsInv(cfg: Settings, s: Supervisor, ok: bool, fraction: real)
    requires Inv(cfg, s) && s.phase.Connecting? && cfg.reconnect.Valid() && 0.0 <= fraction <= 1.0
    ensures Inv(cfg, DoConnectReturns(cfg, s, ok, fraction))
  {
    EndKeepsInv(cfg, s);
    ReadSnoc(cfg, s.tape, ConnectedMark);
    hide ReadAll, Plausible, End, Fail;
    if !ok {
      FailKeepsInv(cfg, s, fraction);
    }
  }

  lemma ScheduledKeepsInv(cfg: Settings, s: Supervisor, ok: bool, fraction: real)
    requires Inv(cfg, s) && s.phase.EmittingScheduled? && cfg.reconnect.Valid() && 0.0 <= fraction <= 1.0
    ensures Inv(cfg, DoScheduledEmitted(cfg, s, ok, fraction))
  {
    EndKeepsInv(cfg, s);
    hide ReadAll, Plausible, End, Fail;
    if !ok && !s.phase.afterFailure {
      FailKeepsInv(cfg, s, fraction);
    }
  }

  lemma StepKeepsInv(cfg: Settings, s: Supervisor, a: Action)
    requires Inv(cfg, s) && Enabled(s, a) && cfg.reconnect.Valid()
    ensures Inv(cfg, Step(cfg, s, a))
  {
    hide Inv, DoAttempt, EmitFailed, End, DoTornDown, AfterDisconnect, DoStartedEmitted, DoConnectReturns,
      DoScheduledEmitted;
    match a
    case AttemptStarts => AttemptKeepsInv(cfg, s);
    case StartedEmitted(ok, running, f) => StartedKeepsInv(cfg, s, ok, running, f);
    case ConnectReturns(ok, f) => ConnectKeepsInv(cfg, s, ok, f);
    case ConnectionEnds(f) => DisconnectKeepsInv(cfg, s, f);
    case ErrorEmitted(ok) => ErrorKeepsInv(cfg, s, ok);
    case TornDown(ok) => TornDownKeepsInv(cfg, s, ok);
    case ScheduledEmitted(ok, f) => ScheduledKeepsInv(cfg, s, ok, f);
    case _ => QuietKeepsInv(cfg, s, a);
  }

  lemma {:induction false} RunKeepsInv(cfg: Settings, s: Supervisor, acts: seq<Action>)
    requires Inv(cfg, s) && cfg.reconnect.Valid()
    ensures Inv(cfg, RunFrom(cfg, s, acts))
    decreases acts
  {
    hide Inv, Step, Enabled;
    if acts != [] {
      if Enabled(s, acts[0]) {
        StepKeepsInv(cfg, s, acts[0]);
      }
      RunKeepsInv(cfg, Next(cfg, s, acts[0]), acts[1..]);
    }
  }

  lemma TapeIsRead(cfg: Settings, acts: seq<Action>)
    requires cfg.reconnect.Valid()
    ensures
      var s := RunFrom(cfg, INITIAL, acts);
      ReaderOk(cfg, s, ReadAll(cfg, s.tape))
  {
    RunKeepsInv(cfg, INITIAL, acts);
  }

  // ---- what the grammar means for a note in the middle of the tape ---------------------------

  lemma {:induction false} PrefixIsRead(cfg: Settings, tape: seq<Note>, i: nat)
    requires i <= |tape| && ReadAll(cfg, tape).Reader?
    ensures ReadAll(cfg, tape[..i]).Reader?
    ensures i < |tape| ==> Read(cfg, ReadAll(cfg, tape[..i]), tape[i]).Reader?
    decreases |tape|
  {
    if i == |tape| {
      assert tape[..i] == tape;
    } else {
      var init := tape[..|tape| - 1];
      hide Read;
      ReadLost(cfg, tape[|tape| - 1]);
      if i == |tape| - 1 {
        assert tape[..i] == init;
      } else {
        PrefixIsRead(cfg, init, i);
        assert init[..i] == tape[..i];
      }
    }
  }

  lemma ReadLost(cfg: Settings, n: Note)
    ensures Read(cfg, Lost, n).Lost?
  {
  }

  // How many attempts were started, and how many reconnects planned since the last
  // successful connect.
  function Starts(tape: seq<Note>): nat {
    if tape == [] then 0 else Starts(tape[..|tape| - 1]) + if tape[|tape| - 1].Started? then 1 else 0
  }

  function PlansSinceConnect(tape: seq<Note>): nat {
    if tape == [] || tape[|tape| - 1].ConnectedMark? then 0
    else PlansSinceConnect(tape[..|tape| - 1]) + if tape[|tape| - 1].PlanMark? then 1 else 0
  }

  // The delay that the failure of the attempt under way announced, if it failed.
  function Announced(tape: seq<Note>): Option<Option<real>> {
    if tape == [] || tape[|tape| - 1].Started? || tape[|tape| - 1].EndMark? then None
    else if tape[|tape| - 1].Failed? then Some(tape[|tape| - 1].next)
    else Announced(tape[..|tape| - 1])
  }

  // The delay that was planned for the attempt under way and not scheduled yet.
  function Planned(tape: seq<Note>): Option<real> {
    if tape == [] || tape[|tape| - 1].Started? || tape[|tape| - 1].EndMark? || tape[|tape| - 1].Scheduled? then None
    else if tape[|tape| - 1].PlanMark? then Some(tape[|tape| - 1].delay)
    else Planned(tape[..|tape| - 1])
  }

  lemma {:induction false} ReaderCounts(cfg: Settings, tape: seq<Note>)
    requires ReadAll(cfg, tape).Reader?
    ensures
      var r := ReadAll(cfg, tape);
      && r.attempt == Starts(tape) && r.plans == PlansSinceConnect(tape)
      && (r.failed <==> Announced(tape).Some?) && (r.failed ==> r.delay == Announced(tape).value)
      && (!r.failed ==> r.delay == Planned(tape))
    decreases |tape|
  {
    if tape != [] {
      ReadLost(cfg, tape[|tape| - 1]);
      ReaderCounts(cfg, tape[..|tape| - 1]);
      hide Plausible;
    }
  }

  // What each note of a run says, in terms of the notes before it.
  ghost predicate NoteMeans(cfg: Settings, before: seq<Note>, n: Note) {
    match n
    case Started(k) => k == Starts(before) + 1
    case Failed(k, d) => k == Starts(before) && Announced(before).None? && d == Planned(before)
    case Scheduled(k, d) =>
      && k == Starts(before) + 1 && cfg.reconnect.enabled
      && if Announced(before).Some? then Announced(before).value == Some(d) && !cfg.policy.FailFast?
         else Planned(before) == Some(d)
    case PlanMark(d) => Plausible(cfg, PlansSinceConnect(before), d)
    case _ => true
  }

  // Over any outcomes, stops and restarts: attempts are numbered consecutively; a
  // failure carries the number of the attempt under way, once, and the delay that was
  // planned for it, if any; a schedule carries the next number and the delay that the
  // failure announced or, after a clean disconnect, the planned one; nothing is
  // scheduled after a failure under FAIL_FAST; and each planned delay is the one that
  // the number of plans since the last connect allows.
  lemma EveryNoteMeans(cfg: Settings, acts: seq<Action>, i: nat)
    requires cfg.reconnect.Valid() && i < |RunFrom(cfg, INITIAL, acts).tape|
    ensures
      var tape := RunFrom(cfg, INITIAL, acts).tape;
      NoteMeans(cfg, tape[..i], tape[i])
  {
    var tape := RunFrom(cfg, INITIAL, acts).tape;
    TapeIsRead(cfg, acts);
    hide RunFrom, ReaderOk, ReadAll;
    PrefixIsRead(cfg, tape, i);
    ReaderCounts(cfg, tape[..i]);
    hide Starts, Announced, Planned, PlansSinceConnect, Plausible;
  }

  // Without jitter the k-th plan since the last connect has the closed form.
  lemma PlannedDelayClosedForm(cfg: Settings, acts: seq<Action>, i: nat)
    requires cfg.reconnect.Valid() && cfg.reconnect.jitter.NoJitter?
    requires i < |RunFrom(cfg, INITIAL, acts).tape| && RunFrom(cfg, INITIAL, acts).tape[i].PlanMark?
    ensures
      var tape := RunFrom(cfg, INITIAL, acts).tape;
      var k := PlansSinceConnect(tape[..i]);
      tape[i].delay
      == B.Min(B.Times(cfg.reconnect.initialDelay, B.Power(cfg.reconnect.factor, k)), cfg.reconnect.maxDelay)
  {
    var tape := RunFrom(cfg, INITIAL, acts).tape;
    EveryNoteMeans(cfg, acts, i);
    B.ClosedForm(cfg.reconnect, PlansSinceConnect(tape[..i]));
    hide RunFrom, PlansSinceConnect, B.DelayAfter, B.Min, B.Power, B.Times;
  }

  // FAIL_FAST gives up after the failure event, yet has taken a step of the backoff:
  // the next start() plans from one step further.
  lemma FailFastConsumesAStep(cfg: Settings, s: Supervisor, fraction: real)
    requires cfg.policy.FailFast? && Retries(cfg, s) && s.phase.Connecting? && 0.0 <= fraction <= 1.0
    ensures
      var d := RunFrom(cfg, s, [ConnectReturns(false, fraction), ErrorEmitted(true), FailedEmitted(true),
                                TornDown(true)]);
      d.phase.Idle? && d.steps == s.steps + 1 && d.attempts == s.attempts
  {
    var a, b, c, e := ConnectReturns(false, fraction), ErrorEmitted(true), FailedEmitted(true), TornDown(true);
    hide NextDelay;
    assert [a, b, c, e][1..] == [b, c, e] && [b, c, e][1..] == [c, e] && [c, e][1..] == [e] && [e][1..] == [];
    var s1 := Next(cfg, s, a);
    var s2 := Next(cfg, s1, b);
    assert s1.phase.EmittingError? && s2.phase.EmittingFailed?;
    assert RunFrom(cfg, s, [a, b, c, e]) == RunFrom(cfg, s1, [b, c, e]);
    assert RunFrom(cfg, s1, [b, c, e]) == RunFrom(cfg, s2, [c, e]);
    assert RunFrom(cfg, s2, [c, e]) == RunFrom(cfg, Next(cfg, s2, c), [e]);
    assert RunFrom(cfg, Next(cfg, s2, c), [e]) == Next(cfg, Next(cfg, s2, c), e);
  }

  // ---- the object --------------------------------------------------------------------------

  // The supervision code between two awaits; the backoff is the client's own object.
  class TcpClientConnectionSupervisor {
    const settings: Settings
    const backoff: B.ReconnectBackoff
    var running: bool
    var attemptCounter: nat
    var phase: Phase
    ghost var tape: seq<Note>

    ghost function View(): Supervisor
      reads this, backoff
    {
      Supervisor(running, attemptCounter, backoff.steps, phase, tape)
    }

    // The backoff is the one of these settings.
    ghost predicate Linked()
      reads this, backoff
    {
      backoff.settings == settings.reconnect && backoff.Valid() && settings.reconnect.Valid()
    }

    ghost predicate Valid()
      reads this, backoff
    {
      Linked() && Inv(settings, View())
    }

    constructor (cfg: Settings, clientBackoff: B.ReconnectBackoff)
      requires clientBackoff.settings == cfg.reconnect && clientBackoff.Valid() && clientBackoff.steps == 0
      requires cfg.reconnect.Valid()
      ensures Valid() && settings == cfg && backoff == clientBackoff && View() == INITIAL
    {
      settings, backoff := cfg, clientBackoff;
      running, attemptCounter, phase, tape := false, 0, Idle, [];
    }

    // _start_connect_attempt up to the emission, with the loop condition before it.
    method StartConnectAttempt()
      requires Valid() && phase.Top?
      modifies this`attemptCounter, this`tape, this`phase
      ensures Valid() && View() == Next(settings, old(View()), AttemptStarts)
    {
      hide Inv;
      AttemptKeepsInv(settings, View());
      if !running {
        tape, phase := tape + [EndMark], Idle;
      } else {
        attemptCounter := attemptCounter + 1;
        tape, phase := tape + [Started(attemptCounter)], EmittingStarted;
      }
      assert View() == Next(settings, old(View()), AttemptStarts);
    }

    // _connect_once came back without an error: the backoff starts over.
    method Connected()
      requires Valid() && phase.Connecting?
      modifies this`tape, this`phase, backoff
      ensures Valid() && View() == Next(settings, old(View()), ConnectReturns(true, 0.0))
    {
      hide Inv;
      StepKeepsInv(settings, View(), ConnectReturns(true, 0.0));
      if !running {
        tape, phase := tape + [EndMark], Idle;
      } else {
        backoff.Reset();
        tape, phase := tape + [ConnectedMark], Waiting;
      }
      assert View() == Next(settings, old(View()), ConnectReturns(true, 0.0));
    }

    // _plan_reconnect
    method PlanReconnect(fraction: real) returns (delay: Option<real>)
      requires Linked() && 0.0 <= fraction <= 1.0
      modifies this`tape, backoff
      ensures Linked()
      ensures delay == if Retries(settings, old(View())) then Some(NextDelay(settings, old(View()), fraction)) else None
      ensures View() == if delay.Some? then Plan(settings, old(View()), fraction) else old(View())
    {
      if !running || !settings.reconnect.enabled {
        return None;
      }
      var d := backoff.NextDelay(fraction);
      tape := tape + [PlanMark(d)];
      return Some(d);
    }

    // _handle_connect_cycle_failure up to its first emission, out of any of the places
    // where the cycle can fail.
    method HandleFailure(fraction: real)
      requires Valid() && 0.0 <= fraction <= 1.0
      requires phase.EmittingStarted? || phase.Connecting? || (phase.EmittingScheduled? && !phase.afterFailure)
      modifies this`tape, this`phase, backoff
      ensures Valid() && View() == Fail(settings, old(View()), fraction)
      ensures old(phase).Connecting? ==> View() == Next(settings, old(View()), ConnectReturns(false, fraction))
    {
      hide NextDelay, Inv;
      FailKeepsInv(settings, View(), fraction);
      var delay := PlanReconnect(fraction);
      if settings.policy.Ignore? {
        tape, phase := tape + [Failed(attemptCounter, delay)], EmittingFailed(delay);
      } else {
        tape, phase := tape + [NetworkError], EmittingError(delay);
      }
      assert View() == Fail(settings, old(View()), fraction);
    }

    // _schedule_reconnect_after_disconnect up to its emission.
    method ScheduleAfterDisconnect(fraction: real)
      requires Valid() && phase.Waiting? && 0.0 <= fraction <= 1.0
      modifies this`tape, this`phase, backoff
      ensures Valid() && View() == Next(settings, old(View()), ConnectionEnds(fraction))
    {
      hide NextDelay, Inv;
      DisconnectKeepsInv(settings, View(), fraction);
      var delay := PlanReconnect(fraction);
      if delay.None? {
        tape, phase := tape + [EndMark], Idle;
      } else {
        tape, phase := tape + [Scheduled(attemptCounter + 1, delay.value)], EmittingScheduled(delay.value, false);
      }
      assert View() == Next(settings, old(View()), ConnectionEnds(fraction));
    }

    // The rest of _handle_connect_cycle_failure after the teardown.
    method ContinueAfterFailure(ok: bool)
      requires Valid() && phase.TearingDown?
      modifies this`tape, this`phase
      ensures Valid() && View() == Next(settings, old(View()), TornDown(ok))
    {
      hide Inv;
      TornDownKeepsInv(settings, View(), ok);
      var stops := settings.policy.FailFast? || !running || !settings.reconnect.enabled;
      if !ok || stops || phase.delay.None? {
        tape, phase := tape + [EndMark], Idle;
      } else {
        var d := phase.delay.value;
        tape, phase := tape + [Scheduled(attemptCounter + 1, d)], EmittingScheduled(d, true);
      }
      assert View() == Next(settings, old(View()), TornDown(ok));
    }
  }
}

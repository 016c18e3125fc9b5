// What the teardown of a connection does to its read task and to its queued payloads, and
// that it can always go on.

module ConnectionEventsReader {
  import opened Common
  import Q = EventQueue
  import C = TcpConnectionSpec
  import CP = TcpConnectionProofs
  import CT = TcpConnectionTheorems
  import D = DispatcherSpec
  import opened ConnectionEvents
  import opened ConnectionEventsProofs

  // ---- who made the first close() -----------------------------------------------------------

  // The read task called close() on a connection that nobody had closed.
  ghost predicate ReaderClosedFirst(cfg: Config, s: System, acts: seq<Action>, was: bool)
    decreases acts
  {
    if acts == [] then was
    else
      ReaderClosedFirst(cfg, Next(cfg, s, acts[0]), acts[1..],
                        was || (acts[0].ReaderCloses? && Enabled(cfg, s, acts[0]) && !C.Begun(s.conn)))
  }

  lemma StepNotesReader(cfg: Config, s: System, a: Action)
    requires Enabled(cfg, s, a)
    ensures Step(cfg, s, a).byReader <==> s.byReader || (a.ReaderCloses? && !C.Begun(s.conn))
  {
    hide D.Step, D.Enabled, C.Step, C.Enabled, C.DoClose, D.DoTry, D.DoEmit, C.Begun;
  }

  lemma {:induction false} RunNotesReader(cfg: Config, s: System, acts: seq<Action>)
    ensures RunFrom(cfg, s, acts).byReader <==> ReaderClosedFirst(cfg, s, acts, s.byReader)
    decreases acts
  {
    hide Step, Enabled, C.Begun;
    if acts != [] {
      if Enabled(cfg, s, acts[0]) {
        StepNotesReader(cfg, s, acts[0]);
      }
      RunNotesReader(cfg, Next(cfg, s, acts[0]), acts[1..]);
    }
  }

  // ---- the first step of the teardown ----------------------------------------------------------

  predicate Busy(c: C.Conn) { c.handlers > 0 || c.starter == C.Opening(C.Handling) }

  // In every run: the teardown cancels the read task exactly if there is one, it did not make
  // the first close() itself, and no handler of the connection is active whose events the
  // lifecycle task would deliver inline.  The queued payloads go at once if a handler is
  // active, and stay for the sweep behind the decision otherwise.
  lemma TeardownTreatsReaderExactly(cfg: Config, before: seq<Action>)
    requires Enabled(cfg, Run(cfg, before), TeardownBegins)
    ensures
      var s := Run(cfg, before);
      var d := Next(cfg, s, TeardownBegins);
      && (d.stage.Cancelling?
          <==> !s.reader.NoReader? && !ReaderClosedFirst(cfg, INITIAL, before, false)
               && !(Busy(s.conn) && (cfg.settings.inline || s.conn.life.origin.usesInline || !s.dispatcher.worker)))
      && d.reader == s.reader && d.conn == s.conn
      && (if Busy(s.conn) then NoneQueued(d.dispatcher, cfg.id) else d.dispatcher == s.dispatcher)
  {
    var s := Run(cfg, before);
    RunNotesReader(cfg, INITIAL, before);
    DropIsEnabled(cfg.settings, s.dispatcher, cfg.id);
    DropSilences(cfg.settings, s.dispatcher, cfg.id);
    hide RunFrom, ReaderClosedFirst, D.Step, D.Enabled, NoneQueued;
  }

  // ---- the teardown goes on ----------------------------------------------------------------------

  // The first step, the read task's cancellation if it was cancelled and has not ended, and
  // the writer.
  function Remaining(cfg: Config, s: System): seq<Action> {
    if !s.conn.life.Teardown? then []
    else
      var begun := if s.stage.NotBegun? then Next(cfg, s, TeardownBegins) else s;
      (if s.stage.NotBegun? then [TeardownBegins] else [])
      + (if begun.stage.Cancelling? && !begun.reader.NoReader? && !begun.reader.Ended? then [ReaderCancelled] else [])
      + [Connection(C.TeardownSocket, false)]
  }

  lemma ReaderEnds(cfg: Config, s: System)
    requires s.conn.life.Teardown? && s.stage.Cancelling? && !s.reader.NoReader? && !s.reader.Ended?
    ensures
      var d := Next(cfg, s, ReaderCancelled);
      d.reader.Ended? && d.conn == s.conn && d.stage == s.stage
  {
    hide D.Next;
  }

  lemma WriterCloses(cfg: Config, s: System)
    requires s.conn.life.Teardown? && !s.stage.NotBegun?
    requires s.stage.Cancelling? ==> s.reader.NoReader? || s.reader.Ended?
    ensures Next(cfg, s, Connection(C.TeardownSocket, false)).conn == C.DoTeardownSocket(s.conn)
  {
    hide D.Step, D.DoEmit;
  }

  lemma RunTwo(cfg: Config, s: System, a: Action, b: Action)
    ensures RunFrom(cfg, s, [a]) == Next(cfg, s, a)
    ensures RunFrom(cfg, s, [a] + [b]) == Next(cfg, Next(cfg, s, a), b)
  {
    hide Next;
    assert [a][1..] == [] && ([a] + [b])[0] == a && ([a] + [b])[1..] == [b] && [b][1..] == [];
    assert RunFrom(cfg, Next(cfg, s, a), [b]) == RunFrom(cfg, Next(cfg, Next(cfg, s, a), b), []);
  }

  lemma RunThree(cfg: Config, s: System, a: Action, b: Action, c: Action)
    ensures RunFrom(cfg, s, [a] + [b] + [c]) == Next(cfg, Next(cfg, Next(cfg, s, a), b), c)
  {
    hide Next;
    assert ([a] + [b] + [c])[0] == a && ([a] + [b] + [c])[1..] == [b] + [c];
    RunTwo(cfg, Next(cfg, s, a), b, c);
  }

  // In every state of a teardown, whatever the read task is doing: it can be carried to the
  // end, with the socket closed.
  lemma TeardownGoesOn(cfg: Config, s: System)
    requires s.conn.life.Teardown?
    ensures RunFrom(cfg, s, Remaining(cfg, s)).conn == C.DoTeardownSocket(s.conn)
  {
    var writer := Connection(C.TeardownSocket, false);
    var begun := if s.stage.NotBegun? then Next(cfg, s, TeardownBegins) else s;
    if s.stage.NotBegun? {
      Begins(cfg, s);
    }
    hide Next, RunFrom, C.DoTeardownSocket;
    if begun.stage.Cancelling? && !begun.reader.NoReader? && !begun.reader.Ended? {
      ReaderEnds(cfg, begun);
      WriterCloses(cfg, Next(cfg, begun, ReaderCancelled));
      assert [] + [ReaderCancelled] + [writer] == [ReaderCancelled] + [writer];
      RunTwo(cfg, begun, ReaderCancelled, writer);
      RunThree(cfg, s, TeardownBegins, ReaderCancelled, writer);
    } else {
      WriterCloses(cfg, begun);
      assert [] + [] + [writer] == [writer] && [TeardownBegins] + [] + [writer] == [TeardownBegins] + [writer];
      RunTwo(cfg, begun, writer, writer);
      RunTwo(cfg, s, TeardownBegins, writer);
    }
  }

  lemma Begins(cfg: Config, s: System)
    requires s.conn.life.Teardown? && s.stage.NotBegun?
    ensures
      var d := Next(cfg, s, TeardownBegins);
      d.conn == s.conn && !d.stage.NotBegun?
  {
    hide D.Step;
  }

  // ---- where the read task waits ---------------------------------------------------------------

  // After it has emitted a payload the read task is inside _enqueue exactly if the event is,
  // runs its handler exactly if the event was delivered in its own task, and is back at its
  // loop if the event was rejected.
  lemma ReaderFollowsItsEvent(cfg: Config, s: System, inlineContext: bool)
    requires Enabled(cfg, s, ReaderEmits(inlineContext))
    ensures
      var t := |s.dispatcher.hist.place|;
      var d := Next(cfg, s, ReaderEmits(inlineContext));
      && t < |d.dispatcher.hist.place|
      && var p := d.dispatcher.hist.place[t];
         && (d.reader == Blocked(t) <==> t in d.dispatcher.producers && p.Producing?)
         && (d.reader.Handling? <==> p.InlineMode? || p.Fallback?)
         && (p.StopRejected? ==> d.reader == if s.conn.state.Connected? then Reading else Ended)
         && (p.Producing? || p.InlineMode? || p.Fallback? || p.StopRejected?)
  {
  }
}

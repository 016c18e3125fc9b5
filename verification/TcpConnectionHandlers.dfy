// The close protocol and the handlers of the connection: when a close event can be
// emitted in the middle of one, when a close() comes back before its event, and whether
// a deferred close event has somebody to publish it.

module TcpConnectionHandlers {
  import opened Common
  import opened TcpConnectionSpec
  import opened TcpConnectionProofs
  import opened TcpConnectionTheorems

  // ---- what an observer sees ----------------------------------------------------------------

  // Besides the connection: whether the lifecycle task that decided last, and whether the
  // publication task, runs handlers in its own task.
  datatype Watched = Watched(conn: Conn, lifeInline: bool, eventInline: bool)

  // A handler for an event of this connection is running.
  predicate Busy(c: Conn) { c.handlers > 0 || c.starter == Opening(Handling) }

  // `inline`: the mode is INLINE or there is no worker, so every task runs handlers itself.
  // Otherwise a lifecycle task does if its close() was called from a handler, and the
  // tasks that publish a deferred close event do.
  function Watch(inline: bool, w: Watched, a: Action): Watched {
    var c, d := w.conn, Next(w.conn, a);
    Watched(d,
            if a.Decide? && c.life.Deciding? then inline || c.life.origin.usesInline else w.lifeInline,
            if d.publication.Ready? && !c.publication.Ready? then a.LifeFinalizes? ==> w.lifeInline
            else w.eventInline)
  }

  function WatchAll(inline: bool, w: Watched, acts: seq<Action>): Watched
    decreases acts
  {
    if acts == [] then w else WatchAll(inline, Watch(inline, w, acts[0]), acts[1..])
  }

  const UNWATCHED := Watched(INITIAL, false, false)

  // What the dispatcher tells the lifecycle task is so: a handler is active where delivery
  // is inline, and a task of a handler exists only while that handler runs.
  predicate Truthful(inline: bool, c: Conn, a: Action) {
    a.Decide? && c.life.Deciding? ==>
      && (a.facts.activeInline <==> Busy(c) && (inline || c.life.origin.usesInline))
      && (a.facts.inherited || a.facts.handlerInFlight ==> Busy(c))
  }

  // Code that does not suspend goes on: a publisher that the handlers released takes the
  // deferral and creates the publication, and so does a lifecycle that does not defer.
  predicate Prompt(c: Conn, a: Action) {
    && (c.publisher.Claiming? ==> a.PublisherClaims?)
    && (c.publisher.Claimed? ==> a.PublisherFinalizes?)
    && (c.life.Finalizing? ==> a.LifeFinalizes?)
    && (c.starter.Settling? && c.starter.child.Claimed? ==> a.ChildFinalizes?)
  }

  ghost predicate Real(inline: bool, w: Watched, acts: seq<Action>)
    decreases acts
  {
    acts == []
    || (Truthful(inline, w.conn, acts[0]) && Prompt(w.conn, acts[0])
        && Real(inline, Watch(inline, w, acts[0]), acts[1..]))
  }

  // The next step of the publication task runs the handlers of the close event in the
  // middle of another handler.
  predicate Intrudes(w: Watched) { w.conn.publication.Ready? && w.eventInline && Busy(w.conn) }

  // A handler begins between the creation of the publication task and its first step, or
  // start() publishes a deferred close event while a handler runs, which it does not ask.
  predicate Collides(w: Watched, a: Action) {
    && Enabled(w.conn, a)
    && if a.ChildFinalizes? then w.conn.publication.NoPublication? && !w.conn.published && w.conn.handlers > 0
       else (a.HandlerEnters? || a.OpenedHandlerStarts?) && w.conn.publication.Ready? && w.eventInline
  }

  ghost predicate Smooth(inline: bool, w: Watched, acts: seq<Action>)
    decreases acts
  {
    acts == [] || (!Collides(w, acts[0]) && Smooth(inline, Watch(inline, w, acts[0]), acts[1..]))
  }

  // ---- nobody publishes into a handler -------------------------------------------------------

  predicate Apart(w: Watched) {
    && !Intrudes(w)
    && (w.conn.life.Finalizing? && w.lifeInline ==> !Busy(w.conn))
    && (w.conn.publisher.Claiming? || w.conn.publisher.Claimed? ==> !Busy(w.conn))
  }

  predicate Creates(a: Action) { a.LifeFinalizes? || a.PublisherFinalizes? || a.ChildFinalizes? }

  lemma CreatingStaysApart(inline: bool, w: Watched, a: Action)
    requires Inv(w.conn) && Apart(w) && Enabled(w.conn, a) && Prompt(w.conn, a) && Creates(a)
    ensures Intrudes(Watch(inline, w, a)) <==> Collides(w, a)
    ensures !Collides(w, a) ==> Apart(Watch(inline, w, a))
  {
    hide ReportsOk, SlotsOk, TeardownOk;
  }

  lemma DecidingStaysApart(inline: bool, w: Watched, f: Facts)
    requires Inv(w.conn) && Apart(w) && w.conn.life.Deciding?
    requires Truthful(inline, w.conn, Decide(f)) && Prompt(w.conn, Decide(f))
    ensures
      var d := Watched(DoDecide(w.conn, f), inline || w.conn.life.origin.usesInline, w.eventInline);
      Apart(d)
  {
    hide Inv, RaisedDeferral;
    RaisedKeepsHandlers(w.conn, !w.conn.opening && (HandlerSide(w.conn, w.conn.life.origin, f) || f.activeInline));
  }

  lemma RaisedKeepsHandlers(c: Conn, spawns: bool)
    ensures
      var d := RaisedDeferral(c, spawns);
      && d.handlers == c.handlers && d.starter == c.starter && d.publication == c.publication
      && (d.publisher == c.publisher || d.publisher.WaitsForHandlers?)
  {
  }

  lemma DecideIsWatched(inline: bool, w: Watched, f: Facts)
    requires Inv(w.conn) && w.conn.life.Deciding?
    ensures
      Watch(inline, w, Decide(f))
      == Watched(DoDecide(w.conn, f), inline || w.conn.life.origin.usesInline, w.eventInline)
  {
    DecideIs(w.conn, f);
    hide Inv, Next, RaisedDeferral;
    RaisedKeepsHandlers(w.conn, !w.conn.opening && (HandlerSide(w.conn, w.conn.life.origin, f) || f.activeInline));
  }

  lemma StarterStaysApart(inline: bool, w: Watched, a: Action)
    requires Inv(w.conn) && Apart(w) && Enabled(w.conn, a) && Prompt(w.conn, a) && OfStarter(a) && !Creates(a)
    ensures Intrudes(Watch(inline, w, a)) <==> Collides(w, a)
    ensures !Collides(w, a) ==> Apart(Watch(inline, w, a))
  {
    hide SlotsOk, TeardownOk;
  }

  lemma LifeStaysApart(inline: bool, w: Watched, a: Action)
    requires Inv(w.conn) && Apart(w) && Enabled(w.conn, a) && OfLife(a) && !Creates(a) && !a.Decide?
    ensures Apart(Watch(inline, w, a)) && !Collides(w, a)
  {
    hide ReportsOk, SlotsOk, TeardownOk, StarterOk;
  }

  lemma OthersStayApart(inline: bool, w: Watched, a: Action)
    requires Inv(w.conn) && Apart(w) && Enabled(w.conn, a) && Prompt(w.conn, a)
    requires !OfStarter(a) && !OfLife(a) && !Creates(a)
    ensures Intrudes(Watch(inline, w, a)) <==> Collides(w, a)
    ensures !Collides(w, a) ==> Apart(Watch(inline, w, a))
  {
    hide Inv;
  }

  lemma StepStaysApart(inline: bool, w: Watched, a: Action)
    requires Inv(w.conn) && Apart(w) && Enabled(w.conn, a)
    requires Truthful(inline, w.conn, a) && Prompt(w.conn, a)
    ensures Intrudes(Watch(inline, w, a)) <==> Collides(w, a)
    ensures !Collides(w, a) ==> Apart(Watch(inline, w, a))
  {
    if a.Decide? {
      DecideIsWatched(inline, w, a.facts);
      DecidingStaysApart(inline, w, a.facts);
      hide Inv, Watch, DoDecide, Truthful, Prompt;
    } else {
      hide Inv, Apart, Watch, Enabled, Collides, Prompt, Truthful;
      if Creates(a) {
        CreatingStaysApart(inline, w, a);
      } else if OfStarter(a) {
        StarterStaysApart(inline, w, a);
      } else if OfLife(a) {
        LifeStaysApart(inline, w, a);
        ApartDoesNotIntrude(Watch(inline, w, a));
      } else {
        OthersStayApart(inline, w, a);
      }
    }
  }

  lemma ApartDoesNotIntrude(w: Watched)
    requires Apart(w)
    ensures !Intrudes(w)
  {
  }

  lemma DisabledIsWatched(inline: bool, w: Watched, a: Action)
    requires !Enabled(w.conn, a)
    ensures Watch(inline, w, a) == w && !Collides(w, a)
  {
  }

  lemma WatchMoves(inline: bool, w: Watched, a: Action)
    ensures Watch(inline, w, a).conn == Next(w.conn, a)
  {
  }

  lemma NextStaysApart(inline: bool, w: Watched, a: Action)
    requires Inv(w.conn) && Apart(w) && Truthful(inline, w.conn, a) && Prompt(w.conn, a)
    ensures Intrudes(Watch(inline, w, a)) <==> Collides(w, a)
    ensures !Collides(w, a) ==> Inv(Watch(inline, w, a).conn) && Apart(Watch(inline, w, a))
  {
    hide Inv, Apart, Watch, Enabled, Step, Collides, Prompt, Truthful, Intrudes;
    WatchMoves(inline, w, a);
    if Enabled(w.conn, a) {
      StepKeepsInv(w.conn, a);
      StepStaysApart(inline, w, a);
    } else {
      DisabledIsWatched(inline, w, a);
      ApartDoesNotIntrude(w);
    }
  }

  lemma {:induction false} RunStaysApart(inline: bool, w: Watched, acts: seq<Action>)
    requires Inv(w.conn) && Apart(w) && Real(inline, w, acts) && Smooth(inline, w, acts)
    ensures var d := WatchAll(inline, w, acts); Inv(d.conn) && Apart(d)
    decreases acts
  {
    hide Inv, Apart, Watch, Collides, Prompt, Truthful;
    if acts != [] {
      NextStaysApart(inline, w, acts[0]);
      RunStaysApart(inline, Watch(inline, w, acts[0]), acts[1..]);
    }
  }

  lemma StartsApart()
    ensures Inv(UNWATCHED.conn) && Apart(UNWATCHED)
  {
  }

  // After any run in which that did not happen, an action makes the close event about to
  // be emitted in the middle of a handler exactly if it is one of the two collisions: so a
  // close that finds a handler running never emits into it.
  lemma IntrudesExactlyByCollision(inline: bool, before: seq<Action>, a: Action)
    requires Real(inline, UNWATCHED, before) && Smooth(inline, UNWATCHED, before)
    requires var w := WatchAll(inline, UNWATCHED, before); Truthful(inline, w.conn, a) && Prompt(w.conn, a)
    ensures
      var w := WatchAll(inline, UNWATCHED, before);
      Intrudes(Watch(inline, w, a)) <==> Collides(w, a)
  {
    hide Inv, Apart, Watch, Collides, Prompt, Truthful, Intrudes, Real, Smooth, WatchAll;
    StartsApart();
    RunStaysApart(inline, UNWATCHED, before);
    NextStaysApart(inline, WatchAll(inline, UNWATCHED, before), a);
  }

  ghost predicate CollidesAt(inline: bool, w: Watched, acts: seq<Action>, i: int) {
    0 <= i < |acts| && Collides(WatchAll(inline, w, acts[..i]), acts[i])
  }

  lemma {:induction false} CollidedSomewhere(inline: bool, w: Watched, acts: seq<Action>)
    requires !Smooth(inline, w, acts)
    ensures exists i :: CollidesAt(inline, w, acts, i)
    decreases acts
  {
    hide Collides, Watch;
    if Collides(w, acts[0]) {
      assert acts[..0] == [];
      assert CollidesAt(inline, w, acts, 0);
    } else {
      var d := Watch(inline, w, acts[0]);
      CollidedSomewhere(inline, d, acts[1..]);
      var i :| CollidesAt(inline, d, acts[1..], i);
      assert acts[..i + 1][0] == acts[0] && acts[..i + 1][1..] == acts[1..][..i];
      assert CollidesAt(inline, w, acts, i + 1);
    }
  }

  // Over all runs: when the close event begins to be emitted and is delivered inline, no
  // handler of the connection is running, unless there was such a collision.
  lemma CloseEventWaitsForHandlers(inline: bool, acts: seq<Action>)
    requires Real(inline, UNWATCHED, acts)
    ensures Intrudes(WatchAll(inline, UNWATCHED, acts)) ==> exists i :: CollidesAt(inline, UNWATCHED, acts, i)
  {
    hide Inv, Apart, Intrudes, WatchAll, Real;
    if Smooth(inline, UNWATCHED, acts) {
      hide Smooth;
      StartsApart();
      RunStaysApart(inline, UNWATCHED, acts);
      ApartDoesNotIntrude(WatchAll(inline, UNWATCHED, acts));
    } else {
      CollidedSomewhere(inline, UNWATCHED, acts);
    }
  }

  // ---- such a collision occurs ------------------------------------------------------------------

  lemma {:induction false} WatchConcat(inline: bool, w: Watched, xs: seq<Action>, ys: seq<Action>)
    ensures WatchAll(inline, w, xs + ys) == WatchAll(inline, WatchAll(inline, w, xs), ys)
    ensures Real(inline, w, xs) && Real(inline, WatchAll(inline, w, xs), ys) ==> Real(inline, w, xs + ys)
    ensures Smooth(inline, w, xs) && Smooth(inline, WatchAll(inline, w, xs), ys) ==> Smooth(inline, w, xs + ys)
    decreases xs
  {
    hide Watch, Truthful, Prompt, Collides;
    if xs == [] {
      assert xs + ys == ys;
    } else {
      assert (xs + ys)[0] == xs[0] && (xs + ys)[1..] == xs[1..] + ys;
      WatchConcat(inline, Watch(inline, w, xs[0]), xs[1..], ys);
    }
  }

  predicate Fine(inline: bool, w: Watched, a: Action) {
    Truthful(inline, w.conn, a) && Prompt(w.conn, a) && !Collides(w, a)
  }

  // A run of fine actions, one at a time.
  ghost predicate Leads(inline: bool, w: Watched, acts: seq<Action>, d: Watched) {
    Real(inline, w, acts) && Smooth(inline, w, acts) && WatchAll(inline, w, acts) == d
  }

  lemma LeadsOn(inline: bool, w: Watched, a: Action, acts: seq<Action>, d: Watched)
    requires Fine(inline, w, a) && Leads(inline, Watch(inline, w, a), acts, d)
    ensures Leads(inline, w, [a] + acts, d)
  {
    hide Watch, Truthful, Prompt, Collides;
    assert ([a] + acts)[0] == a && ([a] + acts)[1..] == acts;
  }

  // An action of nobody in particular, while no publication is due.
  lemma IsFine(inline: bool, w: Watched, a: Action)
    requires !a.Decide? && !a.ChildFinalizes? && w.conn.publication.NoPublication?
    requires w.conn.publisher.NoPublisher? && !w.conn.life.Finalizing?
    requires !(w.conn.starter.Settling? && w.conn.starter.child.Claimed?)
    requires Next(w.conn, a).publication.NoPublication?
    ensures Fine(inline, w, a) && Watch(inline, w, a) == w.(conn := Next(w.conn, a))
  {
    hide Next, Enabled;
  }

  lemma LeadsNowhere(inline: bool, w: Watched)
    ensures Leads(inline, w, [], w)
  {
  }

  const OPENED_INLINE := INITIAL.(state := Connected, starter := Settling(false, Claiming),
                                  hist := INITIAL.hist.(openedEmits := 1))
  const ENDED_START := OPENED_INLINE.(starter := Finished, reading := true)
  const CLOSING_INLINE :=
    ENDED_START.(state := Closing, previous := Some(Connected), reading := false,
                 life := Teardown(Origin(false, false)),
                 hist := History(Some(Connected), 1, 0, 0, 0, 0, 1, 0, 0, 0, []))
  const TORN_INLINE :=
    CLOSING_INLINE.(life := Deciding(Origin(false, false), false),
                    hist := History(Some(Connected), 1, 0, 0, 1, 1, 1, 0, 0, 0, []))
  const DUE_INLINE :=
    TORN_INLINE.(state := Closed, life := AwaitsPublication(false), publication := Ready(Connected),
                 hist := History(Some(Connected), 1, 0, 1, 1, 1, 1, 0, 0, 0, []))

  const OPENING_RUN := [Start] + ([ReadyReturns(true)] + ([OpenedSettles(true)] + ([OpeningResumes] + [])))
  const STARTED_RUN := [ChildClaims] + ([StarterResumes(false)] + ([Close(false, false)] + []))
  const TEARDOWN_RUN := [TeardownSocket] + ([RunCallback] + [])
  const DECIDED_RUN := [Decide(NO_HANDLER)] + ([LifeFinalizes] + [])

  lemma Opens()
    ensures Leads(true, UNWATCHED, OPENING_RUN, Watched(OPENED_INLINE, false, false))
  {
    hide Leads;
    var w1 := Watched(INITIAL.(state := Connected, starter := ReadyHook), false, false);
    var emitted := INITIAL.(state := Connected, opening := true, hist := INITIAL.hist.(openedEmits := 1));
    var w2 := Watched(emitted.(starter := Opening(Handling)), false, false);
    var w3 := Watched(emitted.(starter := Opening(Handled(true))), false, false);
    var w4 := Watched(OPENED_INLINE, false, false);
    LeadsNowhere(true, w4);
    LeadsOn(true, w3, OpeningResumes, [], w4);
    LeadsOn(true, w2, OpenedSettles(true), [OpeningResumes] + [], w4);
    LeadsOn(true, w1, ReadyReturns(true), [OpenedSettles(true)] + ([OpeningResumes] + []), w4);
    LeadsOn(true, UNWATCHED, Start, [ReadyReturns(true)] + ([OpenedSettles(true)] + ([OpeningResumes] + [])), w4);
  }

  lemma StartsReading()
    ensures Leads(true, Watched(OPENED_INLINE, false, false), STARTED_RUN, Watched(CLOSING_INLINE, false, false))
  {
    hide Leads;
    var w0 := Watched(OPENED_INLINE, false, false);
    var w1 := Watched(OPENED_INLINE.(starter := Settled(false, NothingToPublish)), false, false);
    var w2 := Watched(ENDED_START, false, false);
    var w3 := Watched(CLOSING_INLINE, false, false);
    ChildClaimsIs(w0.conn);
    StarterResumesIs(w1.conn, false);
    CloseIs(w2.conn, false, false);
    hide Next, Fine, Watch;
    IsFine(true, w0, ChildClaims);
    IsFine(true, w1, StarterResumes(false));
    IsFine(true, w2, Close(false, false));
    LeadsNowhere(true, w3);
    LeadsOn(true, w2, Close(false, false), [], w3);
    LeadsOn(true, w1, StarterResumes(false), [Close(false, false)] + [], w3);
    LeadsOn(true, w0, ChildClaims, [StarterResumes(false)] + ([Close(false, false)] + []), w3);
  }

  lemma TearsDown()
    ensures Leads(true, Watched(CLOSING_INLINE, false, false), TEARDOWN_RUN, Watched(TORN_INLINE, false, false))
  {
    hide Leads;
    var w0 := Watched(CLOSING_INLINE, false, false);
    var w1 := Watched(DoTeardownSocket(CLOSING_INLINE), false, false);
    var w2 := Watched(TORN_INLINE, false, false);
    TeardownSocketIs(w0.conn);
    RunCallbackIs(w1.conn);
    hide Next, Fine, Watch;
    IsFine(true, w0, TeardownSocket);
    IsFine(true, w1, RunCallback);
    LeadsNowhere(true, w2);
    LeadsOn(true, w1, RunCallback, [], w2);
    LeadsOn(true, w0, TeardownSocket, [RunCallback] + [], w2);
  }

  lemma Decides()
    ensures Leads(true, Watched(TORN_INLINE, false, false), DECIDED_RUN, Watched(DUE_INLINE, true, true))
  {
    hide Leads;
    var w0 := Watched(TORN_INLINE, false, false);
    var w1 := Watched(TORN_INLINE.(life := Finalizing(false)), true, false);
    var w2 := Watched(DUE_INLINE, true, true);
    DecideIs(w0.conn, NO_HANDLER);
    LifeFinalizesIs(w1.conn);
    hide Next;
    LeadsNowhere(true, w2);
    LeadsOn(true, w1, LifeFinalizes, [], w2);
    LeadsOn(true, w0, Decide(NO_HANDLER), [LifeFinalizes] + [], w2);
  }

  const COLLIDING := OPENING_RUN + STARTED_RUN + TEARDOWN_RUN + DECIDED_RUN

  // From the start, in INLINE mode: a handler begins after the close found none running, and
  // before its publication task has taken its first step.
  lemma CollisionOccurs()
    ensures Real(true, UNWATCHED, COLLIDING) && Smooth(true, UNWATCHED, COLLIDING)
    ensures Collides(WatchAll(true, UNWATCHED, COLLIDING), HandlerEnters)
  {
    Opens();
    StartsReading();
    TearsDown();
    Decides();
    hide Real, Smooth, WatchAll;
    WatchConcat(true, UNWATCHED, OPENING_RUN, STARTED_RUN);
    WatchConcat(true, UNWATCHED, OPENING_RUN + STARTED_RUN, TEARDOWN_RUN);
    WatchConcat(true, UNWATCHED, OPENING_RUN + STARTED_RUN + TEARDOWN_RUN, DECIDED_RUN);
  }

  // ---- a deferral is respected --------------------------------------------------------------------

  predicate ChildClaimed(c: Conn) { c.starter.Settling? && c.starter.child.Claimed? }

  // Whoever is about to publish has taken the deferral, or found none.
  predicate Respects(c: Conn) { c.life.Finalizing? || c.publisher.Claimed? || ChildClaimed(c) ==> !c.deferred }

  lemma LifeRespects(c: Conn, a: Action)
    requires Inv(c) && Respects(c) && Enabled(c, a) && Prompt(c, a) && OfLife(a)
    ensures Respects(Step(c, a))
  {
    hide ReportsOk, SlotsOk, StarterOk, TeardownOk;
  }

  lemma StarterRespects(c: Conn, a: Action)
    requires Respects(c) && Enabled(c, a) && Prompt(c, a) && OfStarter(a)
    ensures Respects(Step(c, a))
  {
  }

  lemma PublishersRespect(c: Conn, a: Action)
    requires Respects(c) && Enabled(c, a) && Prompt(c, a) && !OfStarter(a) && !OfLife(a)
    ensures Respects(Step(c, a))
  {
  }

  lemma StepRespects(c: Conn, a: Action)
    requires Inv(c) && Respects(c) && Enabled(c, a) && Prompt(c, a)
    ensures Respects(Step(c, a))
  {
    hide Inv, Respects, Step, Enabled, Prompt;
    if OfLife(a) {
      LifeRespects(c, a);
    } else if OfStarter(a) {
      StarterRespects(c, a);
    } else {
      PublishersRespect(c, a);
    }
  }

  ghost predicate PromptAll(c: Conn, acts: seq<Action>)
    decreases acts
  {
    acts == [] || (Prompt(c, acts[0]) && PromptAll(Next(c, acts[0]), acts[1..]))
  }

  lemma {:induction false} RunRespects(c: Conn, acts: seq<Action>)
    requires Inv(c) && Respects(c) && PromptAll(c, acts)
    ensures Respects(RunFrom(c, acts))
    decreases acts
  {
    hide Inv, Respects, Step, Enabled, Prompt;
    if acts != [] {
      if Enabled(c, acts[0]) {
        StepKeepsInv(c, acts[0]);
        StepRespects(c, acts[0]);
      }
      RunRespects(Next(c, acts[0]), acts[1..]);
    }
  }

  lemma LifeCreates(c: Conn, a: Action)
    requires Enabled(c, a) && OfLife(a) && c.publication.NoPublication? && !Step(c, a).publication.NoPublication?
    ensures c.life.Finalizing?
  {
  }

  lemma StarterCreates(c: Conn, a: Action)
    requires Enabled(c, a) && OfStarter(a) && c.publication.NoPublication? && !Step(c, a).publication.NoPublication?
    ensures ChildClaimed(c)
  {
  }

  lemma PublishersCreate(c: Conn, a: Action)
    requires Enabled(c, a) && !OfStarter(a) && !OfLife(a)
    requires c.publication.NoPublication? && !Step(c, a).publication.NoPublication?
    ensures c.publisher.Claimed?
  {
  }

  lemma OnlyPublishersCreate(c: Conn, a: Action)
    requires Enabled(c, a) && c.publication.NoPublication? && !Step(c, a).publication.NoPublication?
    ensures c.life.Finalizing? || c.publisher.Claimed? || ChildClaimed(c)
  {
    hide Enabled, Step;
    if OfLife(a) {
      LifeCreates(c, a);
    } else if OfStarter(a) {
      StarterCreates(c, a);
    } else {
      PublishersCreate(c, a);
    }
  }

  // Over all runs: nobody creates the publication task while a deferral is up; whoever
  // publishes has taken it, or found none.
  lemma PublicationTakesDeferral(before: seq<Action>, a: Action)
    requires PromptAll(INITIAL, before)
    requires Run(before).publication.NoPublication? && !Next(Run(before), a).publication.NoPublication?
    ensures !Run(before).deferred
  {
    StartIsQuiet();
    assert Respects(INITIAL);
    hide Inv, Quiet, RunFrom, PromptAll, Step, Enabled;
    RunRespects(INITIAL, before);
    OnlyPublishersCreate(Run(before), a);
  }

  // ---- a close() that comes back before its event ------------------------------------------

  // The close was called by a handler or a task of one, in the inline context, or by the
  // start() call that still holds the opened event's slot.
  predicate FromHandler(c: Conn, f: Facts)
    requires c.life.Deciding?
  {
    f.inherited || f.handlerInFlight || c.life.origin.usesInline || (c.life.origin.byStarter && c.opening)
  }

  lemma LifeEndsUnpublished(c: Conn, a: Action)
    requires Inv(c) && Enabled(c, a) && OfLife(a) && !c.life.NoLife? && !c.published
    ensures
      Step(c, a).life.NoLife?
      <==> a.LifeRaises? || a.LifeResumes? || (a.Decide? && FromHandler(c, a.facts))
  {
    hide ReportsOk, SlotsOk, StarterOk, TeardownOk;
  }

  lemma NobodyElseEndsLife(c: Conn, a: Action)
    requires Enabled(c, a) && !OfLife(a)
    ensures Step(c, a).life.NoLife? <==> c.life.NoLife?
  {
    hide Step, Enabled;
    if OfStarter(a) {
      StarterOnlyInforms(c, a);
    } else {
      PublishersOnlyInform(c, a);
    }
  }

  // In every reachable state before the close event is published, a close lifecycle comes
  // to its end exactly if its task dies, it is told that a publication failed, or it decides
  // for a close that a handler must not wait for; every other close() waits for its event.
  lemma ReturnsUnpublishedExactly(before: seq<Action>, a: Action)
    requires var c := Run(before); !c.life.NoLife? && !c.published && Enabled(c, a)
    ensures
      var c := Run(before);
      Next(c, a).life.NoLife? <==> a.LifeRaises? || a.LifeResumes? || (a.Decide? && FromHandler(c, a.facts))
  {
    StartIsQuiet();
    hide RunFrom, Enabled, Next, Inv, FromHandler, Quiet;
    RunKeepsInv(INITIAL, before);
    LifeEnds(Run(before), a);
  }

  lemma LifeEnds(c: Conn, a: Action)
    requires Inv(c) && !c.life.NoLife? && !c.published && Enabled(c, a)
    ensures Next(c, a).life.NoLife? <==> a.LifeRaises? || a.LifeResumes? || (a.Decide? && FromHandler(c, a.facts))
  {
    hide Step, Enabled, Inv, FromHandler;
    if OfLife(a) {
      LifeEndsUnpublished(c, a);
    } else {
      NobodyElseEndsLife(c, a);
    }
  }

  // Whoever tells a waiting lifecycle has seen the close event published.
  predicate TellsSuccess(c: Conn, a: Action) {
    match a
    case MarkPublication => c.publication == Marking(true)
    case PublisherSettles => c.publisher.Told? && c.publisher.ok
    case ChildSettles => c.starter.Settling? && c.starter.child.Told? && c.starter.child.ok
    case PublisherFinalizes => true
    case ChildFinalizes => true
    case _ => false
  }

  lemma LifeTellsNothing(c: Conn, a: Action)
    requires Enabled(c, a) && OfLife(a) && !c.life.Informed?
    ensures !Step(c, a).life.Informed?
  {
  }

  lemma StarterTellsNothing(c: Conn, a: Action)
    requires Enabled(c, a) && OfStarter(a) && !OfChild(a)
    ensures Step(c, a).life == c.life
  {
  }

  lemma ChildTellsTruly(c: Conn, a: Action)
    requires Enabled(c, a) && OfChild(a) && !c.life.Informed? && Step(c, a).life.Informed?
    ensures Step(c, a).life.ok <==> TellsSuccess(c, a)
  {
  }

  lemma PublishersTellTruly(c: Conn, a: Action)
    requires Enabled(c, a) && !OfStarter(a) && !OfLife(a) && !c.life.Informed? && Step(c, a).life.Informed?
    ensures Step(c, a).life.ok <==> TellsSuccess(c, a)
  {
  }

  // In every state a waiting lifecycle is told of success exactly by who has seen the close
  // event published: by the publication itself, by a publisher that it succeeded for, or by
  // one that found it published; every other answer is a failure.
  lemma LifeIsToldTruly(c: Conn, a: Action)
    requires !c.life.Informed? && Next(c, a).life.Informed?
    ensures Next(c, a).life.ok <==> TellsSuccess(c, a)
  {
    hide Step, Enabled, TellsSuccess;
    if OfLife(a) {
      LifeTellsNothing(c, a);
    } else if OfChild(a) {
      ChildTellsTruly(c, a);
    } else if OfStarter(a) {
      StarterTellsNothing(c, a);
    } else {
      PublishersTellTruly(c, a);
    }
  }

  // ---- when a close, and when reading, begins ---------------------------------------------------

  // Without a lifecycle task only a close() is its business.
  lemma OnlyCloseIsLeft(c: Conn, a: Action)
    requires c.life.NoLife?
    ensures Enabled(c, a) && OfLife(a) ==> a.Close?
  {
  }

  lemma LifeBegins(c: Conn, a: Action)
    requires Inv(c) && c.life.NoLife?
    ensures
      !Next(c, a).life.NoLife?
      <==> a.Close? && !c.published && !(a.byStarter && c.state.Closed? && c.deferred && c.opening)
  {
    if a.Close? {
      if c.published {
        PublishedIsClosed(c);
      }
      hide Inv;
    } else if Enabled(c, a) {
      OnlyCloseIsLeft(c, a);
      hide Step, Enabled, Inv;
      NobodyElseEndsLife(c, a);
    }
  }

  lemma PublishedIsClosed(c: Conn)
    requires Inv(c) && c.published
    ensures c.state.Closed?
  {
  }

  // In every reachable state in which no close lifecycle is running, one begins exactly with a
  // close() call, unless the close event has been published or is the deferred one that the
  // calling start() is about to publish itself.
  lemma CloseBeginsExactly(before: seq<Action>, a: Action)
    requires Run(before).life.NoLife?
    ensures
      var c := Run(before);
      !Next(c, a).life.NoLife?
      <==> a.Close? && !c.published && !(a.byStarter && c.state.Closed? && c.deferred && c.opening)
  {
    StartIsQuiet();
    hide RunFrom, Enabled, Next, Inv, Quiet;
    RunKeepsInv(INITIAL, before);
    LifeBegins(Run(before), a);
  }

  lemma OnlyStarterStartsReading(c: Conn, a: Action)
    requires Enabled(c, a) && !OfStarter(a)
    ensures Step(c, a).reading ==> c.reading
    ensures Step(c, a).starter.Finished? <==> c.starter.Finished?
  {
    hide Step, Enabled;
    if OfLife(a) {
      LifeLeavesStarter(c, a);
    } else {
      PublishersLeaveStarter(c, a);
    }
  }

  lemma LifeLeavesStarter(c: Conn, a: Action)
    requires Enabled(c, a) && OfLife(a)
    ensures (Step(c, a).reading ==> c.reading) && Step(c, a).starter == c.starter
  {
  }

  lemma PublishersLeaveStarter(c: Conn, a: Action)
    requires Enabled(c, a) && !OfStarter(a) && !OfLife(a)
    ensures Step(c, a).reading == c.reading && (Step(c, a).starter.Finished? <==> c.starter.Finished?)
  {
  }

  lemma StarterStartsReading(c: Conn, a: Action)
    requires Inv(c) && Enabled(c, a) && OfStarter(a)
    ensures
      Step(c, a).reading && !c.reading
      <==> a == StarterResumes(false) && c.starter == Settled(false, NothingToPublish) && c.state.Connected?
    ensures
      Step(c, a).starter.Finished?
      <==> a.StarterResumes? || a.ReadyRaises? || (a.ReadyReturns? && !c.state.Connected?)
  {
    hide ReportsOk, PublicationOk, SlotsOk, TeardownOk;
  }

  // In every reachable state: a start() call begins reading exactly if its opened event was
  // delivered, its publisher found nothing to publish, nobody cancelled it and nobody has
  // closed; and it is over exactly then, after each of its failures, or at once if a close
  // came before its opened event.
  lemma StartEndsExactly(before: seq<Action>, a: Action)
    requires Enabled(Run(before), a) && !Run(before).starter.Finished?
    ensures
      var c := Run(before);
      && (Next(c, a).reading
          <==> a == StarterResumes(false) && c.starter == Settled(false, NothingToPublish) && c.state.Connected?)
      && (Next(c, a).starter.Finished?
          <==> a.StarterResumes? || a.ReadyRaises? || (a.ReadyReturns? && !c.state.Connected?))
  {
    StartIsQuiet();
    hide RunFrom, Enabled, Step, Inv, Quiet;
    var c := Run(before);
    RunKeepsInv(INITIAL, before);
    NotReadingYet(c);
    if OfStarter(a) {
      StarterStartsReading(c, a);
    } else {
      OnlyStarterStartsReading(c, a);
    }
  }

  lemma NotReadingYet(c: Conn)
    requires Inv(c) && !c.starter.Finished?
    ensures !c.reading
  {
  }

  // ---- a deferral with nobody to take it up ---------------------------------------------------

  predicate Unserved(c: Conn) { c.deferred && !StarterWillLook(c) && !PublisherWillLook(c) }

  // The deferral is raised behind an opening slot whose start() call has looked already, or
  // while the handler-side publisher is busy with an earlier one; or the publisher that was
  // to take it is cancelled.
  predicate Deserts(c: Conn, a: Action) {
    && Enabled(c, a) && !StarterWillLook(c)
    && match a
       case Decide(f) =>
         && !PublisherWillLook(c)
         && (c.opening || (!c.publisher.NoPublisher? && (FromHandler(c, f) || f.activeInline)))
       case EnsureWaiter => !PublisherWillLook(c) && !c.publisher.NoPublisher?
       case CancelPublisher => c.deferred
       case _ => false
  }

  lemma DecisionDeserts(c: Conn, f: Facts)
    requires !Unserved(c) && c.life.Deciding?
    ensures Unserved(DoDecide(c, f)) <==> Deserts(c, Decide(f))
  {
  }

  lemma LifeDoesNotDesert(c: Conn, a: Action)
    requires !Unserved(c) && Enabled(c, a) && OfLife(a) && !a.Decide?
    ensures !Unserved(Step(c, a))
  {
  }

  lemma StarterDoesNotDesert(c: Conn, a: Action)
    requires !Unserved(c) && Enabled(c, a) && OfStarter(a)
    ensures !Unserved(Step(c, a))
  {
  }

  lemma PublishersDesert(c: Conn, a: Action)
    requires !Unserved(c) && Enabled(c, a) && !OfStarter(a) && !OfLife(a)
    ensures Unserved(Step(c, a)) <==> Deserts(c, a)
  {
  }

  lemma StepDeserts(c: Conn, a: Action)
    requires !Unserved(c) && Enabled(c, a)
    ensures Unserved(Step(c, a)) <==> Deserts(c, a)
  {
    if a.Decide? {
      DecisionIs(c, a.facts);
      hide Unserved, DoDecide, Deserts, Step, Enabled;
      DecisionDeserts(c, a.facts);
    } else {
      hide Unserved, Step, Enabled;
      if OfLife(a) {
        LifeDoesNotDesert(c, a);
      } else if OfStarter(a) {
        StarterDoesNotDesert(c, a);
      } else {
        PublishersDesert(c, a);
      }
    }
  }

  lemma DecisionIs(c: Conn, f: Facts)
    requires Enabled(c, Decide(f))
    ensures c.life.Deciding? && Step(c, Decide(f)) == DoDecide(c, f)
  {
    hide DoDecide;
  }

  ghost predicate NobodyDeserts(c: Conn, acts: seq<Action>)
    decreases acts
  {
    acts == [] || (!Deserts(c, acts[0]) && NobodyDeserts(Next(c, acts[0]), acts[1..]))
  }

  lemma {:induction false} RunStaysServed(c: Conn, acts: seq<Action>)
    requires !Unserved(c) && NobodyDeserts(c, acts)
    ensures !Unserved(RunFrom(c, acts))
    decreases acts
  {
    hide Unserved, Step, Enabled, Deserts;
    if acts != [] {
      if Enabled(c, acts[0]) {
        StepDeserts(c, acts[0]);
      }
      RunStaysServed(Next(c, acts[0]), acts[1..]);
    }
  }

  // After any run in which that did not happen, an action leaves a deferred close event
  // with nobody who will publish it exactly if it is one of those.
  lemma UnservedExactly(before: seq<Action>, a: Action)
    requires NobodyDeserts(INITIAL, before)
    ensures Unserved(Next(Run(before), a)) <==> Deserts(Run(before), a)
  {
    RunStaysServed(INITIAL, before);
    hide RunFrom, Unserved, Step, NobodyDeserts;
    var c := Run(before);
    if Enabled(c, a) {
      StepDeserts(c, a);
    } else {
      hide Enabled;
      assert !Deserts(c, a);
    }
  }

  ghost predicate DesertsAt(acts: seq<Action>, i: int) {
    0 <= i < |acts| && Deserts(Run(acts[..i]), acts[i])
  }

  lemma {:induction false} DesertedSomewhere(c: Conn, acts: seq<Action>) returns (i: nat)
    requires !NobodyDeserts(c, acts)
    ensures i < |acts| && Deserts(RunFrom(c, acts[..i]), acts[i])
    decreases acts
  {
    hide Deserts, Next;
    if Deserts(c, acts[0]) {
      i := 0;
      assert acts[..0] == [];
    } else {
      var k := DesertedSomewhere(Next(c, acts[0]), acts[1..]);
      i := k + 1;
      assert acts[..k + 1][0] == acts[0] && acts[..k + 1][1..] == acts[1..][..k];
    }
  }

  // Over all runs: a deferral that is up has somebody who will take it, unless one of those
  // actions was taken before.
  lemma DeferralIsServed(acts: seq<Action>)
    ensures Unserved(Run(acts)) ==> exists i :: DesertsAt(acts, i)
  {
    hide RunFrom, Deserts;
    if NobodyDeserts(INITIAL, acts) {
      RunStaysServed(INITIAL, acts);
    } else {
      var i := DesertedSomewhere(INITIAL, acts);
      assert DesertsAt(acts, i);
    }
  }
}

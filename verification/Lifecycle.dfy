// The lifecycle every managed component follows, and the publisher of its
// transitions.

module Lifecycle {
  import opened Common

  datatype Lifecycle = Stopped | Starting | Running | Stopping

  // The transition table shared by all roles.
  predicate Legal(previous: Lifecycle, target: Lifecycle) {
    match previous
    case Stopped => target.Starting?
    case Starting => target.Running? || target.Stopping? || target.Stopped?
    case Running => target.Stopping?
    case Stopping => target.Stopped?
  }

  datatype Transition = Transition(previous: Lifecycle, current: Lifecycle)

  // LifecycleTransitionPublisher.apply: no event without a change, and an illegal
  // request raises and leaves the state alone.
  datatype Applied = Unchanged | Changed(event: Transition) | Illegal

  function Request(state: Lifecycle, target: Lifecycle): Applied {
    if state == target then Unchanged
    else if Legal(state, target) then Changed(Transition(state, target))
    else Illegal
  }

  // The state and the events published so far, oldest first.
  datatype Track = Track(state: Lifecycle, applied: seq<Transition>)

  const NEW := Track(Stopped, [])

  function Apply(t: Track, target: Lifecycle): Track {
    match Request(t.state, target)
    case Changed(e) => Track(target, t.applied + [e])
    case _ => t
  }

  predicate Active(l: Lifecycle) { l.Starting? || l.Running? }

  // apply_stopping_transition_if_active and apply_stopped_transition_if_stopping
  function StopIfActive(t: Track): Track { if Active(t.state) then Apply(t, Stopping) else t }

  function StoppedIfStopping(t: Track): Track { if t.state.Stopping? then Apply(t, Stopped) else t }

  function Rank(l: Lifecycle): nat {
    match l
    case Stopped => 0
    case Starting => 1
    case Running => 2
    case Stopping => 3
  }

  // A request is granted exactly if it is the next state of the cycle, or gives up on
  // STARTING, by way of STOPPING or at once; one for the present state does nothing, and
  // every other one is refused.
  lemma RequestMeans(state: Lifecycle, target: Lifecycle)
    ensures
      Request(state, target)
      == if target == state then Unchanged
         else if Rank(target) == (Rank(state) + 1) % 4 || (state.Starting? && !target.Running?)
         then Changed(Transition(state, target))
         else Illegal
  {
  }

  // From every state the two final requests lead to STOPPED, with exactly the events that
  // were missing.
  lemma TerminationPublishes(t: Track)
    ensures
      StoppedIfStopping(StopIfActive(t))
      == Track(Stopped, t.applied + if t.state.Stopped? then []
                                    else if t.state.Stopping? then [Transition(Stopping, Stopped)]
                                    else [Transition(t.state, Stopping), Transition(Stopping, Stopped)])
  {
    assert t.applied + [] == t.applied;
    assert t.applied + [Transition(t.state, Stopping)] + [Transition(Stopping, Stopped)]
        == t.applied + [Transition(t.state, Stopping), Transition(Stopping, Stopped)];
  }

  // The events are a path of the table that starts at STOPPED and ends at the
  // current state.
  ghost predicate IsPath(t: Track) {
    && (forall i :: 0 <= i < |t.applied| ==> Legal(t.applied[i].previous, t.applied[i].current))
    && (forall i :: 0 < i < |t.applied| ==> t.applied[i].previous == t.applied[i - 1].current)
    && (if t.applied == [] then t.state.Stopped?
        else t.applied[0].previous.Stopped? && t.applied[|t.applied| - 1].current == t.state)
  }

  lemma ApplyKeepsPath(t: Track, target: Lifecycle)
    requires IsPath(t)
    ensures IsPath(Apply(t, target))
  {
  }

  function Count(ts: seq<Transition>, l: Lifecycle): nat {
    if ts == [] then 0 else Count(ts[..|ts| - 1], l) + if ts[|ts| - 1].current == l then 1 else 0
  }

  lemma CountApply(t: Track, target: Lifecycle, l: Lifecycle)
    ensures
      Count(Apply(t, target).applied, l)
      == Count(t.applied, l) + if Request(t.state, target).Changed? && target == l then 1 else 0
  {
    if Request(t.state, target).Changed? {
      assert Apply(t, target).applied[..|t.applied|] == t.applied;
    }
  }

  // On a path the numbers of STARTING, STOPPING and STOPPED fit together: each run
  // has one STARTING, at most one STOPPING, and one STOPPED when it is over.
  lemma {:induction false} PathCounts(t: Track)
    requires IsPath(t)
    ensures
      var starts, stops := Count(t.applied, Starting), Count(t.applied, Stopped);
      && starts == stops + (if t.state.Stopped? then 0 else 1)
      && Count(t.applied, Running) <= starts
      && Count(t.applied, Stopping) <= starts
      && (Active(t.state) ==> Count(t.applied, Stopping) <= stops)
      && (t.state.Starting? ==> Count(t.applied, Running) <= stops)
    decreases |t.applied|
  {
    if t.applied != [] {
      var last := t.applied[|t.applied| - 1];
      var before := Track(last.previous, t.applied[..|t.applied| - 1]);
      BeforeIsPath(t);
      LastCounts(t);
      PathCounts(before);
      hide Count, IsPath;
    }
  }

  lemma BeforeIsPath(t: Track)
    requires IsPath(t) && t.applied != []
    ensures
      var last := t.applied[|t.applied| - 1];
      && IsPath(Track(last.previous, t.applied[..|t.applied| - 1]))
      && Legal(last.previous, last.current) && last.current == t.state
  {
  }

  lemma LastCounts(t: Track)
    requires t.applied != []
    ensures
      var n := |t.applied| - 1;
      forall l :: Count(t.applied, l) == Count(t.applied[..n], l) + if t.applied[n].current == l then 1 else 0
  {
  }

  // ---- the object -------------------------------------------------------------

  class LifecycleTransitionPublisher {
    var state: Lifecycle
    ghost var applied: seq<Transition>

    ghost function View(): Track
      reads this
    {
      Track(state, applied)
    }

    ghost predicate Valid()
      reads this
    {
      IsPath(View())
    }

    constructor ()
      ensures View() == NEW && Valid()
    {
      state, applied := Stopped, [];
    }

    // Raises for an illegal request and leaves the state alone.
    method ApplyTo(target: Lifecycle) returns (outcome: Applied)
      requires Valid()
      modifies this
      ensures outcome == Request(old(state), target)
      ensures View() == Apply(old(View()), target) && Valid()
    {
      ApplyKeepsPath(View(), target);
      hide IsPath;
      if state == target {
        return Unchanged;
      }
      if !Legal(state, target) {
        return Illegal;
      }
      outcome := Changed(Transition(state, target));
      applied := applied + [outcome.event];
      state := target;
      assert View() == Apply(old(View()), target);
    }

    // apply_stopping_transition_if_active
    method StopWhenActive() returns (event: Option<Transition>)
      requires Valid()
      modifies this
      ensures View() == StopIfActive(old(View())) && Valid()
      ensures event == if Active(old(state)) then Some(Transition(old(state), Stopping)) else None
    {
      if !state.Running? && !state.Starting? {
        return None;
      }
      var outcome := ApplyTo(Stopping);
      return Some(outcome.event);
    }

    // apply_stopped_transition_if_stopping
    method StoppedWhenStopping() returns (event: Option<Transition>)
      requires Valid()
      modifies this
      ensures View() == StoppedIfStopping(old(View())) && Valid()
      ensures event == if old(state).Stopping? then Some(Transition(Stopping, Stopped)) else None
    {
      if state != Stopping {
        return None;
      }
      var outcome := ApplyTo(Stopped);
      return Some(outcome.event);
    }
  }
}

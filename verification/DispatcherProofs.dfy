// What every run of the dispatcher keeps: accounting, order and waiters.

module DispatcherProofs {
  import opened Common
  import opened EventQueue
  import opened DispatcherSpec

  // ---- marking places --------------------------------------------------------

  ghost predicate Among(items: seq<Item>, t: nat) { exists i :: 0 <= i < |items| && items[i].ticket == t }

  ghost predicate Distinct(items: seq<Item>) {
    forall i, j :: 0 <= i < j < |items| ==> items[i].ticket != items[j].ticket
  }

  ghost predicate AllAt(items: seq<Item>, ps: seq<Place>, p: Place) {
    forall i :: 0 <= i < |items| ==> items[i].ticket < |ps| && ps[items[i].ticket] == p
  }

  lemma {:induction false} MarkAllAt(ps: seq<Place>, items: seq<Item>, p: Place, t: nat)
    ensures |MarkAll(ps, items, p)| == |ps|
    ensures t < |ps| ==> MarkAll(ps, items, p)[t] == if Among(items, t) then p else ps[t]
    decreases items
  {
    if items != [] {
      MarkAllAt(Mark(ps, items[0].ticket, p), items[1..], p, t);
      AmongTail(items, t);
    }
  }

  lemma AmongTail(items: seq<Item>, t: nat)
    requires items != []
    ensures Among(items, t) <==> items[0].ticket == t || Among(items[1..], t)
  {
    if Among(items, t) {
      var i :| 0 <= i < |items| && items[i].ticket == t;
      if i > 0 {
        assert items[1..][i - 1].ticket == t;
      }
    }
    if Among(items[1..], t) {
      var i :| 0 <= i < |items[1..]| && items[1..][i].ticket == t;
      assert items[i + 1].ticket == t;
    }
  }

  // How many emissions are at place `p`.
  function N(ps: seq<Place>, p: Place): nat {
    if ps == [] then 0 else N(ps[..|ps| - 1], p) + if ps[|ps| - 1] == p then 1 else 0
  }

  lemma CountSnoc(ps: seq<Place>, p: Place, k: Place)
    ensures N(ps + [p], k) == N(ps, k) + if p == k then 1 else 0
  {
    assert (ps + [p])[..|ps|] == ps;
  }

  lemma {:induction false} MarkCounts(ps: seq<Place>, t: nat, p: Place, k: Place)
    requires t < |ps|
    ensures N(Mark(ps, t, p), k) == N(ps, k) - (if k == ps[t] then 1 else 0) + (if k == p then 1 else 0)
  {
    var init := ps[..|ps| - 1];
    if t < |init| {
      MarkCounts(init, t, p, k);
      assert Mark(ps, t, p)[..|ps| - 1] == Mark(init, t, p);
    } else {
      assert Mark(ps, t, p)[..|ps| - 1] == init;
    }
  }

  lemma {:induction false} MarkAllCounts(ps: seq<Place>, items: seq<Item>, from: Place, p: Place, k: Place)
    requires Distinct(items) && AllAt(items, ps, from) && from != p
    ensures
      N(MarkAll(ps, items, p), k) == N(ps, k) - (if k == from then |items| else 0) + (if k == p then |items| else 0)
    decreases items
  {
    if items != [] {
      MarkCounts(ps, items[0].ticket, p, k);
      MarkAllCounts(Mark(ps, items[0].ticket, p), items[1..], from, p, k);
    }
  }

  // All counts at once.
  datatype Tally = Tally(
    inlineMode: int,
    fallback: int,
    producing: int,
    queued: int,
    inFlight: int,
    delivered: int,
    deliveryFailed: int,
    droppedOldest: int,
    droppedNewest: int,
    stopRejected: int,
    stopCleared: int,
    resourceCleared: int,
    workerCleared: int,
    cancelled: int)

  function TallyOf(ps: seq<Place>): Tally {
    Tally(N(ps, InlineMode), N(ps, Fallback), N(ps, Producing), N(ps, Queued),
          N(ps, InFlight), N(ps, Delivered), N(ps, DeliveryFailed), N(ps, DroppedOldest),
          N(ps, DroppedNewest), N(ps, StopRejected), N(ps, StopCleared), N(ps, ResourceCleared),
          N(ps, WorkerCleared), N(ps, Cancelled))
  }

  // `n` events go from one place to another.
  function Moved(t: Tally, from: Place, to: Place, n: int): Tally {
    Tally(
      t.inlineMode - (if from.InlineMode? then n else 0) + (if to.InlineMode? then n else 0),
      t.fallback - (if from.Fallback? then n else 0) + (if to.Fallback? then n else 0),
      t.producing - (if from.Producing? then n else 0) + (if to.Producing? then n else 0),
      t.queued - (if from.Queued? then n else 0) + (if to.Queued? then n else 0),
      t.inFlight - (if from.InFlight? then n else 0) + (if to.InFlight? then n else 0),
      t.delivered - (if from.Delivered? then n else 0) + (if to.Delivered? then n else 0),
      t.deliveryFailed - (if from.DeliveryFailed? then n else 0) + (if to.DeliveryFailed? then n else 0),
      t.droppedOldest - (if from.DroppedOldest? then n else 0) + (if to.DroppedOldest? then n else 0),
      t.droppedNewest - (if from.DroppedNewest? then n else 0) + (if to.DroppedNewest? then n else 0),
      t.stopRejected - (if from.StopRejected? then n else 0) + (if to.StopRejected? then n else 0),
      t.stopCleared - (if from.StopCleared? then n else 0) + (if to.StopCleared? then n else 0),
      t.resourceCleared - (if from.ResourceCleared? then n else 0) + (if to.ResourceCleared? then n else 0),
      t.workerCleared - (if from.WorkerCleared? then n else 0) + (if to.WorkerCleared? then n else 0),
      t.cancelled - (if from.Cancelled? then n else 0) + (if to.Cancelled? then n else 0))
  }

  lemma MarkTally(ps: seq<Place>, t: nat, p: Place)
    requires t < |ps|
    ensures TallyOf(Mark(ps, t, p)) == Moved(TallyOf(ps), ps[t], p, 1)
  {
    hide N, Mark;
    forall k {
      MarkCounts(ps, t, p, k);
    }
  }

  lemma MarkAllCountsEach(ps: seq<Place>, items: seq<Item>, from: Place, p: Place)
    requires Distinct(items) && AllAt(items, ps, from) && from != p
    ensures
      forall k :: N(MarkAll(ps, items, p), k)
                  == N(ps, k) - (if k == from then |items| else 0) + (if k == p then |items| else 0)
  {
    hide N, MarkAll;
    forall k {
      MarkAllCounts(ps, items, from, p, k);
    }
  }

  lemma MarkAllTally(ps: seq<Place>, items: seq<Item>, from: Place, p: Place)
    requires Distinct(items) && AllAt(items, ps, from) && from != p
    ensures TallyOf(MarkAll(ps, items, p)) == Moved(TallyOf(ps), from, p, |items|)
  {
    hide N, MarkAll, Distinct, AllAt;
    MarkAllCountsEach(ps, items, from, p);
  }

  // A new emission: as if it moved in from nowhere.
  function Grown(t: Tally, p: Place): Tally {
    Tally(
      t.inlineMode + (if p.InlineMode? then 1 else 0),
      t.fallback + (if p.Fallback? then 1 else 0),
      t.producing + (if p.Producing? then 1 else 0),
      t.queued + (if p.Queued? then 1 else 0),
      t.inFlight + (if p.InFlight? then 1 else 0),
      t.delivered + (if p.Delivered? then 1 else 0),
      t.deliveryFailed + (if p.DeliveryFailed? then 1 else 0),
      t.droppedOldest + (if p.DroppedOldest? then 1 else 0),
      t.droppedNewest + (if p.DroppedNewest? then 1 else 0),
      t.stopRejected + (if p.StopRejected? then 1 else 0),
      t.stopCleared + (if p.StopCleared? then 1 else 0),
      t.resourceCleared + (if p.ResourceCleared? then 1 else 0),
      t.workerCleared + (if p.WorkerCleared? then 1 else 0),
      t.cancelled + (if p.Cancelled? then 1 else 0))
  }

  lemma SnocTally(ps: seq<Place>, p: Place)
    ensures TallyOf(ps + [p]) == Grown(TallyOf(ps), p)
  {
    hide N;
    forall k {
      CountSnoc(ps, p, k);
    }
  }

  function Total(t: Tally): int {
    t.inlineMode + t.fallback + t.producing + t.queued + t.inFlight
    + t.delivered + t.deliveryFailed + t.droppedOldest + t.droppedNewest + t.stopRejected
    + t.stopCleared + t.resourceCleared + t.workerCleared + t.cancelled
  }

  // The places partition the emissions.
  lemma {:induction false} TallyAddsUp(ps: seq<Place>)
    ensures |ps| == Total(TallyOf(ps))
  {
    if ps != [] {
      var init := ps[..|ps| - 1];
      assert ps == init + [ps[|ps| - 1]];
      TallyAddsUp(init);
      SnocTally(init, ps[|ps| - 1]);
      hide TallyOf;
    }
  }

  // ---- the part of the accepted events that is not dropped --------------------

  predicate Held(p: Place) { p.Queued? || p.InFlight? || p.Delivered? || p.DeliveryFailed? }

  predicate HeldAt(ps: seq<Place>, t: nat) { t < |ps| && Held(ps[t]) }

  function Kept(xs: seq<Item>, ps: seq<Place>): seq<Item> {
    if xs == [] then []
    else Kept(xs[..|xs| - 1], ps) + if HeldAt(ps, xs[|xs| - 1].ticket) then [xs[|xs| - 1]] else []
  }

  // Removes the items numbered in `ts`.
  function Minus(xs: seq<Item>, ts: set<nat>): seq<Item> {
    if xs == [] then [] else (if xs[0].ticket in ts then [] else [xs[0]]) + Minus(xs[1..], ts)
  }

  function Tickets(xs: seq<Item>): set<nat> { set x | x in xs :: x.ticket }

  lemma KeptSnoc(xs: seq<Item>, x: Item, ps: seq<Place>)
    ensures Kept(xs + [x], ps) == Kept(xs, ps) + if HeldAt(ps, x.ticket) then [x] else []
  {
    assert (xs + [x])[..|xs|] == xs;
  }

  lemma {:induction false} KeptSame(xs: seq<Item>, ps: seq<Place>, qs: seq<Place>)
    requires forall x :: x in xs ==> (HeldAt(qs, x.ticket) <==> HeldAt(ps, x.ticket))
    ensures Kept(xs, qs) == Kept(xs, ps)
  {
    if xs != [] {
      KeptSame(xs[..|xs| - 1], ps, qs);
    }
  }

  // Taking the places `ts` out of the held ones removes exactly those items.
  lemma {:induction false} KeptMinus(xs: seq<Item>, ps: seq<Place>, qs: seq<Place>, ts: set<nat>)
    requires forall t: nat :: HeldAt(qs, t) <==> HeldAt(ps, t) && t !in ts
    ensures Kept(xs, qs) == Minus(Kept(xs, ps), ts)
  {
    if xs != [] {
      var init, last := xs[..|xs| - 1], xs[|xs| - 1];
      KeptMinus(init, ps, qs, ts);
      assert HeldAt(qs, last.ticket) <==> HeldAt(ps, last.ticket) && last.ticket !in ts;
      if !HeldAt(ps, last.ticket) {
        assert Kept(xs, ps) == Kept(init, ps);
      } else {
        MinusSnoc(Kept(init, ps), last, ts);
      }
    }
  }

  lemma {:induction false} MinusConcat(xs: seq<Item>, ys: seq<Item>, ts: set<nat>)
    ensures Minus(xs + ys, ts) == Minus(xs, ts) + Minus(ys, ts)
  {
    if xs == [] {
      assert xs + ys == ys;
    } else {
      assert (xs + ys)[1..] == xs[1..] + ys;
      MinusConcat(xs[1..], ys, ts);
    }
  }

  lemma MinusSnoc(xs: seq<Item>, x: Item, ts: set<nat>)
    ensures Minus(xs + [x], ts) == Minus(xs, ts) + if x.ticket in ts then [] else [x]
  {
    MinusConcat(xs, [x], ts);
    assert [x][1..] == [];
  }

  lemma {:induction false} MinusNone(xs: seq<Item>, ts: set<nat>)
    requires forall x :: x in xs ==> x.ticket !in ts
    ensures Minus(xs, ts) == xs
  {
    if xs != [] {
      MinusNone(xs[1..], ts);
    }
  }

  lemma {:induction false} MinusEverything(xs: seq<Item>, ts: set<nat>)
    requires forall x :: x in xs ==> x.ticket in ts
    ensures Minus(xs, ts) == []
  {
    if xs != [] {
      MinusEverything(xs[1..], ts);
    }
  }

  lemma DistinctTail(ys: seq<Item>)
    requires Distinct(ys) && ys != []
    ensures Distinct(ys[1..]) && forall x :: x in ys[1..] ==> x.ticket != ys[0].ticket
  {
    forall x | x in ys[1..]
      ensures x.ticket != ys[0].ticket
    {
      var j :| 0 <= j < |ys[1..]| && ys[1..][j] == x;
      assert ys[j + 1] == x;
    }
  }

  lemma {:induction false} MinusAtIndex(xs: seq<Item>, k: nat)
    requires Distinct(xs) && k < |xs|
    ensures Minus(xs, {xs[k].ticket}) == Without(xs, k)
  {
    DistinctTail(xs);
    if k == 0 {
      MinusNone(xs[1..], {xs[0].ticket});
    } else {
      MinusAtIndex(xs[1..], k - 1);
      assert xs[k] == xs[1..][k - 1];
      assert Without(xs, k) == [xs[0]] + Without(xs[1..], k - 1);
    }
  }

  lemma {:induction false} MinusResource(ys: seq<Item>, r: nat, ts: set<nat>)
    requires forall y :: y in ys ==> (y.ticket in ts <==> y.bytes && y.resource == r)
    ensures Minus(ys, ts) == NotOfResource(ys, r)
  {
    if ys != [] {
      MinusResource(ys[1..], r, ts);
    }
  }

  // Splitting by resource: every part comes from the queue, and nothing is lost.
  lemma {:induction false} ResourceParts(ys: seq<Item>, r: nat)
    ensures forall x :: x in OfResource(ys, r) <==> x in ys && x.bytes && x.resource == r
    ensures forall x :: x in NotOfResource(ys, r) <==> x in ys && !(x.bytes && x.resource == r)
    ensures |OfResource(ys, r)| + |NotOfResource(ys, r)| == |ys|
  {
    if ys != [] {
      ResourceParts(ys[1..], r);
    }
  }

  lemma DistinctCons(y: Item, ys: seq<Item>)
    requires Distinct(ys) && forall x :: x in ys ==> x.ticket != y.ticket
    ensures Distinct([y] + ys)
  {
  }

  lemma {:induction false} ResourcePartsDistinct(ys: seq<Item>, r: nat)
    requires Distinct(ys)
    ensures Distinct(OfResource(ys, r)) && Distinct(NotOfResource(ys, r))
  {
    if ys != [] {
      DistinctTail(ys);
      ResourcePartsDistinct(ys[1..], r);
      ResourceParts(ys[1..], r);
      if ys[0].bytes && ys[0].resource == r {
        DistinctCons(ys[0], OfResource(ys[1..], r));
        assert NotOfResource(ys, r) == NotOfResource(ys[1..], r);
      } else {
        DistinctCons(ys[0], NotOfResource(ys[1..], r));
        assert OfResource(ys, r) == OfResource(ys[1..], r);
      }
    }
  }
}

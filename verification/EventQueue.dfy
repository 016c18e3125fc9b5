// The bounded queue of the event dispatcher: what one backpressured insertion
// does, and what a whole series of insertions amounts to.

module EventQueue {
  import opened Common

  datatype Policy = Block | DropOldest | DropNewest

  // One emitted event.  `ticket` numbers the emissions; a barrier is an event
  // with drop_on_backpressure=False; `waits` says that a future is attached.
  datatype Item = Item(ticket: nat, bytes: bool, resource: nat, barrier: bool, waits: bool)

  datatype Offer =
    | Appended
    | Evicted(index: nat)
    | Refused
    | Blocked

  // Index of the oldest droppable item, or the length if there is none.
  function FirstDroppable(q: seq<Item>): (k: nat)
    ensures k <= |q|
    ensures forall i :: 0 <= i < k ==> q[i].barrier
    ensures k < |q| ==> !q[k].barrier
  {
    if q == [] then 0 else if !q[0].barrier then 0 else 1 + FirstDroppable(q[1..])
  }

  // The decision _enqueue takes for `item` when the dispatcher accepts events.
  function Decide(q: seq<Item>, capacity: nat, policy: Policy, item: Item): (o: Offer)
    ensures o.Evicted? ==> o.index < |q| && !q[o.index].barrier
  {
    if |q| < capacity then Appended
    else
      match policy
      case Block => Blocked
      case DropOldest =>
        var k := FirstDroppable(q);
        if k < |q| then Evicted(k) else if item.barrier then Blocked else Refused
      case DropNewest => if item.barrier then Blocked else Refused
  }

  function Without(q: seq<Item>, k: nat): seq<Item>
    requires k < |q|
  {
    q[..k] + q[k + 1..]
  }

  function After(q: seq<Item>, capacity: nat, policy: Policy, item: Item): seq<Item> {
    match Decide(q, capacity, policy, item)
    case Appended => q + [item]
    case Evicted(k) => Without(q, k) + [item]
    case Refused => q
    case Blocked => q
  }

  // A full queue makes the producer wait exactly under BLOCK, or if its event must not be
  // dropped and nothing makes room for it; it is turned away exactly if its event may be
  // dropped and, under DROP_OLDEST, nothing older can go instead.
  lemma WaitsExactly(q: seq<Item>, capacity: nat, policy: Policy, item: Item)
    ensures
      var stuck := |q| >= capacity && !(policy.DropOldest? && exists x :: x in q && !x.barrier);
      && (Decide(q, capacity, policy, item).Blocked? <==> stuck && (policy.Block? || item.barrier))
      && (Decide(q, capacity, policy, item).Refused? <==> stuck && !policy.Block? && !item.barrier)
  {
    DroppableExists(q);
    hide FirstDroppable;
  }

  lemma {:induction false} DroppableExists(q: seq<Item>)
    ensures FirstDroppable(q) < |q| <==> exists x :: x in q && !x.barrier
  {
    if q != [] {
      DroppableExists(q[1..]);
      assert forall x :: x in q <==> x == q[0] || x in q[1..];
    }
  }


  // The queue after a series of insertions with no removal by the worker.
  function OfferAll(items: seq<Item>, capacity: nat, policy: Policy): seq<Item> {
    if items == [] then []
    else After(OfferAll(items[..|items| - 1], capacity, policy), capacity, policy, items[|items| - 1])
  }

  // ---- the declarative reading ----------------------------------------------------

  function Barriers(items: seq<Item>): (b: nat)
    ensures b <= |items|
  {
    if items == [] then 0
    else Barriers(items[..|items| - 1]) + if items[|items| - 1].barrier then 1 else 0
  }

  function Min(a: int, b: int): int { if a < b then a else b }

  // All barriers and the last `k` droppable items, in their original order.
  function Survivors(items: seq<Item>, k: nat): seq<Item> {
    if items == [] then []
    else
      var init, last := items[..|items| - 1], items[|items| - 1];
      if last.barrier then Survivors(init, k) + [last]
      else if k > 0 then Survivors(init, k - 1) + [last]
      else Survivors(init, 0)
  }

  // The longest prefix with at most `b` barriers.
  function UpToBarriers(items: seq<Item>, b: nat): seq<Item> {
    if items == [] then []
    else if Barriers(items) <= b then items
    else UpToBarriers(items[..|items| - 1], b)
  }

  lemma {:induction false} SurvivorsLength(items: seq<Item>, k: nat)
    requires k <= |items| - Barriers(items)
    ensures |Survivors(items, k)| == Barriers(items) + k
    decreases items
  {
    if items != [] {
      var init := items[..|items| - 1];
      if items[|items| - 1].barrier {
        SurvivorsLength(init, k);
      } else if k > 0 {
        SurvivorsLength(init, k - 1);
      } else {
        SurvivorsLength(init, 0);
      }
    }
  }

  // How many droppable items come after position `i`.
  function DroppableAfter(items: seq<Item>, i: nat): int
    requires i < |items|
  {
    (|items| - Barriers(items)) - (i + 1 - Barriers(items[..i + 1]))
  }

  lemma {:induction false} SurvivorsComeFrom(items: seq<Item>, k: nat)
    ensures forall x :: x in Survivors(items, k) ==> x in items
    decreases items
  {
    if items != [] {
      var init := items[..|items| - 1];
      SurvivorsComeFrom(init, k);
      SurvivorsComeFrom(init, 0);
      if k > 0 {
        SurvivorsComeFrom(init, k - 1);
      }
      assert forall x :: x in init ==> x in items;
    }
  }

  // An item survives exactly if it is a barrier or one of the last `k` others.
  lemma {:induction false} SurvivesExactly(items: seq<Item>, k: nat, i: nat)
    requires i < |items| && forall a, b :: 0 <= a < b < |items| ==> items[a] != items[b]
    ensures items[i] in Survivors(items, k) <==> items[i].barrier || DroppableAfter(items, i) < k
    decreases items
  {
    var init, last := items[..|items| - 1], items[|items| - 1];
    if i == |init| {
      assert items[..i + 1] == items;
      SurvivorsComeFrom(init, k);
      SurvivorsComeFrom(init, 0);
      assert last !in init;
    } else {
      assert items[..i + 1] == init[..i + 1];
      assert items[i] == init[i] && items[i] != last;
      SurvivesExactly(init, if last.barrier then k else if k > 0 then k - 1 else 0, i);
      DroppableAfterBound(init, i);
    }
  }

  lemma {:induction false} DroppableAfterBound(items: seq<Item>, i: nat)
    requires i < |items|
    ensures DroppableAfter(items, i) >= 0
    decreases items
  {
    if i < |items| - 1 {
      var init := items[..|items| - 1];
      assert items[..i + 1] == init[..i + 1];
      DroppableAfterBound(init, i);
    } else {
      assert items[..i + 1] == items;
    }
  }

  // Keeping as many droppable items as there are keeps everything.
  lemma {:induction false} SurvivorsAll(items: seq<Item>, k: nat)
    requires k >= |items| - Barriers(items)
    ensures Survivors(items, k) == items
    decreases items
  {
    if items != [] {
      var init, last := items[..|items| - 1], items[|items| - 1];
      assert items == init + [last];
      if last.barrier {
        SurvivorsAll(init, k);
      } else {
        SurvivorsAll(init, k - 1);
      }
    }
  }

  // Evicting the oldest droppable survivor lowers the quota by one.
  lemma {:induction false} EvictionLowersQuota(items: seq<Item>, k: nat)
    requires 0 < k <= |items| - Barriers(items)
    ensures
      var s := Survivors(items, k);
      var f := FirstDroppable(s);
      f < |s| && Without(s, f) == Survivors(items, k - 1)
    decreases items
  {
    var init, last := items[..|items| - 1], items[|items| - 1];
    var s := Survivors(items, k);
    if last.barrier {
      EvictionLowersQuota(init, k);
      var t := Survivors(init, k);
      FirstDroppableAppend(t, last);
      WithoutAppend(t, FirstDroppable(t), last);
    } else if k == 1 {
      var t := Survivors(init, 0);
      SurvivorsLength(init, 0);
      OnlyBarriers(init);
      FirstDroppableAppend(t, last);
      assert Without(s, |t|) == t;
    } else {
      EvictionLowersQuota(init, k - 1);
      var t := Survivors(init, k - 1);
      FirstDroppableAppend(t, last);
      WithoutAppend(t, FirstDroppable(t), last);
    }
  }

  lemma WithoutAppend(q: seq<Item>, k: nat, last: Item)
    requires k < |q|
    ensures Without(q + [last], k) == Without(q, k) + [last]
  {
    assert (q + [last])[..k] == q[..k];
    assert (q + [last])[k + 1..] == q[k + 1..] + [last];
  }

  lemma {:induction false} OnlyBarriers(items: seq<Item>)
    ensures forall i :: 0 <= i < |Survivors(items, 0)| ==> Survivors(items, 0)[i].barrier
    decreases items
  {
    if items != [] {
      OnlyBarriers(items[..|items| - 1]);
    }
  }

  lemma FirstDroppableIs(q: seq<Item>, k: nat)
    requires k <= |q| && (forall i :: 0 <= i < k ==> q[i].barrier) && (k < |q| ==> !q[k].barrier)
    ensures FirstDroppable(q) == k
  {
  }

  lemma FirstDroppableAppend(q: seq<Item>, last: Item)
    ensures
      FirstDroppable(q + [last])
      == if FirstDroppable(q) < |q| then FirstDroppable(q) else if last.barrier then |q| + 1 else |q|
  {
    var k := FirstDroppable(q);
    if k < |q| {
      FirstDroppableIs(q + [last], k);
    } else {
      FirstDroppableIs(q + [last], if last.barrier then |q| + 1 else |q|);
    }
  }

  // How many droppable events fit beside the barriers.
  function Quota(items: seq<Item>, capacity: nat): nat
    requires Barriers(items) <= capacity
  {
    Min(capacity - Barriers(items), |items| - Barriers(items))
  }

  lemma SurvivorsExtend(items: seq<Item>, last: Item, k: nat)
    ensures
      Survivors(items + [last], k)
      == if last.barrier then Survivors(items, k) + [last]
         else if k > 0 then Survivors(items, k - 1) + [last]
         else Survivors(items, 0)
    ensures Barriers(items + [last]) == Barriers(items) + if last.barrier then 1 else 0
  {
    var all := items + [last];
    assert all[..|all| - 1] == items && all[|all| - 1] == last;
  }

  // One more insertion, for each of the three things it can do.
  lemma RoomForOne(items: seq<Item>, last: Item, capacity: nat)
    requires Barriers(items) <= capacity && |items| < capacity
    ensures
      After(Survivors(items, Quota(items, capacity)), capacity, DropOldest, last)
      == Survivors(items + [last], |items + [last]| - Barriers(items + [last]))
  {
    SurvivorsAll(items, Quota(items, capacity));
    SurvivorsAll(items + [last], |items + [last]| - Barriers(items + [last]));
  }

  lemma FullButDroppable(items: seq<Item>, last: Item, capacity: nat, k: nat)
    requires 0 < k <= |items| - Barriers(items) && Barriers(items) + k == capacity
    ensures
      After(Survivors(items, k), capacity, DropOldest, last) == Survivors(items, k - 1) + [last]
  {
    hide Survivors, FirstDroppable;
    SurvivorsLength(items, k);
    EvictionLowersQuota(items, k);
  }

  lemma FullOfBarriersOnly(items: seq<Item>, last: Item, capacity: nat)
    requires Barriers(items) == capacity && !last.barrier
    ensures After(Survivors(items, 0), capacity, DropOldest, last) == Survivors(items, 0)
  {
    SurvivorsLength(items, 0);
    OnlyBarriers(items);
    FirstDroppableIs(Survivors(items, 0), capacity);
    hide Survivors;
  }

  lemma OneMoreOffer(items: seq<Item>, last: Item, capacity: nat)
    requires Barriers(items + [last]) <= capacity && Barriers(items) <= capacity
    ensures
      After(Survivors(items, Quota(items, capacity)), capacity, DropOldest, last)
      == Survivors(items + [last], Quota(items + [last], capacity))
  {
    hide After, Survivors, Barriers;
    var k := Quota(items, capacity);
    SurvivorsExtend(items, last, Quota(items + [last], capacity));
    if |items| < capacity {
      RoomForOne(items, last, capacity);
    } else if k > 0 {
      FullButDroppable(items, last, capacity, k);
    } else {
      FullOfBarriersOnly(items, last, capacity);
    }
  }

  // DROP_OLDEST keeps every barrier and the newest droppable events that fit, in
  // order, for as long as the barriers alone fit.
  lemma {:induction false} DropOldestKeepsNewest(items: seq<Item>, capacity: nat)
    requires Barriers(items) <= capacity
    ensures OfferAll(items, capacity, DropOldest) == Survivors(items, Quota(items, capacity))
    decreases items
  {
    if items != [] {
      var init, last := items[..|items| - 1], items[|items| - 1];
      assert items == init + [last];
      SurvivorsExtend(init, last, 0);
      DropOldestKeepsNewest(init, capacity);
      OneMoreOffer(init, last, capacity);
    }
  }

  // Over any series: what counts is the longest prefix whose barriers fit, after
  // which the queue is full of barriers and no longer changes.
  lemma {:induction false} DropOldestMeans(items: seq<Item>, capacity: nat)
    ensures
      var p := UpToBarriers(items, capacity);
      Barriers(p) <= capacity && OfferAll(items, capacity, DropOldest) == Survivors(p, Quota(p, capacity))
    decreases items
  {
    if Barriers(items) <= capacity {
      DropOldestKeepsNewest(items, capacity);
    } else {
      DropOldestMeans(items[..|items| - 1], capacity);
      FullQueueStays(items, capacity);
    }
  }

  lemma FullQueueStays(items: seq<Item>, capacity: nat)
    requires Barriers(items) > capacity
    requires
      var p := UpToBarriers(items[..|items| - 1], capacity);
      Barriers(p) <= capacity
      && OfferAll(items[..|items| - 1], capacity, DropOldest) == Survivors(p, Quota(p, capacity))
    ensures OfferAll(items, capacity, DropOldest) == OfferAll(items[..|items| - 1], capacity, DropOldest)
  {
    var init := items[..|items| - 1];
    var p := UpToBarriers(init, capacity);
    FullOfBarriers(init, capacity);
    SurvivorsLength(p, 0);
    OnlyBarriers(p);
    FirstDroppableIs(Survivors(p, 0), capacity);
  }

  lemma {:induction false} FullOfBarriers(items: seq<Item>, capacity: nat)
    ensures Barriers(items) >= capacity ==> Barriers(UpToBarriers(items, capacity)) == capacity
    decreases items
  {
    if items != [] && Barriers(items) > capacity {
      FullOfBarriers(items[..|items| - 1], capacity);
    }
  }

  // DROP_NEWEST and BLOCK keep exactly the events that came first.
  lemma {:induction false} OthersKeepFirst(items: seq<Item>, capacity: nat, policy: Policy)
    requires !policy.DropOldest?
    ensures OfferAll(items, capacity, policy) == items[..Min(capacity, |items|)]
    decreases items
  {
    if items != [] {
      var init, last := items[..|items| - 1], items[|items| - 1];
      OthersKeepFirst(init, capacity, policy);
      assert items == init + [last];
      assert items[..Min(capacity, |init|)] == init[..Min(capacity, |init|)];
    }
  }
}

// WarningRateLimiter: which warnings it lets through, over any history of calls.

module RateLimiter {
  import opened Common

  datatype Settings = Settings(interval: real, maxKeys: nat) {
    predicate Valid() { interval > 0.0 && maxKeys >= 1 }
  }

  // A dictionary with its keys in order of insertion; an update keeps its place.
  datatype Table = Table(order: seq<string>, at: map<string, real>)

  const EMPTY := Table([], map[])

  datatype Call = Call(key: string, now: real)

  function Lookup(t: Table, key: string): Option<real> { if key in t.at then Some(t.at[key]) else None }

  predicate Allows(s: Settings, t: Table, c: Call) {
    match Lookup(t, c.key)
    case None => true
    case Some(previous) => c.now - previous >= s.interval
  }

  // The key that an allowed call pushes out.
  function Victim(s: Settings, t: Table, c: Call): Option<string> {
    if Allows(s, t, c) && c.key !in t.at && |t.at| >= s.maxKeys && t.order != [] then Some(t.order[0]) else None
  }

  function Next(s: Settings, t: Table, c: Call): Table {
    if !Allows(s, t, c) then t
    else if c.key in t.at then t.(at := t.at[c.key := c.now])
    else if Victim(s, t, c).Some? then Table(t.order[1..] + [c.key], (t.at - {t.order[0]})[c.key := c.now])
    else Table(t.order + [c.key], t.at[c.key := c.now])
  }

  // The table before call number `n`.
  function Before(s: Settings, calls: seq<Call>, n: nat): Table
    requires n <= |calls|
  {
    if n == 0 then EMPTY else Next(s, Before(s, calls, n - 1), calls[n - 1])
  }

  predicate Allowed(s: Settings, calls: seq<Call>, i: nat)
    requires i < |calls|
  {
    Allows(s, Before(s, calls, i), calls[i])
  }

  predicate Evicts(s: Settings, calls: seq<Call>, i: nat, key: string)
    requires i < |calls|
  {
    Victim(s, Before(s, calls, i), calls[i]) == Some(key)
  }

  // ---- the table stays bounded -------------------------------------------------------

  ghost predicate NoDuplicates(keys: seq<string>) { forall i, j :: 0 <= i < j < |keys| ==> keys[i] != keys[j] }

  ghost predicate Sound(s: Settings, t: Table) {
    && NoDuplicates(t.order)
    && (forall k :: k in t.at <==> k in t.order)
    && |t.order| == |t.at| <= s.maxKeys
  }

  lemma OneKeyMore(m: map<string, real>, k: string, v: real)
    requires k !in m
    ensures |m[k := v]| == |m| + 1
  {
    assert m[k := v].Keys == m.Keys + {k};
  }

  lemma OneKeyLess(m: map<string, real>, k: string)
    requires k in m
    ensures |m - {k}| == |m| - 1
  {
    assert (m - {k}).Keys == m.Keys - {k};
  }

  lemma AddingIsSound(s: Settings, t: Table, key: string, now: real)
    requires Sound(s, t) && key !in t.at && |t.at| < s.maxKeys
    ensures Sound(s, Table(t.order + [key], t.at[key := now]))
  {
    OneKeyMore(t.at, key, now);
  }

  lemma EvictingIsSound(s: Settings, t: Table)
    requires Sound(s, t) && t.order != []
    ensures Sound(s, Table(t.order[1..], t.at - {t.order[0]}))
  {
    hide NoDuplicates;
    var oldest, rest := t.order[0], t.order[1..];
    OneKeyLess(t.at, oldest);
    TailIsDistinct(t.order);
    forall k
      ensures k in t.at - {oldest} <==> k in rest
    {
      InTail(t.order, k);
    }
  }

  lemma TailIsDistinct(keys: seq<string>)
    requires NoDuplicates(keys) && keys != []
    ensures NoDuplicates(keys[1..]) && keys[0] !in keys[1..]
  {
  }

  lemma InTail(keys: seq<string>, k: string)
    requires keys != []
    ensures k in keys <==> k == keys[0] || k in keys[1..]
  {
  }

  lemma UpdatingIsSound(s: Settings, t: Table, key: string, now: real)
    requires Sound(s, t) && key in t.at
    ensures Sound(s, t.(at := t.at[key := now]))
  {
    assert t.at[key := now].Keys == t.at.Keys;
  }

  lemma NextIsSound(s: Settings, t: Table, c: Call)
    requires s.Valid() && Sound(s, t)
    ensures Sound(s, Next(s, t, c))
  {
    if Allows(s, t, c) {
      if c.key in t.at {
        UpdatingIsSound(s, t, c.key, c.now);
      } else if Victim(s, t, c).Some? {
        EvictingIsSound(s, t);
        OneKeyLess(t.at, t.order[0]);
        AddingIsSound(s, Table(t.order[1..], t.at - {t.order[0]}), c.key, c.now);
      } else {
        AddingIsSound(s, t, c.key, c.now);
      }
    }
    hide NoDuplicates, Allows;
  }

  // Tracked keys never exceed the maximum, and dictionary and order agree.
  lemma {:induction false} TableStaysBounded(s: Settings, calls: seq<Call>, n: nat)
    requires s.Valid() && n <= |calls|
    ensures Sound(s, Before(s, calls, n)) && |Before(s, calls, n).at| <= s.maxKeys
  {
    if n > 0 {
      hide Next, NoDuplicates;
      TableStaysBounded(s, calls, n - 1);
      NextIsSound(s, Before(s, calls, n - 1), calls[n - 1]);
    }
  }

  // ---- what the table remembers ---------------------------------------------------------

  // The latest allowed call for `key`, unless the key was pushed out since.
  function Remembered(s: Settings, calls: seq<Call>, n: nat, key: string): (r: Option<nat>)
    requires n <= |calls|
    ensures r.Some? ==> r.value < n && calls[r.value].key == key && Allowed(s, calls, r.value)
  {
    if n == 0 then None
    else if calls[n - 1].key == key && Allowed(s, calls, n - 1) then Some(n - 1)
    else if Evicts(s, calls, n - 1, key) then None
    else Remembered(s, calls, n - 1, key)
  }

  lemma LookupNext(s: Settings, t: Table, c: Call, key: string)
    requires Sound(s, t)
    ensures
      Lookup(Next(s, t, c), key)
      == if c.key == key && Allows(s, t, c) then Some(c.now)
         else if Victim(s, t, c) == Some(key) then None
         else Lookup(t, key)
  {
  }

  lemma LookupStep(s: Settings, calls: seq<Call>, i: nat, key: string)
    requires s.Valid() && i < |calls|
    ensures
      Lookup(Before(s, calls, i + 1), key)
      == if calls[i].key == key && Allowed(s, calls, i) then Some(calls[i].now)
         else if Evicts(s, calls, i, key) then None
         else Lookup(Before(s, calls, i), key)
  {
    hide Lookup, Allows, Victim, Sound, Next;
    TableStaysBounded(s, calls, i);
    LookupNext(s, Before(s, calls, i), calls[i], key);
  }

  // The table holds exactly the times of the remembered calls.
  lemma {:induction false} TableIsHistory(s: Settings, calls: seq<Call>, n: nat, key: string)
    requires s.Valid() && n <= |calls|
    ensures
      var r := Remembered(s, calls, n, key);
      Lookup(Before(s, calls, n), key) == if r.Some? then Some(calls[r.value].now) else None
  {
    if n > 0 {
      hide Before, Lookup, Allowed, Evicts;
      TableIsHistory(s, calls, n - 1, key);
      LookupStep(s, calls, n - 1, key);
    }
  }

  // ---- the promises ---------------------------------------------------------------------

  // Every suppressed call has a reason: the same key was let through less than
  // one interval before.
  lemma SuppressedHasWitness(s: Settings, calls: seq<Call>, i: nat)
    requires s.Valid() && i < |calls| && !Allowed(s, calls, i)
    ensures
      exists j :: 0 <= j < i && calls[j].key == calls[i].key && Allowed(s, calls, j)
                  && calls[i].now - calls[j].now < s.interval
  {
    TableIsHistory(s, calls, i, calls[i].key);
    var r := Remembered(s, calls, i, calls[i].key);
    assert Allowed(s, calls, r.value);
  }

  ghost predicate Nondecreasing(calls: seq<Call>) {
    forall i, j :: 0 <= i <= j < |calls| ==> calls[i].now <= calls[j].now
  }

  // Was `key` pushed out by one of the calls from `i` up to `j`?
  ghost predicate EvictedBetween(s: Settings, calls: seq<Call>, i: nat, j: nat, key: string)
    requires i <= j <= |calls|
  {
    exists k :: i <= k < j && Evicts(s, calls, k, key)
  }

  lemma {:induction false} StillRemembered(s: Settings, calls: seq<Call>, i: nat, n: nat)
    requires i < n <= |calls| && Allowed(s, calls, i) && !EvictedBetween(s, calls, i + 1, n, calls[i].key)
    ensures var r := Remembered(s, calls, n, calls[i].key); r.Some? && i <= r.value
    decreases n
  {
    hide Before, Allowed, Evicts;
    if i < n - 1 && !(calls[n - 1].key == calls[i].key && Allowed(s, calls, n - 1)) {
      assert !Evicts(s, calls, n - 1, calls[i].key);
      StillRemembered(s, calls, i, n - 1);
    }
  }

  // Two allowed calls for one key are an interval apart, unless the key was pushed
  // out in between.
  lemma AllowedCallsAreSpaced(s: Settings, calls: seq<Call>, i: nat, j: nat)
    requires s.Valid() && Nondecreasing(calls) && i < j < |calls| && calls[i].key == calls[j].key
    requires Allowed(s, calls, i) && Allowed(s, calls, j) && !EvictedBetween(s, calls, i + 1, j, calls[i].key)
    ensures calls[j].now - calls[i].now >= s.interval
  {
    StillRemembered(s, calls, i, j);
    TableIsHistory(s, calls, j, calls[j].key);
    var r := Remembered(s, calls, j, calls[j].key);
    assert calls[i].now <= calls[r.value].now;
  }

  function KeysOf(calls: seq<Call>): set<string> { set c | c in calls :: c.key }

  lemma {:induction false} TracksOnlyCallers(s: Settings, calls: seq<Call>, n: nat)
    requires s.Valid() && n <= |calls|
    ensures Before(s, calls, n).at.Keys <= KeysOf(calls)
  {
    if n > 0 {
      TracksOnlyCallers(s, calls, n - 1);
      assert calls[n - 1] in calls;
    }
  }

  // With at most `maxKeys` keys in use nothing is ever pushed out, so all allowed
  // calls of a key are an interval apart.
  lemma FewKeysAlwaysSpaced(s: Settings, calls: seq<Call>, i: nat, j: nat)
    requires s.Valid() && Nondecreasing(calls) && i < j < |calls| && calls[i].key == calls[j].key
    requires Allowed(s, calls, i) && Allowed(s, calls, j) && |KeysOf(calls)| <= s.maxKeys
    ensures calls[j].now - calls[i].now >= s.interval
  {
    forall k, key | i + 1 <= k < j
      ensures !Evicts(s, calls, k, key)
    {
      FewKeysNoEviction(s, calls, k);
    }
    AllowedCallsAreSpaced(s, calls, i, j);
  }

  lemma FewKeysNoEviction(s: Settings, calls: seq<Call>, k: nat)
    requires s.Valid() && k < |calls| && |KeysOf(calls)| <= s.maxKeys
    ensures Victim(s, Before(s, calls, k), calls[k]).None?
  {
    var t := Before(s, calls, k);
    TracksOnlyCallers(s, calls, k);
    assert calls[k] in calls;
    if calls[k].key !in t.at {
      SubsetSize(t.at.Keys + {calls[k].key}, KeysOf(calls));
      assert |t.at.Keys + {calls[k].key}| == |t.at.Keys| + 1;
    }
  }

  // ---- which key is pushed out ------------------------------------------------------------

  // The source's documentation promises eviction by last update.  The code evicts by
  // first insertion.

  // The call that last updated the key at place `i` of the table.
  function UpdateOf(s: Settings, calls: seq<Call>, n: nat, i: nat): int
    requires n <= |calls| && i < |Before(s, calls, n).order|
  {
    var r := Remembered(s, calls, n, Before(s, calls, n).order[i]);
    if r.Some? then r.value else -1
  }

  // The next key to be pushed out is the one that was not updated for longest, and so
  // on through the table.
  ghost predicate ByLastUpdate(s: Settings, calls: seq<Call>, n: nat)
    requires n <= |calls|
  {
    forall i, j :: 0 <= i < j < |Before(s, calls, n).order| ==> UpdateOf(s, calls, n, i) < UpdateOf(s, calls, n, j)
  }

  // The call updates a key that is in the table, but not as its newest.
  predicate Refreshes(s: Settings, calls: seq<Call>, n: nat)
    requires n < |calls|
  {
    var t := Before(s, calls, n);
    Allowed(s, calls, n) && calls[n].key in t.at && (t.order == [] || t.order[|t.order| - 1] != calls[n].key)
  }

  lemma UpdatesAreEarlier(s: Settings, calls: seq<Call>, n: nat, i: nat)
    requires s.Valid() && n <= |calls| && i < |Before(s, calls, n).order|
    ensures 0 <= UpdateOf(s, calls, n, i) < n
  {
    TableStaysBounded(s, calls, n);
    var t := Before(s, calls, n);
    assert t.order[i] in t.order;
    TableIsHistory(s, calls, n, t.order[i]);
  }

  // What one call does to the places of the table.
  lemma PlacesMove(s: Settings, calls: seq<Call>, n: nat)
    requires s.Valid() && n < |calls|
    ensures
      var t, d, c := Before(s, calls, n), Before(s, calls, n + 1), calls[n];
      if !Allowed(s, calls, n) then d == t
      else if c.key in t.at then d.order == t.order
      else if Victim(s, t, c).Some?
      then t.order != [] && d.order == t.order[1..] + [c.key] && Victim(s, t, c).value == t.order[0]
      else d.order == t.order + [c.key]
  {
    hide Sound;
  }

  lemma UpdateStays(s: Settings, calls: seq<Call>, n: nat, key: string)
    requires n < |calls|
    ensures
      Remembered(s, calls, n + 1, key)
      == if calls[n].key == key && Allowed(s, calls, n) then Some(n)
         else if Evicts(s, calls, n, key) then None
         else Remembered(s, calls, n, key)
  {
  }

  // The place in the old table of a key that stays.
  function Earlier(s: Settings, calls: seq<Call>, n: nat, i: nat): nat
    requires n < |calls|
  {
    if Victim(s, Before(s, calls, n), calls[n]).Some? then i + 1 else i
  }

  lemma KeptPlace(s: Settings, calls: seq<Call>, n: nat, i: nat)
    requires s.Valid() && n < |calls| && i < |Before(s, calls, n + 1).order|
    ensures
      var t, d := Before(s, calls, n), Before(s, calls, n + 1);
      if Allowed(s, calls, n) && d.order[i] == calls[n].key
      then UpdateOf(s, calls, n + 1, i) == n
      else Earlier(s, calls, n, i) < |t.order| && t.order[Earlier(s, calls, n, i)] == d.order[i]
           && UpdateOf(s, calls, n + 1, i) == UpdateOf(s, calls, n, Earlier(s, calls, n, i))
  {
    hide Before, Allowed;
    PlacesMove(s, calls, n);
    TableStaysBounded(s, calls, n);
    var t, d := Before(s, calls, n), Before(s, calls, n + 1);
    UpdateStays(s, calls, n, d.order[i]);
    hide Remembered, Allows;
    assert Victim(s, t, calls[n]).Some? ==> Allowed(s, calls, n) && calls[n].key !in t.at by { AllowedIs(s, calls, n); }
  }

  lemma AllowedIs(s: Settings, calls: seq<Call>, n: nat)
    requires n < |calls|
    ensures Allowed(s, calls, n) == Allows(s, Before(s, calls, n), calls[n])
  {
  }

  lemma StaysByLastUpdate(s: Settings, calls: seq<Call>, n: nat)
    requires s.Valid() && n < |calls| && ByLastUpdate(s, calls, n) && !Refreshes(s, calls, n)
    ensures ByLastUpdate(s, calls, n + 1)
  {
    var t, d, c := Before(s, calls, n), Before(s, calls, n + 1), calls[n];
    PlacesMove(s, calls, n);
    TableStaysBounded(s, calls, n);
    TableStaysBounded(s, calls, n + 1);
    var m := n + 1;
    forall i, j | 0 <= i < j < |d.order|
      ensures UpdateOf(s, calls, m, i) < UpdateOf(s, calls, m, j)
    {
      hide Before, Allows, UpdateOf, Victim;
      KeptPlace(s, calls, n, i);
      KeptPlace(s, calls, n, j);
      assert d.order[i] != d.order[j];
      if Allowed(s, calls, n) && d.order[j] == c.key {
        UpdatesAreEarlier(s, calls, n, Earlier(s, calls, n, i));
      } else {
        assert !(Allowed(s, calls, n) && d.order[i] == c.key);
      }
    }
  }

  lemma RefreshingDisorders(s: Settings, calls: seq<Call>, n: nat)
    requires s.Valid() && n < |calls| && Refreshes(s, calls, n)
    ensures !ByLastUpdate(s, calls, n + 1)
  {
    hide Before, Allowed, Next, Victim, UpdateOf, Sound, Refreshes;
    var i, last := RefreshedPlace(s, calls, n);
    KeptPlace(s, calls, n, i);
    KeptPlace(s, calls, n, last);
    UpdatesAreEarlier(s, calls, n, last);
    assert UpdateOf(s, calls, n + 1, i) == n > UpdateOf(s, calls, n + 1, last);
  }

  // A refresh keeps every place, and that of its key is not the last one.
  lemma RefreshedPlace(s: Settings, calls: seq<Call>, n: nat) returns (i: nat, last: nat)
    requires s.Valid() && n < |calls| && Refreshes(s, calls, n)
    ensures
      var t, d := Before(s, calls, n), Before(s, calls, n + 1);
      && i < last < |t.order| && d.order == t.order && t.order[i] == calls[n].key != t.order[last]
      && Allowed(s, calls, n) && Earlier(s, calls, n, last) == last
  {
    var t := Before(s, calls, n);
    PlacesMove(s, calls, n);
    TableStaysBounded(s, calls, n);
    AllowedIs(s, calls, n);
    hide Before, Allows, Next;
    assert calls[n].key in t.order;
    i :| 0 <= i < |t.order| && t.order[i] == calls[n].key;
    last := |t.order| - 1;
  }

  lemma {:induction false} OrderedUpTo(s: Settings, calls: seq<Call>, n: nat)
    requires s.Valid() && n <= |calls| && forall i :: 0 <= i < n ==> !Refreshes(s, calls, i)
    ensures ByLastUpdate(s, calls, n)
  {
    if n > 0 {
      OrderedUpTo(s, calls, n - 1);
      StaysByLastUpdate(s, calls, n - 1);
    }
  }

  // Over any history: keys are pushed out by last update at every moment exactly if no
  // call ever updated a tracked key other than the newest one.
  lemma EvictsByLastUpdateExactly(s: Settings, calls: seq<Call>)
    requires s.Valid()
    ensures
      (forall n :: 0 <= n <= |calls| ==> ByLastUpdate(s, calls, n))
      <==> (forall i :: 0 <= i < |calls| ==> !Refreshes(s, calls, i))
  {
    hide ByLastUpdate, Refreshes;
    if i :| 0 <= i < |calls| && Refreshes(s, calls, i) {
      RefreshingDisorders(s, calls, i);
    } else {
      forall n | 0 <= n <= |calls|
        ensures ByLastUpdate(s, calls, n)
      {
        OrderedUpTo(s, calls, n);
      }
    }
  }

  const TWO_KEYS := Settings(1.0, 2)
  const REFRESHED := [Call("a", 0.0), Call("b", 0.0), Call("a", 1.0), Call("c", 1.0), Call("a", 1.0)]

  // With room for two keys: "a" is let through at 1.0, pushed out for "c" in favour of
  // the older "b", and let through again at 1.0.
  lemma FreshlyUpdatedKeyIsEvicted()
    ensures
      && Refreshes(TWO_KEYS, REFRESHED, 2) && Evicts(TWO_KEYS, REFRESHED, 3, "a")
      && Allowed(TWO_KEYS, REFRESHED, 2) && Allowed(TWO_KEYS, REFRESHED, 4)
  {
    hide Before, Next, Allows, Victim;
    TwoInserted();
    ThenRefreshed();
    ThenPushedOut();
    Inserts(TWO_KEYS, PUSHED, REFRESHED[4]);
  }

  const FULL := Table(["a", "b"], map["a" := 0.0, "b" := 0.0])
  const UPDATED := Table(["a", "b"], map["a" := 1.0, "b" := 0.0])
  const PUSHED := Table(["b", "c"], map["b" := 0.0, "c" := 1.0])

  lemma TwoInserted()
    ensures Before(TWO_KEYS, REFRESHED, 2) == FULL
  {
    hide Before, Next, Allows, Victim;
    var t1 := Table(["a"], map["a" := 0.0]);
    BeforeIs(TWO_KEYS, REFRESHED, 0);
    BeforeIs(TWO_KEYS, REFRESHED, 1);
    Inserts(TWO_KEYS, EMPTY, REFRESHED[0]);
    Inserts(TWO_KEYS, t1, REFRESHED[1]);
    assert EMPTY.order + ["a"] == t1.order && t1.order + ["b"] == FULL.order;
    assert EMPTY.at["a" := 0.0] == t1.at && t1.at["b" := 0.0] == FULL.at;
  }

  lemma ThenRefreshed()
    requires Before(TWO_KEYS, REFRESHED, 2) == FULL
    ensures Before(TWO_KEYS, REFRESHED, 3) == UPDATED && Allows(TWO_KEYS, FULL, REFRESHED[2])
  {
    hide Before, Next, Allows, Victim;
    BeforeIs(TWO_KEYS, REFRESHED, 2);
    Updates(TWO_KEYS, FULL, REFRESHED[2]);
    assert FULL.at["a" := 1.0] == UPDATED.at;
  }

  lemma ThenPushedOut()
    requires Before(TWO_KEYS, REFRESHED, 3) == UPDATED
    ensures Before(TWO_KEYS, REFRESHED, 4) == PUSHED && Victim(TWO_KEYS, UPDATED, REFRESHED[3]) == Some("a")
  {
    hide Before, Next, Allows, Victim;
    BeforeIs(TWO_KEYS, REFRESHED, 3);
    PushesOut(TWO_KEYS, UPDATED, REFRESHED[3]);
    assert UPDATED.order[1..] == ["b"] && ["b"] + ["c"] == PUSHED.order;
    assert (UPDATED.at - {"a"})["c" := 1.0] == PUSHED.at;
  }

  lemma BeforeIs(s: Settings, calls: seq<Call>, n: nat)
    requires n < |calls|
    ensures Before(s, calls, 0) == EMPTY && Before(s, calls, n + 1) == Next(s, Before(s, calls, n), calls[n])
  {
  }

  lemma Inserts(s: Settings, t: Table, c: Call)
    requires c.key !in t.at
    ensures Allows(s, t, c)
    ensures |t.at| < s.maxKeys ==> Next(s, t, c) == Table(t.order + [c.key], t.at[c.key := c.now])
  {
  }

  lemma Updates(s: Settings, t: Table, c: Call)
    requires c.key in t.at && c.now - t.at[c.key] >= s.interval
    ensures Allows(s, t, c) && Next(s, t, c) == t.(at := t.at[c.key := c.now])
  {
  }

  lemma PushesOut(s: Settings, t: Table, c: Call)
    requires c.key !in t.at && |t.at| >= s.maxKeys && t.order != []
    ensures Victim(s, t, c) == Some(t.order[0])
    ensures Next(s, t, c) == Table(t.order[1..] + [c.key], (t.at - {t.order[0]})[c.key := c.now])
  {
  }

  // ---- the object ---------------------------------------------------------------------------

  class WarningRateLimiter {
    const settings: Settings
    var order: seq<string>
    var lastLoggedAt: map<string, real>

    ghost function View(): Table
      reads this
    {
      Table(order, lastLoggedAt)
    }

    // The constructor raises for values that are not positive.
    constructor (s: Settings)
      requires s.Valid()
      ensures settings == s && View() == EMPTY
    {
      settings := s;
      order, lastLoggedAt := [], map[];
    }

    method ShouldLog(key: string, now: real) returns (allowed: bool)
      requires settings.Valid() && Sound(settings, View())
      modifies this
      ensures allowed == Allows(settings, old(View()), Call(key, now))
      ensures View() == Next(settings, old(View()), Call(key, now))
      ensures Sound(settings, View())
    {
      NextIsSound(settings, View(), Call(key, now));
      if key !in lastLoggedAt || now - lastLoggedAt[key] >= settings.interval {
        if key !in lastLoggedAt {
          if |lastLoggedAt| >= settings.maxKeys {
            var oldestKey := order[0];
            lastLoggedAt := lastLoggedAt - {oldestKey};
            order := order[1..];
          }
          order := order + [key];
        }
        lastLoggedAt := lastLoggedAt[key := now];
        return true;
      }
      return false;
    }
  }
}

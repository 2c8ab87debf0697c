/**
 The TTL memory of a department head (head_memory_base.py). The dictionary is a sequence of items in insertion
 order; what it means is a set of live items with a capacity.
*/
module HeadMemory {
  import opened SharedTypes
  import opened Numerics

  datatype Item<V> = Item(key: string, value: V, createdAt: real, expiresAt: real)
  {
    predicate Expired(now: real) {
      now >= expiresAt
    }
  }

  datatype Config = Config(defaultTtl: int, maxItems: int, autoCleanup: bool)

  function TtlOf(config: Config, ttl: Option<int>): int {
    if ttl.Some? then ttl.value else config.defaultTtl
  }

  function NewItem<V>(key: string, value: V, ttl: int, now: real): Item<V> {
    Item(key, value, now, now + ttl as real)
  }

  // ----- The dictionary -----

  ghost predicate DistinctKeys<V>(items: seq<Item<V>>) {
    forall i, j :: 0 <= i < j < |items| ==> items[i].key != items[j].key
  }

  function IndexOf<V>(items: seq<Item<V>>, key: string): (r: int)
    ensures -1 <= r < |items|
    ensures r >= 0 ==> items[r].key == key
    ensures r == -1 ==> forall i :: 0 <= i < |items| ==> items[i].key != key
  {
    if items == [] then -1
    else if items[|items| - 1].key == key then |items| - 1
    else IndexOf(items[..|items| - 1], key)
  }

  function RemoveAt<V>(items: seq<Item<V>>, i: nat): seq<Item<V>>
    requires i < |items|
  {
    items[..i] + items[i + 1..]
  }

  function Put<V>(items: seq<Item<V>>, item: Item<V>): seq<Item<V>> {
    var i := IndexOf(items, item.key);
    if i >= 0 then items[i := item] else items + [item]
  }

  function Without<V>(items: seq<Item<V>>, key: string): seq<Item<V>> {
    var i := IndexOf(items, key);
    if i >= 0 then RemoveAt(items, i) else items
  }

  /** The first oldest item, among the expired ones only if `expiredOnly`; -1 if there is none. */
  function Oldest<V>(items: seq<Item<V>>, now: real, expiredOnly: bool): (r: int)
    ensures -1 <= r < |items|
    ensures r >= 0 ==> (expiredOnly ==> items[r].Expired(now))
    ensures r >= 0 ==> forall i :: 0 <= i < |items| && (expiredOnly ==> items[i].Expired(now)) ==>
                         items[r].createdAt <= items[i].createdAt
    ensures forall i :: 0 <= i < r && (expiredOnly ==> items[i].Expired(now)) ==>
              items[r].createdAt < items[i].createdAt
    ensures r == -1 ==> forall i :: 0 <= i < |items| ==> expiredOnly && !items[i].Expired(now)
  {
    if items == [] then -1
    else
      var n := |items| - 1;
      var r := Oldest(items[..n], now, expiredOnly);
      if expiredOnly && !items[n].Expired(now) then r
      else if r == -1 || items[n].createdAt < items[r].createdAt then n
      else r
  }

  function Victim<V>(items: seq<Item<V>>, now: real): (r: int)
    ensures -1 <= r < |items|
    ensures items != [] ==> r >= 0
  {
    var e := Oldest(items, now, true);
    if e >= 0 then e else Oldest(items, now, false)
  }

  function EvictOldest<V>(items: seq<Item<V>>, now: real): seq<Item<V>> {
    var v := Victim(items, now);
    if v >= 0 then RemoveAt(items, v) else items
  }

  function MadeRoom<V>(items: seq<Item<V>>, maxItems: int, key: string, now: real): seq<Item<V>> {
    if |items| >= maxItems && IndexOf(items, key) == -1 then EvictOldest(items, now) else items
  }

  function Unexpired<V>(items: seq<Item<V>>, now: real): seq<Item<V>> {
    if items == [] then []
    else
      var last := items[|items| - 1];
      Unexpired(items[..|items| - 1], now) + (if last.Expired(now) then [] else [last])
  }

  function RecallOf<V>(items: seq<Item<V>>, key: string, now: real): Option<V> {
    var i := IndexOf(items, key);
    if i >= 0 && !items[i].Expired(now) then Some(items[i].value) else None
  }

  // ----- The object -----

  class HeadMemoryStore<V> {
    const config: Config
    var items: seq<Item<V>>

    constructor (config: Config)
      ensures this.config == config && items == []
    {
      this.config := config;
      items := [];
    }

    /** A TTL that is not positive is refused (ValueError in the original). */
    method Remember(key: string, value: V, ttl: Option<int>, now: real) returns (ok: bool)
      modifies this
      ensures ok <==> TtlOf(config, ttl) > 0
      ensures items == StoreStep(old(items), config, RememberOp(key, value, ttl), now)
    {
      var seconds := TtlOf(config, ttl);
      if seconds <= 0 {
        return false;
      }
      var item := NewItem(key, value, seconds, now);
      if |items| >= config.maxItems && IndexOf(items, key) == -1 {
        items := EvictOldest(items, now);
      }
      items := Put(items, item);
      return true;
    }

    method Recall(key: string, now: real) returns (r: Option<V>)
      modifies this
      ensures r == RecallOf(old(items), key, now)
      ensures items == StoreStep(old(items), config, RecallOp(key), now)
    {
      var i := IndexOf(items, key);
      if i == -1 {
        return None;
      }
      if items[i].Expired(now) {
        if config.autoCleanup {
          var _ := Forget(key);
        }
        return None;
      }
      return Some(items[i].value);
    }

    method Forget(key: string) returns (removed: bool)
      modifies this
      ensures removed <==> IndexOf(old(items), key) >= 0
      ensures items == Without(old(items), key)
    {
      var i := IndexOf(items, key);
      removed := i >= 0;
      if removed {
        items := RemoveAt(items, i);
      }
    }

    method ClearExpired(now: real) returns (count: nat)
      modifies this
      ensures items == Unexpired(old(items), now)
      ensures count == |old(items)| - |items|
    {
      var kept: seq<Item<V>> := [];
      for i := 0 to |items|
        invariant kept == Unexpired(items[..i], now) && |kept| <= i
        invariant items == old(items)
      {
        assert items[..i + 1][..i] == items[..i];
        if !items[i].Expired(now) {
          kept := kept + [items[i]];
        }
      }
      assert items[..|items|] == items;
      count := |items| - |kept|;
      items := kept;
    }

    method GetContext(clearExpiredFirst: bool, now: real) returns (context: seq<(string, V)>)
      modifies this
      ensures items == StoreStep(old(items), config, ContextOp(clearExpiredFirst), now)
      ensures |context| == |items|
      ensures forall i :: 0 <= i < |items| ==> context[i] == (items[i].key, items[i].value)
    {
      if clearExpiredFirst {
        var _ := ClearExpired(now);
      }
      context := [];
      for i := 0 to |items|
        invariant |context| == i
        invariant forall j :: 0 <= j < i ==> context[j] == (items[j].key, items[j].value)
      {
        context := context + [(items[i].key, items[i].value)];
      }
    }

    method Clear()
      modifies this
      ensures items == []
    {
      items := [];
    }
  }

  // ----- Runs of the store, and what they mean -----

  datatype Op<V> =
    | RememberOp(key: string, value: V, ttl: Option<int>)
    | RecallOp(key: string)
    | ForgetOp(key: string)
    | CleanOp
    | ContextOp(clearExpiredFirst: bool)

  datatype Call<V> = Call(op: Op<V>, now: real)

  function StoreStep<V>(items: seq<Item<V>>, config: Config, op: Op<V>, now: real): seq<Item<V>> {
    match op
    case RememberOp(key, value, ttl) =>
      var seconds := TtlOf(config, ttl);
      if seconds <= 0 then items
      else Put(MadeRoom(items, config.maxItems, key, now), NewItem(key, value, seconds, now))
    case RecallOp(key) =>
      var i := IndexOf(items, key);
      if i >= 0 && items[i].Expired(now) && config.autoCleanup then RemoveAt(items, i) else items
    case ForgetOp(key) => Without(items, key)
    case CleanOp => Unexpired(items, now)
    case ContextOp(clearFirst) => if clearFirst then Unexpired(items, now) else items
  }

  ghost function Live<V>(items: seq<Item<V>>, now: real): set<Item<V>> {
    set x | x in items && !x.Expired(now)
  }

  ghost function Prune<V>(live: set<Item<V>>, now: real): set<Item<V>> {
    set x | x in live && !x.Expired(now)
  }

  ghost function NotKeyed<V>(live: set<Item<V>>, key: string): set<Item<V>> {
    set x | x in live && x.key != key
  }

  ghost predicate IsOldest<V>(live: set<Item<V>>, x: Item<V>) {
    x in live && forall y :: y in live ==> x.createdAt <= y.createdAt
  }

  ghost predicate IsOldestDropped<V(!new)>(live: set<Item<V>>, item: Item<V>, next: set<Item<V>>) {
    exists x :: IsOldest(live, x) && next == live - {x} + {item}
  }

  /** 0 is documented as "unlimited", but the code keeps one item: 0 and below act as 1. */
  function Capacity(config: Config): nat {
    MaxI(1, config.maxItems)
  }

  /**
   The simple live map: expired entries are gone, a known key is replaced, and only a new key that meets
   `Capacity` live entries pushes out the oldest of them. Everything but remembering and forgetting is a no-op.
  */
  ghost predicate LiveStep<V(!new)>(live: set<Item<V>>, config: Config, op: Op<V>, now: real, next: set<Item<V>>) {
    match op
    case RememberOp(key, value, ttl) =>
      var seconds := TtlOf(config, ttl);
      if seconds <= 0 then next == live
      else
        var now1 := Prune(live, now);
        var item := NewItem(key, value, seconds, now);
        if (exists x :: x in now1 && x.key == key) || |now1| < Capacity(config) then
          next == NotKeyed(now1, key) + {item}
        else
          IsOldestDropped(now1, item, next)
    case ForgetOp(key) => next == NotKeyed(live, key)
    case _ => next == live
  }

  ghost predicate ValidItems<V>(items: seq<Item<V>>, config: Config) {
    DistinctKeys(items) && |items| <= Capacity(config)
  }

  // ----- One step -----

  lemma {:induction false} UnexpiredMembers<V>(items: seq<Item<V>>, now: real)
    ensures forall x :: x in Unexpired(items, now) ==> x in items && !x.Expired(now)
    ensures forall x :: x in items && !x.Expired(now) ==> x in Unexpired(items, now)
    ensures |Unexpired(items, now)| <= |items|
  {
    if items != [] {
      var init, last := items[..|items| - 1], items[|items| - 1];
      UnexpiredMembers(init, now);
      assert items == init + [last];
    }
  }

  lemma {:induction false} UnexpiredIsExact<V>(items: seq<Item<V>>, now: real)
    requires DistinctKeys(items)
    ensures forall x :: x in Unexpired(items, now) ==> x in items && !x.Expired(now)
    ensures forall x :: x in items && !x.Expired(now) ==> x in Unexpired(items, now)
    ensures |Unexpired(items, now)| <= |items|
    ensures DistinctKeys(Unexpired(items, now))
  {
    UnexpiredMembers(items, now);
    if items != [] {
      var n := |items| - 1;
      UnexpiredIsExact(items[..n], now);
      var init := items[..n];
      var u := Unexpired(init, now);
      UnexpiredMembers(init, now);
      forall x | x in u ensures x.key != items[n].key {
        assert x in init;
        var k :| 0 <= k < n && items[k] == x;
      }
    }
  }

  lemma RemoveAtMembers<V>(items: seq<Item<V>>, i: nat)
    requires i < |items| && DistinctKeys(items)
    ensures DistinctKeys(RemoveAt(items, i))
    ensures forall x :: x in RemoveAt(items, i) <==> x in items && x.key != items[i].key
    ensures |RemoveAt(items, i)| == |items| - 1
  {
  }

  lemma PutMembers<V>(items: seq<Item<V>>, item: Item<V>)
    requires DistinctKeys(items)
    ensures DistinctKeys(Put(items, item))
    ensures forall x :: x in Put(items, item) <==> x == item || (x in items && x.key != item.key)
    ensures |Put(items, item)| == if IndexOf(items, item.key) >= 0 then |items| else |items| + 1
  {
    var i, r := IndexOf(items, item.key), Put(items, item);
    forall x | x in items && x.key != item.key ensures x in r {
      var k :| 0 <= k < |items| && items[k] == x;
      assert r[k] == x;
    }
    assert r[if i >= 0 then i else |items|] == item;
    forall x | x in r ensures x == item || (x in items && x.key != item.key) {
      var k :| 0 <= k < |r| && r[k] == x;
      assert k < |items| && k != i ==> r[k] == items[k];
    }
  }

  /** Distinct keys make the live set as large as the list of live items. */
  lemma {:induction false} LiveSize<V>(items: seq<Item<V>>, now: real)
    requires DistinctKeys(items)
    ensures |Live(items, now)| <= |items|
    ensures (exists x :: x in items && x.Expired(now)) ==> |Live(items, now)| < |items|
    ensures (forall x :: x in items ==> !x.Expired(now)) ==> |Live(items, now)| == |items|
  {
    if items == [] {
      assert Live(items, now) == {};
    } else {
      var n := |items| - 1;
      var init, last := items[..n], items[n];
      assert items == init + [last];
      LiveSize(init, now);
      assert last !in init;
      assert Live(items, now) == Live(init, now) + (if last.Expired(now) then {} else {last});
      assert last !in Live(init, now);
      hide Live, DistinctKeys;
    }
  }

  lemma MakingRoom<V>(items: seq<Item<V>>, config: Config, key: string, now: real)
    requires ValidItems(items, config)
    ensures var m := MadeRoom(items, config.maxItems, key, now);
            && ValidItems(m, config)
            && (IndexOf(m, key) == -1 ==> |m| < Capacity(config))
            && (forall x :: x in m ==> x in items)
  {
  }

  lemma StepKeepsItemsValid<V>(items: seq<Item<V>>, config: Config, op: Op<V>, now: real)
    requires ValidItems(items, config)
    ensures ValidItems(StoreStep(items, config, op, now), config)
  {
    hide DistinctKeys, IndexOf, Put, MadeRoom, Unexpired, RemoveAt;
    match op {
      case RememberOp(key, value, ttl) =>
        MakingRoom(items, config, key, now);
        PutMembers(MadeRoom(items, config.maxItems, key, now), NewItem(key, value, TtlOf(config, ttl), now));
      case RecallOp(key) =>
        if IndexOf(items, key) >= 0 {
          RemoveAtMembers(items, IndexOf(items, key));
        }
      case ForgetOp(key) =>
        if IndexOf(items, key) >= 0 {
          RemoveAtMembers(items, IndexOf(items, key));
        }
      case _ =>
        UnexpiredIsExact(items, now);
    }
  }

  lemma KeyIdentifies<V>(items: seq<Item<V>>, i: nat)
    requires i < |items| && DistinctKeys(items)
    ensures forall x :: x in items ==> (x.key == items[i].key <==> x == items[i])
  {
  }

  lemma UnknownKey<V>(items: seq<Item<V>>, key: string)
    requires IndexOf(items, key) == -1
    ensures forall x :: x in items ==> x.key != key
  {
  }

  lemma LiveAfterRemoval<V>(items: seq<Item<V>>, i: nat, now: real)
    requires i < |items| && DistinctKeys(items)
    ensures Live(RemoveAt(items, i), now) == Live(items, now) - {items[i]}
    ensures Live(RemoveAt(items, i), now) == NotKeyed(Live(items, now), items[i].key)
  {
  }

  lemma KeyedItem<V>(items: seq<Item<V>>, key: string, now: real)
    requires DistinctKeys(items)
    ensures (exists x :: x in Live(items, now) && x.key == key)
            <==> IndexOf(items, key) >= 0 && !items[IndexOf(items, key)].Expired(now)
  {
  }

  lemma ExpiredVictim<V>(items: seq<Item<V>>, now: real)
    requires DistinctKeys(items) && Oldest(items, now, true) >= 0
    ensures |Live(items, now)| < |items|
    ensures Live(EvictOldest(items, now), now) == Live(items, now)
  {
    var v := Victim(items, now);
    assert items[v] in items;
    LiveSize(items, now);
    LiveAfterRemoval(items, v, now);
  }

  lemma LiveVictim<V>(items: seq<Item<V>>, now: real)
    requires DistinctKeys(items) && items != [] && Oldest(items, now, true) == -1
    ensures |Live(items, now)| == |items|
    ensures IsOldest(Live(items, now), items[Victim(items, now)])
    ensures Live(EvictOldest(items, now), now) == Live(items, now) - {items[Victim(items, now)]}
  {
    var v := Victim(items, now);
    forall x | x in items ensures !x.Expired(now) && items[v].createdAt <= x.createdAt {
      var k :| 0 <= k < |items| && items[k] == x;
    }
    LiveSize(items, now);
    LiveAfterRemoval(items, v, now);
  }

  /** A new key at capacity: an expired victim leaves the live set alone, a live victim is its oldest member. */
  lemma EvictionMeaning<V>(items: seq<Item<V>>, config: Config, key: string, now: real)
    requires ValidItems(items, config) && IndexOf(items, key) == -1
    ensures var before, after := Live(items, now), Live(MadeRoom(items, config.maxItems, key, now), now);
            if |before| < Capacity(config) then after == before
            else exists x :: IsOldest(before, x) && after == before - {x}
  {
    LiveSize(items, now);
    if items != [] && |items| >= config.maxItems {
      if Oldest(items, now, true) >= 0 {
        ExpiredVictim(items, now);
      } else {
        LiveVictim(items, now);
      }
    }
  }

  lemma LiveAfterPut<V>(items: seq<Item<V>>, item: Item<V>, now: real)
    requires DistinctKeys(items) && !item.Expired(now)
    ensures Live(Put(items, item), now) == NotKeyed(Live(items, now), item.key) + {item}
  {
    PutMembers(items, item);
  }

  lemma RememberRefines<V(!new)>(items: seq<Item<V>>, config: Config, key: string, value: V, ttl: Option<int>,
                                 now: real)
    requires ValidItems(items, config) && TtlOf(config, ttl) > 0
    ensures LiveStep(Live(items, now), config, RememberOp(key, value, ttl), now,
                     Live(StoreStep(items, config, RememberOp(key, value, ttl), now), now))
  {
    hide MadeRoom, Put, Capacity;
    var item := NewItem(key, value, TtlOf(config, ttl), now);
    var m := MadeRoom(items, config.maxItems, key, now);
    var live := Live(items, now);
    assert Prune(live, now) == live;
    MakingRoom(items, config, key, now);
    LiveAfterPut(m, item, now);
    if IndexOf(items, key) >= 0 {
      KnownKeyNeedsNoRoom(items, config, key, now);
    } else {
      UnknownKey(items, key);
      assert NotKeyed(live, key) == live;
      assert NotKeyed(Live(m, now), key) == Live(m, now);
      assert !exists x :: x in live && x.key == key;
      EvictionMeaning(items, config, key, now);
    }
  }

  lemma KnownKeyNeedsNoRoom<V>(items: seq<Item<V>>, config: Config, key: string, now: real)
    requires ValidItems(items, config) && IndexOf(items, key) >= 0
    ensures MadeRoom(items, config.maxItems, key, now) == items
    ensures (exists x :: x in Live(items, now) && x.key == key) || |Live(items, now)| < Capacity(config)
  {
    KeyedItem(items, key, now);
    LiveSize(items, now);
    assert items[IndexOf(items, key)] in items;
  }

  lemma ForgetRefines<V>(items: seq<Item<V>>, key: string, now: real)
    requires DistinctKeys(items)
    ensures Live(Without(items, key), now) == NotKeyed(Live(items, now), key)
  {
  }

  /** Each call of the store is a step of the live map, for every capacity, positive or not. */
  lemma StoreRefinesLiveMap<V(!new)>(items: seq<Item<V>>, config: Config, op: Op<V>, now: real)
    requires ValidItems(items, config)
    ensures LiveStep(Live(items, now), config, op, now, Live(StoreStep(items, config, op, now), now))
  {
    hide MadeRoom, Put, Without, Unexpired;
    match op {
      case RememberOp(key, value, ttl) =>
        if TtlOf(config, ttl) > 0 {
          RememberRefines(items, config, key, value, ttl, now);
        }
      case RecallOp(key) =>
        var i := IndexOf(items, key);
        if i >= 0 {
          LiveAfterRemoval(items, i, now);
        }
      case ForgetOp(key) => ForgetRefines(items, key, now);
      case CleanOp =>
        UnexpiredIsExact(items, now);
        assert Live(Unexpired(items, now), now) == Live(items, now);
      case ContextOp(clearFirst) =>
        UnexpiredIsExact(items, now);
        assert Live(Unexpired(items, now), now) == Live(items, now);
    }
  }

  /** What is stored after a call that does not remember: an expired item leaves only when it is cleaned up. */
  lemma StoredAfterCall<V>(items: seq<Item<V>>, config: Config, op: Op<V>, now: real, x: Item<V>)
    requires DistinctKeys(items) && !op.RememberOp?
    ensures x in StoreStep(items, config, op, now) <==>
            && x in items
            && (op.ForgetOp? ==> x.key != op.key)
            && (op.RecallOp? && config.autoCleanup && x.key == op.key ==> now < x.expiresAt)
            && (op.CleanOp? || (op.ContextOp? && op.clearExpiredFirst) ==> now < x.expiresAt)
  {
    hide Unexpired, Put, MadeRoom, IndexOf, RemoveAt, DistinctKeys;
    if op.RecallOp? || op.ForgetOp? {
      var i := IndexOf(items, op.key);
      if i >= 0 {
        RemoveAtMembers(items, i);
        KeyIdentifies(items, i);
      } else {
        UnknownKey(items, op.key);
      }
    } else {
      UnexpiredMembers(items, now);
    }
  }

  // ----- Whole runs -----

  function StoreRun<V>(config: Config, calls: seq<Call<V>>): seq<Item<V>> {
    if calls == [] then []
    else
      var last := calls[|calls| - 1];
      StoreStep(StoreRun(config, calls[..|calls| - 1]), config, last.op, last.now)
  }

  /** The live map as a function: with distinct creation times there is exactly one oldest entry to drop. */
  ghost function NextLive<V>(live: set<Item<V>>, config: Config, op: Op<V>, now: real): set<Item<V>> {
    match op
    case RememberOp(key, value, ttl) =>
      var seconds := TtlOf(config, ttl);
      if seconds <= 0 then live
      else
        var now1 := Prune(live, now);
        var item := NewItem(key, value, seconds, now);
        if (exists x :: x in now1 && x.key == key) || |now1| < Capacity(config) then
          NotKeyed(now1, key) + {item}
        else
          (set x | x in now1 && !IsOldest(now1, x)) + {item}
    case ForgetOp(key) => NotKeyed(live, key)
    case _ => live
  }

  ghost function LiveRun<V>(config: Config, calls: seq<Call<V>>): set<Item<V>> {
    if calls == [] then {}
    else
      var last := calls[|calls| - 1];
      NextLive(LiveRun(config, calls[..|calls| - 1]), config, last.op, last.now)
  }

  /** The clock never runs backwards, and no two remembered items share a creation time. */
  ghost predicate Timed<V>(calls: seq<Call<V>>) {
    && (forall i, j :: 0 <= i < j < |calls| ==> calls[i].now <= calls[j].now)
    && (forall i, j :: 0 <= i < j < |calls| && calls[i].op.RememberOp? && calls[j].op.RememberOp? ==>
          calls[i].now < calls[j].now)
  }

  ghost predicate DistinctTimes<V>(live: set<Item<V>>) {
    forall x, y :: x in live && y in live && x.createdAt == y.createdAt ==> x == y
  }

  lemma {:induction false} CreatedByCalls<V>(config: Config, calls: seq<Call<V>>)
    requires Timed(calls)
    ensures DistinctTimes(LiveRun(config, calls))
    ensures forall x :: x in LiveRun(config, calls) ==>
              exists i :: 0 <= i < |calls| && calls[i].op.RememberOp? && calls[i].now == x.createdAt
  {
    if calls != [] {
      var n := |calls| - 1;
      CreatedByCalls(config, calls[..n]);
      var before, after := LiveRun(config, calls[..n]), LiveRun(config, calls);
      forall x | x in after
        ensures x in before || (calls[n].op.RememberOp? && x.createdAt == calls[n].now)
        ensures exists i :: 0 <= i < |calls| && calls[i].op.RememberOp? && calls[i].now == x.createdAt
      {
        if x in before {
          var i :| 0 <= i < n && calls[..n][i].op.RememberOp? && calls[..n][i].now == x.createdAt;
          assert calls[i] == calls[..n][i];
        }
      }
      AtMostOneNew(calls, before, after);
    }
  }

  lemma AtMostOneNew<V>(calls: seq<Call<V>>, before: set<Item<V>>, after: set<Item<V>>)
    requires calls != [] && Timed(calls) && DistinctTimes(before)
    requires forall x :: x in before ==>
               exists i :: 0 <= i < |calls| - 1 && calls[i].op.RememberOp? && calls[i].now == x.createdAt
    requires var last := calls[|calls| - 1];
             after <= before
             || (last.op.RememberOp? && exists item :: after <= before + {item} && item.createdAt == last.now)
    ensures DistinctTimes(after)
  {
  }

  lemma RememberFollowsLiveMap<V(!new)>(live: set<Item<V>>, config: Config, item: Item<V>, now: real,
                                        next: set<Item<V>>)
    requires DistinctTimes(live) && !item.Expired(now)
    requires IsOldestDropped(Prune(live, now), item, next)
    ensures next == (set x | x in Prune(live, now) && !IsOldest(Prune(live, now), x)) + {item}
  {
  }

  /** A step of the live map seen from a set that still holds expired entries. */
  lemma LiveStepIsNextLive<V(!new)>(live: set<Item<V>>, config: Config, op: Op<V>, now: real, next: set<Item<V>>)
    requires DistinctTimes(live) && LiveStep(Prune(live, now), config, op, now, next)
    ensures next == Prune(NextLive(live, config, op, now), now)
  {
    hide IsOldest, DistinctTimes, Capacity;
    var now1 := Prune(live, now);
    assert Prune(now1, now) == now1;
    if op.RememberOp? && TtlOf(config, op.ttl) > 0 {
      var item := NewItem(op.key, op.value, TtlOf(config, op.ttl), now);
      if !(exists x :: x in now1 && x.key == op.key) && |now1| >= Capacity(config) {
        RememberFollowsLiveMap(live, config, item, now, next);
      }
    }
  }

  lemma StepFollowsLiveMap<V(!new)>(items: seq<Item<V>>, live: set<Item<V>>, config: Config, op: Op<V>, now: real)
    requires ValidItems(items, config) && DistinctTimes(live)
    requires Live(items, now) == Prune(live, now)
    ensures Live(StoreStep(items, config, op, now), now) == Prune(NextLive(live, config, op, now), now)
  {
    hide StoreStep, LiveStep, NextLive, DistinctTimes;
    StoreRefinesLiveMap(items, config, op, now);
    LiveStepIsNextLive(live, config, op, now, Live(StoreStep(items, config, op, now), now));
  }

  lemma LaterPrune<V>(items: seq<Item<V>>, live: set<Item<V>>, t: real, u: real)
    requires t <= u && Live(items, t) == Prune(live, t)
    ensures Live(items, u) == Prune(live, u)
  {
    forall x ensures x in Live(items, u) <==> x in Prune(live, u) {
      assert x in Live(items, u) <==> x in Live(items, t) && !x.Expired(u);
      assert x in Prune(live, u) <==> x in Prune(live, t) && !x.Expired(u);
    }
  }

  ghost predicate NotBefore<V>(t: real, calls: seq<Call<V>>) {
    forall c :: c in calls ==> c.now <= t
  }

  /** After any timed run, at any later time, the store's live part is the live map; it never outgrows its capacity. */
  lemma {:induction false} RunFollowsLiveMap<V(!new)>(config: Config, calls: seq<Call<V>>, t: real)
    requires Timed(calls) && NotBefore(t, calls)
    ensures ValidItems(StoreRun(config, calls), config)
    ensures Live(StoreRun(config, calls), t) == Prune(LiveRun(config, calls), t)
  {
    if calls != [] {
      var n := |calls| - 1;
      var last := calls[n];
      forall c | c in calls[..n] ensures c.now <= last.now {
        var i :| 0 <= i < n && calls[i] == c;
      }
      RunFollowsLiveMap(config, calls[..n], last.now);
      CreatedByCalls(config, calls[..n]);
      var items := StoreRun(config, calls[..n]);
      StepKeepsItemsValid(items, config, last.op, last.now);
      StepFollowsLiveMap(items, LiveRun(config, calls[..n]), config, last.op, last.now);
      assert last in calls;
      LaterPrune(StoreRun(config, calls), LiveRun(config, calls), last.now, t);
    }
  }

  // ----- What a recall returns -----

  /** The entry filed under `key` is returned while it is live, and nothing else is. */
  lemma RecallIsLive<V>(items: seq<Item<V>>, key: string, t: real)
    requires DistinctKeys(items)
    ensures forall v :: RecallOf(items, key, t) == Some(v) <==>
              exists x :: x in Live(items, t) && x.key == key && x.value == v
    ensures RecallOf(items, key, t) == None <==> forall x :: x in Live(items, t) ==> x.key != key
  {
    var i := IndexOf(items, key);
    if i >= 0 {
      KeyIdentifies(items, i);
      assert items[i] in items;
    } else {
      UnknownKey(items, key);
    }
  }

  /** A call that remembers: a TTL that is not positive is refused. */
  predicate Remembers<V>(config: Config, c: Call<V>) {
    c.op.RememberOp? && TtlOf(config, c.op.ttl) > 0
  }

  /** What call `c` files, and until when. */
  function ItemOf<V>(config: Config, c: Call<V>): Item<V>
    requires c.op.RememberOp?
  {
    Item(c.op.key, c.op.value, c.now, c.now + TtlOf(config, c.op.ttl) as real)
  }

  /** Call `i` remembers `key`, and no later call remembers it again or forgets it. */
  ghost predicate LastRemembered<V>(config: Config, calls: seq<Call<V>>, key: string, i: int) {
    && 0 <= i < |calls| && Remembers(config, calls[i]) && calls[i].op.key == key
    && forall j :: i < j < |calls| ==>
         !(Remembers(config, calls[j]) && calls[j].op.key == key) && calls[j].op != ForgetOp(key)
  }

  /** Call `j` remembers a key that is not live, at full capacity, when the entry of call `i` is the oldest. */
  ghost predicate PushesOut<V>(config: Config, calls: seq<Call<V>>, i: int, j: int)
    requires 0 <= i < |calls| && 0 <= j < |calls|
  {
    var live := Prune(LiveRun(config, calls[..j]), calls[j].now);
    && Remembers(config, calls[i]) && Remembers(config, calls[j])
    && (forall x :: x in live ==> x.key != calls[j].op.key)
    && |live| >= Capacity(config)
    && IsOldest(live, ItemOf(config, calls[i]))
  }

  ghost predicate Kept<V>(config: Config, calls: seq<Call<V>>, key: string, i: int) {
    LastRemembered(config, calls, key, i) && forall j :: i < j < |calls| ==> !PushesOut(config, calls, i, j)
  }

  lemma KeptBefore<V>(config: Config, calls: seq<Call<V>>, key: string, i: int)
    requires calls != [] && i < |calls| - 1
    ensures var n := |calls| - 1;
            Kept(config, calls, key, i) <==>
            && Kept(config, calls[..n], key, i)
            && !(Remembers(config, calls[n]) && calls[n].op.key == key) && calls[n].op != ForgetOp(key)
            && !PushesOut(config, calls, i, n)
  {
    hide Remembers, PushesOut;
    var n := |calls| - 1;
    var init := calls[..n];
    if 0 <= i {
      forall j | i < j < n ensures PushesOut(config, init, i, j) <==> PushesOut(config, calls, i, j) {
        PushesOutBefore(config, calls, i, j);
      }
    }
    if Kept(config, calls, key, i) {
      assert forall j :: i < j < n ==> !PushesOut(config, init, i, j);
      assert LastRemembered(config, init, key, i);
    }
    if Kept(config, init, key, i) {
      assert forall j :: i < j < n ==> !PushesOut(config, calls, i, j);
    }
  }

  lemma PushesOutBefore<V>(config: Config, calls: seq<Call<V>>, i: int, j: int)
    requires 0 <= i < |calls| - 1 && 0 <= j < |calls| - 1
    ensures PushesOut(config, calls[..|calls| - 1], i, j) <==> PushesOut(config, calls, i, j)
  {
    assert calls[..|calls| - 1][..j] == calls[..j];
  }

  lemma OwnKeyIsFiled<V>(live: set<Item<V>>, config: Config, c: Call<V>, x: Item<V>)
    requires Remembers(config, c)
    ensures x in NextLive(live, config, c.op, c.now) && x.key == c.op.key <==> x == ItemOf(config, c)
  {
  }

  /** A call about another key keeps an entry unless it has expired by then or is pushed out. */
  lemma OtherKeyStays<V>(live: set<Item<V>>, config: Config, c: Call<V>, x: Item<V>, t: real)
    requires c.now <= t && !(Remembers(config, c) && c.op.key == x.key) && c.op != ForgetOp(x.key)
    ensures x in Prune(NextLive(live, config, c.op, c.now), t) <==>
            && x in Prune(live, c.now) && !x.Expired(t)
            && !(var l := Prune(live, c.now);
                 && Remembers(config, c) && (forall y :: y in l ==> y.key != c.op.key)
                 && |l| >= Capacity(config) && IsOldest(l, x))
  {
    hide IsOldest, Capacity;
  }

  /** The live entry of a key is the one that its last remember filed, unless it was pushed out. */
  lemma {:induction false} LiveEntryIsKept<V(!new)>(config: Config, calls: seq<Call<V>>, x: Item<V>, t: real)
    requires Timed(calls) && NotBefore(t, calls)
    ensures x in Prune(LiveRun(config, calls), t) <==>
            !x.Expired(t) && exists i :: Kept(config, calls, x.key, i) && x == ItemOf(config, calls[i])
  {
    hide PushesOut;
    if calls != [] {
      var n := |calls| - 1;
      var init, last := calls[..n], calls[n];
      assert last in calls;
      forall c | c in init ensures c.now <= last.now {
        var i :| 0 <= i < n && calls[i] == c;
      }
      LiveEntryIsKept(config, init, x, last.now);
      var live := LiveRun(config, init);
      if Remembers(config, last) && last.op.key == x.key {
        OwnKeyIsFiled(live, config, last, x);
        assert Kept(config, calls, x.key, n);
      } else if last.op != ForgetOp(x.key) {
        OtherKeyStays(live, config, last, x, t);
        KeptIff(config, calls, x);
      }
    }
  }

  lemma KeptIff<V>(config: Config, calls: seq<Call<V>>, x: Item<V>)
    requires calls != []
    requires var last := calls[|calls| - 1];
             !(Remembers(config, last) && last.op.key == x.key) && last.op != ForgetOp(x.key)
    ensures var n := |calls| - 1;
            (exists i :: Kept(config, calls, x.key, i) && x == ItemOf(config, calls[i])) <==>
            && (exists i :: Kept(config, calls[..n], x.key, i) && x == ItemOf(config, calls[..n][i]))
            && !(var l := Prune(LiveRun(config, calls[..n]), calls[n].now);
                 && Remembers(config, calls[n]) && (forall y :: y in l ==> y.key != calls[n].op.key)
                 && |l| >= Capacity(config) && IsOldest(l, x))
  {
    hide Capacity, IsOldest, Prune, LiveRun;
    var n := |calls| - 1;
    if i :| Kept(config, calls, x.key, i) && x == ItemOf(config, calls[i]) {
      KeptBefore(config, calls, x.key, i);
      hide Kept;
      assert calls[..n][i] == calls[i];
    }
    if i :| Kept(config, calls[..n], x.key, i) && x == ItemOf(config, calls[..n][i]) {
      KeptBefore(config, calls, x.key, i);
      hide Kept;
      assert calls[..n][i] == calls[i];
    }
  }

  /**
   After any timed run, a recall at a later time `t` returns the value of the last call that remembered the key and was
   neither forgotten nor pushed out since, while `t` is before the time of that call plus its TTL, and nothing else.
  */
  lemma RecallReturnsLastRemembered<V(!new)>(config: Config, calls: seq<Call<V>>, key: string, v: V, t: real)
    requires Timed(calls) && NotBefore(t, calls)
    ensures RecallOf(StoreRun(config, calls), key, t) == Some(v) <==>
            exists i :: Kept(config, calls, key, i) && calls[i].op.value == v
                        && t < calls[i].now + (if calls[i].op.ttl.Some? then calls[i].op.ttl.value
                                               else config.defaultTtl) as real
  {
    RunFollowsLiveMap(config, calls, t);
    RecallIsLive(StoreRun(config, calls), key, t);
    hide StoreRun, RecallOf, LiveRun, Kept;
    LiveValueIff(config, calls, key, v, t);
  }

  lemma LiveValueIff<V(!new)>(config: Config, calls: seq<Call<V>>, key: string, v: V, t: real)
    requires Timed(calls) && NotBefore(t, calls)
    ensures (exists x :: x in Prune(LiveRun(config, calls), t) && x.key == key && x.value == v) <==>
            exists i :: Kept(config, calls, key, i) && calls[i].op.value == v
                        && t < calls[i].now + (if calls[i].op.ttl.Some? then calls[i].op.ttl.value
                                               else config.defaultTtl) as real
  {
    if x :| x in Prune(LiveRun(config, calls), t) && x.key == key && x.value == v {
      LiveEntryIsKept(config, calls, x, t);
      hide LiveRun, Kept;
      var i :| Kept(config, calls, x.key, i) && x == ItemOf(config, calls[i]);
    }
    if i :| Kept(config, calls, key, i) && calls[i].op.value == v
            && t < calls[i].now + (if calls[i].op.ttl.Some? then calls[i].op.ttl.value else config.defaultTtl) as real {
      assert calls[i].op.key == key;
      LiveEntryIsKept(config, calls, ItemOf(config, calls[i]), t);
      hide LiveRun, Kept;
    }
  }

  // ----- Cleaning up is invisible -----

  /** The calls that change the live map. */
  function Essential<V>(calls: seq<Call<V>>): seq<Call<V>> {
    if calls == [] then []
    else
      var last := calls[|calls| - 1];
      Essential(calls[..|calls| - 1]) + (if last.op.RememberOp? || last.op.ForgetOp? then [last] else [])
  }

  lemma {:induction false} OnlyEssentialsCount<V>(config: Config, calls: seq<Call<V>>)
    ensures LiveRun(config, calls) == LiveRun(config, Essential(calls))
  {
    if calls != [] {
      var n := |calls| - 1;
      OnlyEssentialsCount(config, calls[..n]);
      var e := Essential(calls);
      if calls[n].op.RememberOp? || calls[n].op.ForgetOp? {
        var k := |e| - 1;
        assert e == Essential(calls[..n]) + [calls[n]];
        assert e[k] == calls[n];
        assert e[..k] == Essential(calls[..n]);
      } else {
        assert e == Essential(calls[..n]);
      }
    }
  }

  lemma {:induction false} AutoCleanupIsInvisible<V>(config: Config, flag: bool, calls: seq<Call<V>>)
    ensures LiveRun(config, calls) == LiveRun(config.(autoCleanup := flag), calls)
  {
    if calls != [] {
      AutoCleanupIsInvisible(config, flag, calls[..|calls| - 1]);
    }
  }

  lemma RecallReadsLiveItems<V>(items: seq<Item<V>>, other: seq<Item<V>>, key: string, t: real)
    requires DistinctKeys(items) && DistinctKeys(other)
    requires Live(items, t) == Live(other, t)
    ensures RecallOf(items, key, t) == RecallOf(other, key, t)
  {
    KeyedItem(items, key, t);
    KeyedItem(other, key, t);
    var i, j := IndexOf(items, key), IndexOf(other, key);
    if i >= 0 && !items[i].Expired(t) {
      assert items[i] in Live(items, t);
      KeyIdentifies(other, j);
    }
  }

  /**
   Two runs that remember and forget the same things at the same times recall the same values ever after,
   wherever one of them calls `clear_expired`, `get_context` or `recall`, and whether or not it cleans up by
   itself.
  */
  lemma CleanupIsInvisible<V(!new)>(config: Config, flag: bool, a: seq<Call<V>>, b: seq<Call<V>>, key: string, t: real)
    requires Timed(a) && Timed(b) && NotBefore(t, a) && NotBefore(t, b)
    requires Essential(a) == Essential(b)
    ensures RecallOf(StoreRun(config, a), key, t) == RecallOf(StoreRun(config.(autoCleanup := flag), b), key, t)
  {
    var other := config.(autoCleanup := flag);
    RunFollowsLiveMap(config, a, t);
    RunFollowsLiveMap(other, b, t);
    OnlyEssentialsCount(config, a);
    OnlyEssentialsCount(config, b);
    AutoCleanupIsInvisible(config, flag, b);
    RecallReadsLiveItems(StoreRun(config, a), StoreRun(other, b), key, t);
  }
}

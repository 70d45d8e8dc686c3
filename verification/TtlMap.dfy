/** TTLMap: a bounded cache whose entries expire lazily. The class follows the source's
    two parallel maps; the functions below it are its specification, and the lemmas
    compare it with an eager map that drops an entry the instant it expires. */
module TtlMap {
  import opened OrderedMaps
  import opened Wrappers

  // What one key holds: the value and the time it was set.
  datatype Stamped<V> = Stamped(value: V, at: int)

  type Held<V> = JsMap<Stamped<V>>

  predicate Expired(at: int, now: int, ttl: int)
  {
    now - at > ttl
  }

  // The two maps side by side.
  function Zip<V>(store: JsMap<V>, stamps: JsMap<int>): Held<V>
    requires |store| == |stamps|
  {
    seq(|store|, i requires 0 <= i < |store| => (store[i].0, Stamped(store[i].1, stamps[i].1)))
  }

  /******* The operations on what is physically held *******/

  // The first entry of least write time, as an index; |h| when there is none.
  function OldestIndex<V>(h: Held<V>): (o: nat)
    ensures h == [] <==> o == |h|
    ensures o <= |h|
    ensures o < |h| ==> forall j :: 0 <= j < |h| ==> h[o].1.at <= h[j].1.at
    ensures forall j :: 0 <= j < o < |h| ==> h[o].1.at < h[j].1.at
  {
    if h == [] then 0
    else
      var n := |h| - 1;
      var o := OldestIndex(h[..n]);
      if o == n || h[n].1.at < h[o].1.at then n else o
  }

  function SetHeld<V>(h: Held<V>, k: string, v: V, now: int, maxSize: int): Held<V>
  {
    Put(if |h| >= maxSize && !Has(h, k) then Evict(h) else h, k, Stamped(v, now))
  }

  // The empty key is falsy in JavaScript, so an oldest entry under it is not evicted.
  function Evict<V>(h: Held<V>): Held<V>
  {
    var o := OldestIndex(h);
    if o < |h| && h[o].0 != "" then Delete(h, h[o].0) else h
  }

  predicate Dead<V>(h: Held<V>, k: string, now: int, ttl: int)
  {
    Has(h, k) && Expired(Lookup(h, k).at, now, ttl)
  }

  // Reading a key deletes it when it has expired.
  function TouchHeld<V>(h: Held<V>, k: string, now: int, ttl: int): Held<V>
  {
    if Dead(h, k, now, ttl) then Delete(h, k) else h
  }

  function Sweep<V>(h: Held<V>, now: int, ttl: int): (r: Held<V>)
    ensures |r| <= |h|
  {
    if h == [] then []
    else
      var n := |h| - 1;
      Sweep(h[..n], now, ttl) + if Expired(h[n].1.at, now, ttl) then [] else [h[n]]
  }

  // Midway through a sweep: the first n entries swept, the rest untouched.
  ghost function PartlySwept<V>(h: Held<V>, n: nat, now: int, ttl: int): Held<V>
    requires n <= |h|
  {
    Sweep(h[..n], now, ttl) + h[n..]
  }

  lemma AllSwept<V>(h: Held<V>, now: int, ttl: int)
    ensures PartlySwept(h, |h|, now, ttl) == Sweep(h, now, ttl)
  {
    assert h[..|h|] == h;
  }

  lemma DeleteMiddle<V>(q: Held<V>, x: (string, Stamped<V>), rest: Held<V>)
    requires Unique(q + [x] + rest)
    ensures IndexOf(q + [x] + rest, x.0) == |q|
    ensures Delete(q + [x] + rest, x.0) == q + rest
  {
    var p := q + [x] + rest;
    assert p[|q|] == x;
    IndexOfUnique(p, |q|);
    assert p[..|q|] == q && p[|q| + 1..] == rest;
  }

  lemma SweepStep<V>(h: Held<V>, n: nat, now: int, ttl: int)
    requires n < |h| && Unique(PartlySwept(h, n, now, ttl))
    ensures var p, i := PartlySwept(h, n, now, ttl), |Sweep(h[..n], now, ttl)|;
      && p[i] == h[n]
      && PartlySwept(h, n + 1, now, ttl) == (if Expired(h[n].1.at, now, ttl) then Delete(p, h[n].0) else p)
      && |Sweep(h[..n + 1], now, ttl)| == (if Expired(h[n].1.at, now, ttl) then i else i + 1)
  {
    var q, x, rest := Sweep(h[..n], now, ttl), h[n], h[n + 1..];
    var p := PartlySwept(h, n, now, ttl);
    assert h[..n + 1][..n] == h[..n];
    assert h[n..] == [x] + rest;
    assert p == q + [x] + rest;
    DeleteMiddle(q, x, rest);
  }

  /******* The class *******/

  class TTLMap<V> {
    const maxSize: int
    const ttlMs: int
    var store: JsMap<V>
    var stamps: JsMap<int>
    var cleanupTimer: bool

    ghost predicate Valid()
      reads this
    {
      |store| == |stamps| && Keys(store) == Keys(stamps) && Unique(store)
    }

    ghost function Held(): (h: Held<V>)
      requires |store| == |stamps|
      reads this
    {
      Zip(store, stamps)
    }

    constructor (maxSize: int := 1000, ttlMs: int := 3600000)
      ensures Valid() && Held() == [] && cleanupTimer
      ensures this.maxSize == maxSize && this.ttlMs == ttlMs
    {
      this.maxSize := maxSize;
      this.ttlMs := ttlMs;
      store, stamps, cleanupTimer := [], [], true;
    }

    method Set(key: string, value: V, now: int)
      requires Valid()
      modifies this`store, this`stamps
      ensures Valid()
      ensures Held() == SetHeld(old(Held()), key, value, now, maxSize)
    {
      ZipFacts(store, stamps, key);
      if |store| >= maxSize && !OrderedMaps.Has(store, key) {
        var oldest := FindOldest();
        if oldest.Some? && oldest.value != "" {
          DropBoth(oldest.value);
        }
      }
      assert Held() ==
        if |old(Held())| >= maxSize && !OrderedMaps.Has(old(Held()), key) then Evict(old(Held())) else old(Held());
      ZipPut(store, stamps, key, value, now);
      store := Put(store, key, value);
      stamps := Put(stamps, key, now);
    }

    method Get(key: string, now: int) returns (r: Option<V>)
      requires Valid()
      modifies this`store, this`stamps
      ensures Valid()
      ensures Held() == TouchHeld(old(Held()), key, now, ttlMs)
      ensures r == if OrderedMaps.Has(Held(), key) then Some(Lookup(Held(), key).value) else None
    {
      var present := Has(key, now);
      ZipFacts(store, stamps, key);
      r := if present then Some(Lookup(store, key)) else None;
    }

    method Has(key: string, now: int) returns (r: bool)
      requires Valid()
      modifies this`store, this`stamps
      ensures Valid()
      ensures Held() == TouchHeld(old(Held()), key, now, ttlMs)
      ensures r == OrderedMaps.Has(Held(), key)
    {
      ZipFacts(store, stamps, key);
      if !OrderedMaps.Has(store, key) { return false; }
      var setAt := Lookup(stamps, key);
      if now - setAt > ttlMs {
        DropBoth(key);
        DeleteUnique(old(Held()), key);
        ZipFacts(store, stamps, key);
        return false;
      }
      return true;
    }

    method Delete(key: string) returns (r: bool)
      requires Valid()
      modifies this`store, this`stamps
      ensures Valid()
      ensures Held() == OrderedMaps.Delete(old(Held()), key)
      ensures r == OrderedMaps.Has(old(Held()), key)
    {
      ZipFacts(store, stamps, key);
      ZipDelete(store, stamps, key);
      stamps := OrderedMaps.Delete(stamps, key);
      r := OrderedMaps.Has(store, key);
      store := OrderedMaps.Delete(store, key);
    }

    // Every deletion removes the key from both maps.
    method DropBoth(key: string)
      requires Valid()
      modifies this`store, this`stamps
      ensures Valid()
      ensures Held() == OrderedMaps.Delete(old(Held()), key)
    {
      ZipDelete(store, stamps, key);
      store := OrderedMaps.Delete(store, key);
      stamps := OrderedMaps.Delete(stamps, key);
    }

    method Clear()
      modifies this`store, this`stamps
      ensures Valid() && Held() == []
    {
      store, stamps := [], [];
    }

    method Size(now: int) returns (n: nat)
      requires Valid()
      modifies this`store, this`stamps
      ensures Valid()
      ensures Held() == Sweep(old(Held()), now, ttlMs) && n == |Held()|
    {
      CleanupExpired(now);
      n := |store|;
    }

    // forEach and the iterator: the pairs in insertion order.
    method Entries(now: int) returns (items: JsMap<V>)
      requires Valid()
      modifies this`store, this`stamps
      ensures Valid()
      ensures Held() == Sweep(old(Held()), now, ttlMs)
      ensures |items| == |Held()| && forall i :: 0 <= i < |items| ==> items[i] == (Held()[i].0, Held()[i].1.value)
    {
      CleanupExpired(now);
      items := store;
    }

    method Dispose()
      modifies this
      ensures Valid() && Held() == [] && !cleanupTimer
    {
      cleanupTimer := false;
      store, stamps := [], [];
    }

    // Deletes the expired entries one by one, both maps together, while iterating.
    method CleanupExpired(now: int)
      requires Valid()
      modifies this`store, this`stamps
      ensures Valid()
      ensures Held() == Sweep(old(Held()), now, ttlMs)
    {
      ghost var h0 := Held();
      ghost var done := 0;
      var i := 0;
      while i < |stamps|
        invariant Valid()
        invariant 0 <= done <= |h0| && i == |Sweep(h0[..done], now, ttlMs)|
        invariant |store| == |stamps| && Held() == PartlySwept(h0, done, now, ttlMs)
        decreases |h0| - done
      {
        i := CleanupEntry(i, now, h0, done);
        done := done + 1;
      }
      AllSwept(h0, now, ttlMs);
    }

    // What the iteration does with the entry at i; returns where the next one stands.
    method CleanupEntry(i: nat, now: int, ghost h0: Held<V>, ghost done: nat) returns (next: nat)
      requires Valid() && i < |stamps|
      requires done <= |h0| && i == |Sweep(h0[..done], now, ttlMs)| && Held() == PartlySwept(h0, done, now, ttlMs)
      modifies this`store, this`stamps
      ensures Valid() && done < |h0|
      ensures next == |Sweep(h0[..done + 1], now, ttlMs)| && Held() == PartlySwept(h0, done + 1, now, ttlMs)
    {
      SweepTurn(store, stamps, h0, done, now, ttlMs);
      var (key, setAt) := stamps[i];
      if now - setAt > ttlMs {
        DropBoth(key);
        next := i;
      } else {
        next := i + 1;
      }
    }

    method FindOldest() returns (oldestKey: Option<string>)
      requires Valid()
      ensures var o := OldestIndex(Held());
        oldestKey == if o < |Held()| then Some(Held()[o].0) else None
    {
      oldestKey := None;
      var oldestTime := None;
      ghost var o := 0;
      var i := 0;
      while i < |stamps|
        invariant 0 <= i <= |stamps| && o == OldestIndex(Held()[..i])
        invariant i == 0 ==> oldestKey == None && oldestTime == None
        invariant i > 0 ==> oldestKey == Some(Held()[o].0) && oldestTime == Some(Held()[o].1.at)
      {
        assert Held()[..i + 1][..i] == Held()[..i];
        assert Keys(store)[i] == Keys(stamps)[i];
        if oldestTime == None || stamps[i].1 < oldestTime.value {
          oldestTime := Some(stamps[i].1);
          oldestKey := Some(stamps[i].0);
          o := i;
        }
        i := i + 1;
      }
      assert Held()[..i] == Held();
    }
  }

  /******* The two maps move together *******/

  lemma {:induction false} SameIndex<A, B>(a: JsMap<A>, b: JsMap<B>, k: string)
    requires Keys(a) == Keys(b)
    ensures |a| == |b| && IndexOf(a, k) == IndexOf(b, k)
  {
    assert |Keys(a)| == |Keys(b)|;
    if a != [] {
      assert Keys(a)[0] == a[0].0 && Keys(b)[0] == b[0].0;
      assert Keys(a[1..]) == Keys(a)[1..] && Keys(b[1..]) == Keys(b)[1..];
      SameIndex(a[1..], b[1..], k);
    }
  }

  lemma SameUnique<A, B>(a: JsMap<A>, b: JsMap<B>)
    requires Keys(a) == Keys(b) && Unique(a)
    ensures Unique(b)
  {
    assert |Keys(a)| == |Keys(b)|;
    forall i, j | 0 <= i < j < |b| ensures b[i].0 != b[j].0 {
      assert Keys(a)[i] == a[i].0 == b[i].0 && Keys(a)[j] == a[j].0 == b[j].0;
    }
  }

  lemma KeysDelete<V>(m: JsMap<V>, k: string)
    ensures var i := IndexOf(m, k);
      Keys(Delete(m, k)) == if i < |m| then Keys(m)[..i] + Keys(m)[i + 1..] else Keys(m)
  {
  }

  lemma KeysPut<V>(m: JsMap<V>, k: string, v: V)
    ensures Keys(Put(m, k, v)) == if Has(m, k) then Keys(m) else Keys(m) + [k]
  {
  }

  lemma ZipFacts<V>(store: JsMap<V>, stamps: JsMap<int>, k: string)
    requires Keys(store) == Keys(stamps) && Unique(store)
    ensures |store| == |stamps| && Unique(Zip(store, stamps))
    ensures IndexOf(store, k) == IndexOf(stamps, k) == IndexOf(Zip(store, stamps), k)
    ensures Keys(Zip(store, stamps)) == Keys(store)
  {
    SameIndex(store, stamps, k);
    assert Keys(Zip(store, stamps)) == Keys(store);
    SameIndex(store, Zip(store, stamps), k);
    SameUnique(store, Zip(store, stamps));
  }

  // One turn of the cleanup loop, which stands at index |Sweep(h[..n])| of both maps.
  lemma SweepTurn<V>(store: JsMap<V>, stamps: JsMap<int>, h: Held<V>, n: nat, now: int, ttl: int)
    requires Keys(store) == Keys(stamps) && Unique(store) && |store| == |stamps| && n <= |h|
    requires Zip(store, stamps) == PartlySwept(h, n, now, ttl)
    requires |Sweep(h[..n], now, ttl)| < |stamps|
    ensures n < |h|
    ensures var i, p := |Sweep(h[..n], now, ttl)|, Zip(store, stamps);
      var (key, setAt) := stamps[i];
      if now - setAt > ttl then
        PartlySwept(h, n + 1, now, ttl) == Delete(p, key) && |Sweep(h[..n + 1], now, ttl)| == i
      else
        PartlySwept(h, n + 1, now, ttl) == p && |Sweep(h[..n + 1], now, ttl)| == i + 1
  {
    ZipFacts(store, stamps, "");
    SweepStep(h, n, now, ttl);
    var i := |Sweep(h[..n], now, ttl)|;
    assert Keys(store)[i] == Keys(stamps)[i];
    assert Zip(store, stamps)[i] == h[n];
  }

  lemma ZipDelete<V>(store: JsMap<V>, stamps: JsMap<int>, k: string)
    requires Keys(store) == Keys(stamps) && Unique(store)
    ensures Keys(Delete(store, k)) == Keys(Delete(stamps, k)) && Unique(Delete(store, k))
    ensures |Delete(store, k)| == |Delete(stamps, k)|
    ensures |store| == |stamps| && Zip(Delete(store, k), Delete(stamps, k)) == Delete(Zip(store, stamps), k)
  {
    ZipFacts(store, stamps, k);
    DeleteUnique(store, k);
    KeysDelete(store, k);
    KeysDelete(stamps, k);
    ZipCut(store, stamps, IndexOf(store, k));
  }

  lemma ZipCut<V>(store: JsMap<V>, stamps: JsMap<int>, i: nat)
    requires |store| == |stamps|
    ensures i < |store| ==>
      Zip(store[..i] + store[i + 1..], stamps[..i] + stamps[i + 1..])
        == Zip(store, stamps)[..i] + Zip(store, stamps)[i + 1..]
  {
  }

  lemma ZipPut<V>(store: JsMap<V>, stamps: JsMap<int>, k: string, v: V, at: int)
    requires Keys(store) == Keys(stamps) && Unique(store)
    ensures Keys(Put(store, k, v)) == Keys(Put(stamps, k, at)) && Unique(Put(store, k, v))
    ensures |Put(store, k, v)| == |Put(stamps, k, at)|
    ensures |store| == |stamps|
    ensures Zip(Put(store, k, v), Put(stamps, k, at)) == Put(Zip(store, stamps), k, Stamped(v, at))
  {
    ZipFacts(store, stamps, k);
    PutUnique(store, k, v);
    KeysPut(store, k, v);
    KeysPut(stamps, k, at);
  }
}

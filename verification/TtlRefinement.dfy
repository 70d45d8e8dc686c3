/** Lazy expiry refines eager expiry: whatever the cleanup timer does, a TTLMap answers
    like a bounded map that drops every entry the instant it expires. */
module TtlRefinement {
  import opened OrderedMaps
  import opened TtlMap
  import opened Wrappers

  /******* Runs *******/

  datatype Op<V> =
    | Set(key: string, value: V)
    | Get(key: string)
    | Has(key: string)
    | Delete(key: string)
    | Clear
    | Size
    | Iterate
    | Tick // the cleanup timer fires

  datatype Timed<V> = Timed(op: Op<V>, now: int)

  datatype Obs<V> =
    | Silent
    | Found(result: Option<V>)
    | Answer(yes: bool)
    | Deleted(removed: bool)
    | Count(n: nat)
    | Items(items: JsMap<V>)

  datatype Config = Config(maxSize: int, ttl: int)

  // What forEach and the iterator yield, in order.
  function Pairs<V>(h: Held<V>): JsMap<V>
  {
    seq(|h|, i requires 0 <= i < |h| => (h[i].0, h[i].1.value))
  }

  // One call on the lazy map.
  function Step<V>(c: Config, h: Held<V>, e: Timed<V>): (Held<V>, Obs<V>)
  {
    match e.op
    case Set(k, v) => (SetHeld(h, k, v, e.now, c.maxSize), Silent)
    case Get(k) =>
      var r := TouchHeld(h, k, e.now, c.ttl);
      (r, Found(if OrderedMaps.Has(r, k) then Some(Lookup(r, k).value) else None))
    case Has(k) =>
      var r := TouchHeld(h, k, e.now, c.ttl);
      (r, Answer(OrderedMaps.Has(r, k)))
    case Delete(k) => (OrderedMaps.Delete(h, k), Deleted(OrderedMaps.Has(h, k)))
    case Clear => ([], Silent)
    case Size => var r := Sweep(h, e.now, c.ttl); (r, Count(|r|))
    case Iterate => var r := Sweep(h, e.now, c.ttl); (r, Items(Pairs(r)))
    case Tick => (Sweep(h, e.now, c.ttl), Silent)
  }

  function Run<V>(c: Config, h: Held<V>, es: seq<Timed<V>>): seq<Obs<V>>
    decreases es
  {
    if es == [] then [] else var (h', o) := Step(c, h, es[0]); [o] + Run(c, h', es[1..])
  }

  function After<V>(c: Config, h: Held<V>, es: seq<Timed<V>>): Held<V>
    decreases es
  {
    if es == [] then h else After(c, Step(c, h, es[0]).0, es[1..])
  }

  // Time never goes back.
  ghost predicate Monotone<V>(es: seq<Timed<V>>, since: int)
  {
    es == [] || (since <= es[0].now && Monotone(es[1..], es[0].now))
  }

  ghost predicate NamedKeys<V>(es: seq<Timed<V>>)
  {
    forall e :: e in es && e.op.Set? ==> e.op.key != ""
  }

  /******* The eager map *******/

  function Inserted<V>(h: Held<V>, i: nat, x: (string, Stamped<V>)): Held<V>
    requires i <= |h|
  {
    h[..i] + [x] + h[i..]
  }

  // Room for one more: a full map loses the first of its oldest entries.
  function WithRoom<V>(c: Config, h: Held<V>): Held<V>
  {
    if |h| >= c.maxSize then Evict(h) else h
  }

  ghost predicate InsertedSomewhere<V>(h: Held<V>, x: (string, Stamped<V>), now: int, ttl: int, next: Held<V>)
  {
    exists i :: 0 <= i <= |h| && next == Sweep(Inserted(h, i, x), now, ttl)
  }

  // gone: the keys that expiry has dropped and that no call has named since. Such a key may
  // still be held by the lazy map.
  datatype Eager<V> = Eager(live: Held<V>, gone: set<string>)

  function ExpiredKeys<V>(h: Held<V>, now: int, ttl: int): set<string>
  {
    set i | 0 <= i < |h| && Expired(h[i].1.at, now, ttl) :: h[i].0
  }

  // A live key keeps its place, and a new key goes to the end, behind the eviction of the
  // first oldest entry of a full map. Only a key that has gone may land anywhere.
  ghost predicate EagerSet<V>(c: Config, live: Held<V>, gone: set<string>, k: string, v: V, now: int, next: Held<V>)
  {
    var x := Stamped(v, now);
    if OrderedMaps.Has(live, k) then next == Sweep(Put(live, k, x), now, c.ttl)
    else if k in gone then InsertedSomewhere(WithRoom(c, live), (k, x), now, c.ttl, next)
    else next == Sweep(WithRoom(c, live) + [(k, x)], now, c.ttl)
  }

  // What a call leaves of the keys that have gone. With a negative lifetime a key goes as it
  // is set.
  function GoneBy<V>(c: Config, gone: set<string>, e: Timed<V>): set<string>
  {
    match e.op
    case Set(k, _) => if Expired(e.now, e.now, c.ttl) then gone + {k} else gone - {k}
    case Get(k) => gone - {k}
    case Has(k) => gone - {k}
    case Delete(k) => gone - {k}
    case _ => {}
  }

  // A call sees live entries only. A deletion may report a key that has gone.
  ghost predicate EagerCall<V>(
    c: Config, live: Held<V>, gone: set<string>, e: Timed<V>, next: Held<V>, o: Obs<V>)
  {
    match e.op
    case Set(k, v) => o == Silent && EagerSet(c, live, gone, k, v, e.now, next)
    case Get(k) => next == live && o == Found(if OrderedMaps.Has(live, k) then Some(Lookup(live, k).value) else None)
    case Has(k) => next == live && o == Answer(OrderedMaps.Has(live, k))
    case Delete(k) =>
      && next == OrderedMaps.Delete(live, k) && o.Deleted?
      && (OrderedMaps.Has(live, k) ==> o.removed) && (o.removed ==> OrderedMaps.Has(live, k) || k in gone)
    case Clear => next == [] && o == Silent
    case Size => next == live && o == Count(|live|)
    case Iterate => next == live && o == Items(Pairs(live))
    case Tick => next == live && o == Silent
  }

  // Expiry comes first, then the call.
  ghost predicate EagerStep<V>(c: Config, s: Eager<V>, e: Timed<V>, next: Eager<V>, o: Obs<V>)
  {
    var gone := s.gone + ExpiredKeys(s.live, e.now, c.ttl);
    EagerCall(c, Sweep(s.live, e.now, c.ttl), gone, e, next.live, o) && next.gone == GoneBy(c, gone, e)
  }

  ghost predicate EagerRun<V(!new)>(c: Config, s: Eager<V>, es: seq<Timed<V>>, os: seq<Obs<V>>)
    decreases es
  {
    if es == [] then os == []
    else os != [] && exists next :: EagerStep(c, s, es[0], next, os[0]) && EagerRun(c, next, es[1..], os[1..])
  }

  /******* Sweeping *******/

  lemma {:induction false} SweepConcat<V>(a: Held<V>, b: Held<V>, now: int, ttl: int)
    ensures Sweep(a + b, now, ttl) == Sweep(a, now, ttl) + Sweep(b, now, ttl)
  {
    if b == [] {
      assert a + b == a;
    } else {
      var n := |b| - 1;
      assert (a + b)[..|a + b| - 1] == a + b[..n];
      SweepConcat(a, b[..n], now, ttl);
    }
  }

  lemma {:induction false} SweepMember<V>(h: Held<V>, now: int, ttl: int, x: (string, Stamped<V>))
    ensures x in Sweep(h, now, ttl) <==> x in h && !Expired(x.1.at, now, ttl)
  {
    if h != [] {
      var n := |h| - 1;
      SweepMember(h[..n], now, ttl, x);
      assert h == h[..n] + [h[n]];
    }
  }

  lemma {:induction false} SweepUnique<V>(h: Held<V>, now: int, ttl: int)
    requires Unique(h)
    ensures Unique(Sweep(h, now, ttl))
  {
    if h != [] {
      var n := |h| - 1;
      SweepUnique(h[..n], now, ttl);
      var r := Sweep(h[..n], now, ttl);
      forall i | 0 <= i < |r| ensures r[i].0 != h[n].0 {
        SweepMember(h[..n], now, ttl, r[i]);
      }
    }
  }

  lemma {:induction false} SweepIdle<V>(h: Held<V>, now: int, ttl: int)
    requires forall x :: x in h ==> !Expired(x.1.at, now, ttl)
    ensures Sweep(h, now, ttl) == h
  {
    if h != [] {
      var n := |h| - 1;
      assert forall x :: x in h[..n] ==> x in h;
      SweepIdle(h[..n], now, ttl);
      assert h[n] in h && h == h[..n] + [h[n]];
    }
  }

  lemma {:induction false} SweepLater<V>(h: Held<V>, t: int, now: int, ttl: int)
    requires t <= now
    ensures Sweep(Sweep(h, t, ttl), now, ttl) == Sweep(h, now, ttl)
  {
    if h != [] {
      var n := |h| - 1;
      var x, r := h[n], Sweep(h[..n], t, ttl);
      SweepLater(h[..n], t, now, ttl);
      if Expired(x.1.at, t, ttl) {
        assert r + [] == r;
      } else {
        assert (r + [x])[..|r|] == r;
      }
    }
  }

  lemma SweptIsLive<V>(h: Held<V>, now: int, ttl: int)
    ensures forall x :: x in Sweep(h, now, ttl) ==> !Expired(x.1.at, now, ttl)
    ensures Sweep(Sweep(h, now, ttl), now, ttl) == Sweep(h, now, ttl)
  {
    var s := Sweep(h, now, ttl);
    forall x | x in s ensures !Expired(x.1.at, now, ttl) {
      SweepMember(h, now, ttl, x);
    }
    SweepIdle(s, now, ttl);
  }

  lemma Holds<V>(m: JsMap<V>, x: (string, V))
    requires Unique(m) && x in m
    ensures OrderedMaps.Has(m, x.0) && Lookup(m, x.0) == x.1
  {
    var i :| 0 <= i < |m| && m[i] == x;
    IndexOfUnique(m, i);
  }

  lemma HasSwept<V>(h: Held<V>, k: string, now: int, ttl: int)
    requires Unique(h)
    ensures OrderedMaps.Has(Sweep(h, now, ttl), k) <==> OrderedMaps.Has(h, k) && !Dead(h, k, now, ttl)
    ensures OrderedMaps.Has(Sweep(h, now, ttl), k) ==> Lookup(Sweep(h, now, ttl), k) == Lookup(h, k)
  {
    var r := Sweep(h, now, ttl);
    SweepUnique(h, now, ttl);
    if OrderedMaps.Has(r, k) {
      assert (k, Lookup(r, k)) in r;
      SweepMember(h, now, ttl, (k, Lookup(r, k)));
      Holds(h, (k, Lookup(r, k)));
    } else if OrderedMaps.Has(h, k) && !Dead(h, k, now, ttl) {
      assert (k, Lookup(h, k)) in h;
      SweepMember(h, now, ttl, (k, Lookup(h, k)));
      Holds(r, (k, Lookup(h, k)));
    }
  }

  // A map cut in three at an entry.
  lemma SweepMiddle<V>(p: Held<V>, x: (string, Stamped<V>), q: Held<V>, now: int, ttl: int)
    ensures Sweep(p + [x] + q, now, ttl)
      == Sweep(p, now, ttl) + (if Expired(x.1.at, now, ttl) then [] else [x]) + Sweep(q, now, ttl)
  {
    SweepConcat(p + [x], q, now, ttl);
    assert (p + [x])[..|p|] == p;
  }

  lemma PutMiddle<V>(p: JsMap<V>, x: (string, V), q: JsMap<V>, v: V)
    requires Unique(p + [x] + q)
    ensures IndexOf(p + [x] + q, x.0) == |p|
    ensures Put(p + [x] + q, x.0, v) == p + [(x.0, v)] + q
  {
    var m := p + [x] + q;
    assert m[|p|] == x;
    IndexOfUnique(m, |p|);
  }

  lemma DeleteSwept<V>(h: Held<V>, k: string, now: int, ttl: int)
    requires Unique(h)
    ensures Sweep(OrderedMaps.Delete(h, k), now, ttl) == OrderedMaps.Delete(Sweep(h, now, ttl), k)
  {
    HasSwept(h, k, now, ttl);
    if OrderedMaps.Has(h, k) {
      var i := IndexOf(h, k);
      var p, x, q := h[..i], h[i], h[i + 1..];
      assert h == p + [x] + q;
      SweepMiddle(p, x, q, now, ttl);
      SweepConcat(p, q, now, ttl);
      SweepUnique(h, now, ttl);
      if Expired(x.1.at, now, ttl) {
        assert Sweep(p, now, ttl) + [] == Sweep(p, now, ttl);
      } else {
        DeleteMiddle(Sweep(p, now, ttl), x, Sweep(q, now, ttl));
      }
    }
  }

  // Reading deletes nothing that a sweep would keep, and answers like one.
  lemma TouchSwept<V>(h: Held<V>, k: string, now: int, ttl: int)
    requires Unique(h)
    ensures var r, s := TouchHeld(h, k, now, ttl), Sweep(h, now, ttl);
      && Sweep(r, now, ttl) == s && TouchHeld(s, k, now, ttl) == s
      && (OrderedMaps.Has(r, k) <==> OrderedMaps.Has(s, k))
      && (OrderedMaps.Has(r, k) ==> Lookup(r, k) == Lookup(s, k))
  {
    var s := Sweep(h, now, ttl);
    HasSwept(h, k, now, ttl);
    SweptIsLive(h, now, ttl);
    assert OrderedMaps.Has(s, k) ==> (k, Lookup(s, k)) in s;
    if Dead(h, k, now, ttl) {
      DeleteUnique(h, k);
      DeleteSwept(h, k, now, ttl);
    }
  }

  /******* What is held *******/

  ghost predicate Inv<V>(c: Config, h: Held<V>)
  {
    Unique(h) && |h| <= c.maxSize && !OrderedMaps.Has(h, "")
  }

  lemma DeleteKeepsInv<V>(c: Config, h: Held<V>, k: string)
    requires Inv(c, h)
    ensures Inv(c, OrderedMaps.Delete(h, k))
  {
    DeleteUnique(h, k);
    DeleteLookup(h, k, "");
  }

  lemma SweepKeepsInv<V>(c: Config, h: Held<V>, now: int)
    requires Inv(c, h)
    ensures Inv(c, Sweep(h, now, c.ttl))
  {
    SweepUnique(h, now, c.ttl);
    HasSwept(h, "", now, c.ttl);
  }

  lemma EvictFacts<V>(c: Config, h: Held<V>)
    requires Inv(c, h) && h != []
    ensures var o := OldestIndex(h); Evict(h) == h[..o] + h[o + 1..]
    ensures Inv(c, Evict(h)) && |Evict(h)| == |h| - 1
    ensures forall k :: !OrderedMaps.Has(h, k) ==> !OrderedMaps.Has(Evict(h), k)
  {
    var o := OldestIndex(h);
    IndexOfUnique(h, o);
    assert h[o].0 != "";
    DeleteKeepsInv(c, h, h[o].0);
    forall k | !OrderedMaps.Has(h, k) ensures !OrderedMaps.Has(Evict(h), k) {
      DeleteLookup(h, h[o].0, k);
    }
  }

  lemma SetKeepsInv<V>(c: Config, h: Held<V>, k: string, v: V, now: int)
    requires Inv(c, h) && 1 <= c.maxSize && k != ""
    ensures Inv(c, SetHeld(h, k, v, now, c.maxSize))
  {
    var full := |h| >= c.maxSize && !OrderedMaps.Has(h, k);
    if full { EvictFacts(c, h); }
    var g := if full then Evict(h) else h;
    PutUnique(g, k, Stamped(v, now));
    PutLookup(g, k, Stamped(v, now), "");
  }

  // If the oldest entry is live, so are all.
  lemma OldestExpiresFirst<V>(h: Held<V>, now: int, ttl: int)
    requires h != [] && !Expired(h[OldestIndex(h)].1.at, now, ttl)
    ensures forall x :: x in h ==> !Expired(x.1.at, now, ttl)
    ensures Sweep(h, now, ttl) == h
  {
    SweepIdle(h, now, ttl);
  }

  lemma EvictDead<V>(c: Config, h: Held<V>, now: int)
    requires Inv(c, h) && h != [] && Expired(h[OldestIndex(h)].1.at, now, c.ttl)
    ensures Sweep(Evict(h), now, c.ttl) == Sweep(h, now, c.ttl) && |Sweep(h, now, c.ttl)| < |h|
  {
    EvictFacts(c, h);
    var o := OldestIndex(h);
    var p, x, q := h[..o], h[o], h[o + 1..];
    assert h == p + [x] + q;
    SweepMiddle(p, x, q, now, c.ttl);
    SweepConcat(p, q, now, c.ttl);
    assert Sweep(p, now, c.ttl) + [] == Sweep(p, now, c.ttl);
  }

  lemma EvictLive<V>(c: Config, h: Held<V>, now: int)
    requires Inv(c, h) && h != [] && !Expired(h[OldestIndex(h)].1.at, now, c.ttl)
    ensures Sweep(Evict(h), now, c.ttl) == Evict(h) && Sweep(h, now, c.ttl) == h
  {
    EvictFacts(c, h);
    OldestExpiresFirst(h, now, c.ttl);
    SweepIdle(Evict(h), now, c.ttl);
  }

  // Evicting from a full map and sweeping: the eviction counts only if nothing has expired.
  lemma EvictSwept<V>(c: Config, h: Held<V>, now: int)
    requires Inv(c, h) && 1 <= c.maxSize == |h|
    ensures Sweep(Evict(h), now, c.ttl) == WithRoom(c, Sweep(h, now, c.ttl))
  {
    if Expired(h[OldestIndex(h)].1.at, now, c.ttl) {
      EvictDead(c, h, now);
    } else {
      EvictLive(c, h, now);
    }
  }

  /******* Set and sweep *******/

  lemma SetLive<V>(h: Held<V>, k: string, x: Stamped<V>, now: int, ttl: int)
    requires Unique(h) && OrderedMaps.Has(h, k) && !Dead(h, k, now, ttl)
    ensures Sweep(Put(h, k, x), now, ttl) == Sweep(Put(Sweep(h, now, ttl), k, x), now, ttl)
  {
    var i := IndexOf(h, k);
    var p, y, q := h[..i], h[i], h[i + 1..];
    var sp, sq := Sweep(p, now, ttl), Sweep(q, now, ttl);
    assert h == p + [y] + q;
    SweepMiddle(p, y, q, now, ttl);
    SweepUnique(h, now, ttl);
    PutMiddle(p, y, q, x);
    PutMiddle(sp, y, sq, x);
    SweepMiddle(p, (k, x), q, now, ttl);
    SweepMiddle(sp, (k, x), sq, now, ttl);
    SweptIsLive(p, now, ttl);
    SweptIsLive(q, now, ttl);
  }

  // Set on an expired entry that is still held: it comes to life where it stands.
  lemma SetDead<V>(h: Held<V>, k: string, x: Stamped<V>, now: int, ttl: int)
    requires Unique(h) && Dead(h, k, now, ttl)
    ensures var i, live := IndexOf(h, k), Sweep(h, now, ttl);
      var n := |Sweep(h[..i], now, ttl)|;
      && n <= |live| < |h| && live[n..] == Sweep(h[i + 1..], now, ttl)
      && Sweep(Put(h, k, x), now, ttl) == Sweep(Inserted(live, n, (k, x)), now, ttl)
  {
    var i := IndexOf(h, k);
    var p, y, q := h[..i], h[i], h[i + 1..];
    var sp, sq := Sweep(p, now, ttl), Sweep(q, now, ttl);
    assert h == p + [y] + q;
    SweepMiddle(p, y, q, now, ttl);
    assert sp + [] + sq == sp + sq;
    PutMiddle(p, y, q, x);
    SweepMiddle(p, (k, x), q, now, ttl);
    assert Inserted(sp + sq, |sp|, (k, x)) == sp + [(k, x)] + sq;
    SweepMiddle(sp, (k, x), sq, now, ttl);
    SweptIsLive(p, now, ttl);
    SweptIsLive(q, now, ttl);
  }

  lemma RoomSwept<V>(c: Config, h: Held<V>, now: int)
    requires Inv(c, h) && 1 <= c.maxSize
    ensures Sweep(WithRoom(c, h), now, c.ttl) == WithRoom(c, Sweep(h, now, c.ttl))
    ensures forall k :: !OrderedMaps.Has(h, k) ==> !OrderedMaps.Has(WithRoom(c, h), k)
  {
    if |h| >= c.maxSize {
      EvictFacts(c, h);
      EvictSwept(c, h, now);
    }
  }

  lemma SetAbsent<V>(c: Config, h: Held<V>, k: string, v: V, now: int)
    requires Inv(c, h) && 1 <= c.maxSize && !OrderedMaps.Has(h, k)
    ensures var base := WithRoom(c, Sweep(h, now, c.ttl));
      Sweep(SetHeld(h, k, v, now, c.maxSize), now, c.ttl) == Sweep(base + [(k, Stamped(v, now))], now, c.ttl)
  {
    var g, x := WithRoom(c, h), (k, Stamped(v, now));
    RoomSwept(c, h, now);
    assert SetHeld(h, k, v, now, c.maxSize) == g + [x];
    SweepConcat(g, [x], now, c.ttl);
    SweepConcat(Sweep(g, now, c.ttl), [x], now, c.ttl);
    SweptIsLive(g, now, c.ttl);
  }

  // Every expired entry that is still held is of a key that has gone.
  ghost predicate Tracks<V>(h: Held<V>, gone: set<string>, now: int, ttl: int)
  {
    forall i :: 0 <= i < |h| && Expired(h[i].1.at, now, ttl) ==> h[i].0 in gone
  }

  lemma InsertedAtEnd<V>(h: Held<V>, x: (string, Stamped<V>), now: int, ttl: int)
    ensures InsertedSomewhere(h, x, now, ttl, Sweep(h + [x], now, ttl))
  {
    assert Inserted(h, |h|, x) == h + [x];
  }

  lemma SetAbsentRefines<V>(c: Config, h: Held<V>, gone: set<string>, k: string, v: V, now: int)
    requires Inv(c, h) && 1 <= c.maxSize && !OrderedMaps.Has(h, k) && !OrderedMaps.Has(Sweep(h, now, c.ttl), k)
    ensures var next := Sweep(SetHeld(h, k, v, now, c.maxSize), now, c.ttl);
      EagerSet(c, Sweep(h, now, c.ttl), gone, k, v, now, next)
  {
    SetAbsent(c, h, k, v, now);
    InsertedAtEnd(WithRoom(c, Sweep(h, now, c.ttl)), (k, Stamped(v, now)), now, c.ttl);
  }

  lemma SetDeadRefines<V>(c: Config, h: Held<V>, gone: set<string>, k: string, v: V, now: int)
    requires Inv(c, h) && Dead(h, k, now, c.ttl) && !OrderedMaps.Has(Sweep(h, now, c.ttl), k) && k in gone
    ensures var next := Sweep(SetHeld(h, k, v, now, c.maxSize), now, c.ttl);
      EagerSet(c, Sweep(h, now, c.ttl), gone, k, v, now, next)
  {
    SetDead(h, k, Stamped(v, now), now, c.ttl);
  }

  lemma SetRefines<V>(c: Config, h: Held<V>, gone: set<string>, k: string, v: V, now: int)
    requires Inv(c, h) && 1 <= c.maxSize && k != "" && Tracks(h, gone, now, c.ttl)
    ensures var next := Sweep(SetHeld(h, k, v, now, c.maxSize), now, c.ttl);
      EagerSet(c, Sweep(h, now, c.ttl), gone, k, v, now, next)
  {
    HasSwept(h, k, now, c.ttl);
    if !OrderedMaps.Has(h, k) {
      SetAbsentRefines(c, h, gone, k, v, now);
    } else if Dead(h, k, now, c.ttl) {
      SetDeadRefines(c, h, gone, k, v, now);
    } else {
      SetLive(h, k, Stamped(v, now), now, c.ttl);
    }
  }

  /******* The keys that have gone *******/

  lemma TracksLater<V>(h: Held<V>, gone: set<string>, t: int, now: int, ttl: int)
    requires t <= now && Tracks(h, gone, t, ttl)
    ensures Tracks(h, gone + ExpiredKeys(Sweep(h, t, ttl), now, ttl), now, ttl)
  {
    forall i | 0 <= i < |h| && Expired(h[i].1.at, now, ttl) && !Expired(h[i].1.at, t, ttl)
      ensures h[i].0 in ExpiredKeys(Sweep(h, t, ttl), now, ttl)
    {
      SweepMember(h, t, ttl, h[i]);
      var s := Sweep(h, t, ttl);
      var j :| 0 <= j < |s| && s[j] == h[i];
      assert s[j].0 in ExpiredKeys(s, now, ttl);
    }
  }

  lemma TracksLess<V>(h: Held<V>, r: Held<V>, gone: set<string>, now: int, ttl: int)
    requires Tracks(h, gone, now, ttl) && forall i :: 0 <= i < |r| ==> r[i] in h
    ensures Tracks(r, gone, now, ttl)
  {
  }

  // A key with no expired entry need not be among them.
  lemma TracksWithout<V>(h: Held<V>, gone: set<string>, k: string, now: int, ttl: int)
    requires Unique(h) && Tracks(h, gone, now, ttl) && !Dead(h, k, now, ttl)
    ensures Tracks(h, gone - {k}, now, ttl)
  {
    forall i | 0 <= i < |h| && Expired(h[i].1.at, now, ttl) ensures h[i].0 != k {
      if h[i].0 == k { IndexOfUnique(h, i); }
    }
  }

  lemma DeleteTracks<V>(h: Held<V>, gone: set<string>, k: string, now: int, ttl: int)
    requires Unique(h) && Tracks(h, gone, now, ttl)
    ensures Tracks(OrderedMaps.Delete(h, k), gone - {k}, now, ttl)
  {
    DeleteUnique(h, k);
    TracksLess(h, OrderedMaps.Delete(h, k), gone, now, ttl);
    TracksWithout(OrderedMaps.Delete(h, k), gone, k, now, ttl);
  }

  lemma TouchTracks<V>(h: Held<V>, gone: set<string>, k: string, now: int, ttl: int)
    requires Unique(h) && Tracks(h, gone, now, ttl)
    ensures Tracks(TouchHeld(h, k, now, ttl), gone - {k}, now, ttl)
  {
    if Dead(h, k, now, ttl) {
      DeleteTracks(h, gone, k, now, ttl);
    } else {
      TracksWithout(h, gone, k, now, ttl);
    }
  }

  lemma PutTracks<V>(g: Held<V>, gone: set<string>, k: string, x: Stamped<V>, now: int, ttl: int)
    requires Unique(g) && Tracks(g, gone, now, ttl)
    ensures Tracks(Put(g, k, x), if Expired(x.at, now, ttl) then gone + {k} else gone - {k}, now, ttl)
  {
    var r, at := Put(g, k, x), IndexOf(g, k);
    PutUnique(g, k, x);
    forall i | 0 <= i < |r| && i != at ensures r[i].0 != k && r[i] == g[i] {
      assert r[at].0 == k;
    }
  }

  lemma SetTracks<V>(c: Config, h: Held<V>, gone: set<string>, k: string, v: V, now: int)
    requires Inv(c, h) && 1 <= c.maxSize && Tracks(h, gone, now, c.ttl)
    ensures Tracks(SetHeld(h, k, v, now, c.maxSize), GoneBy(c, gone, Timed(Set(k, v), now)), now, c.ttl)
  {
    var full := |h| >= c.maxSize && !OrderedMaps.Has(h, k);
    var g := if full then Evict(h) else h;
    if full { EvictFacts(c, h); }
    TracksLess(h, g, gone, now, c.ttl);
    PutTracks(g, gone, k, Stamped(v, now), now, c.ttl);
  }

  lemma SweepTracks<V>(h: Held<V>, now: int, ttl: int)
    ensures Tracks(Sweep(h, now, ttl), {}, now, ttl)
  {
    SweptIsLive(h, now, ttl);
  }

  lemma StepTracks<V>(c: Config, h: Held<V>, gone: set<string>, e: Timed<V>)
    requires Inv(c, h) && 1 <= c.maxSize && Tracks(h, gone, e.now, c.ttl)
    ensures Tracks(Step(c, h, e).0, GoneBy(c, gone, e), e.now, c.ttl)
  {
    match e.op {
      case Set(k, v) => SetTracks(c, h, gone, k, v, e.now);
      case Get(k) => TouchTracks(h, gone, k, e.now, c.ttl);
      case Has(k) => TouchTracks(h, gone, k, e.now, c.ttl);
      case Delete(k) => DeleteTracks(h, gone, k, e.now, c.ttl);
      case Clear =>
      case _ => SweepTracks(h, e.now, c.ttl);
    }
  }

  /******* Refinement *******/

  lemma StepKeepsInv<V>(c: Config, h: Held<V>, e: Timed<V>)
    requires Inv(c, h) && 1 <= c.maxSize && (e.op.Set? ==> e.op.key != "")
    ensures Inv(c, Step(c, h, e).0)
  {
    match e.op {
      case Set(k, v) => SetKeepsInv(c, h, k, v, e.now);
      case Get(k) => DeleteKeepsInv(c, h, k);
      case Has(k) => DeleteKeepsInv(c, h, k);
      case Delete(k) => DeleteKeepsInv(c, h, k);
      case Clear =>
      case _ => SweepKeepsInv(c, h, e.now);
    }
  }

  lemma DeleteRefines<V>(c: Config, h: Held<V>, gone: set<string>, k: string, now: int)
    requires Inv(c, h) && Tracks(h, gone, now, c.ttl)
    ensures var live := Sweep(h, now, c.ttl);
      && Sweep(OrderedMaps.Delete(h, k), now, c.ttl) == OrderedMaps.Delete(live, k)
      && (OrderedMaps.Has(live, k) ==> OrderedMaps.Has(h, k))
      && (OrderedMaps.Has(h, k) ==> OrderedMaps.Has(live, k) || k in gone)
  {
    DeleteSwept(h, k, now, c.ttl);
    HasSwept(h, k, now, c.ttl);
  }

  // One call: the lazy map does what the eager one may do.
  lemma StepRefines<V>(c: Config, h: Held<V>, gone: set<string>, e: Timed<V>)
    requires Inv(c, h) && 1 <= c.maxSize && (e.op.Set? ==> e.op.key != "") && Tracks(h, gone, e.now, c.ttl)
    ensures var (r, o) := Step(c, h, e);
      EagerCall(c, Sweep(h, e.now, c.ttl), gone, e, Sweep(r, e.now, c.ttl), o)
  {
    match e.op {
      case Set(k, v) => SetRefines(c, h, gone, k, v, e.now);
      case Get(k) => TouchSwept(h, k, e.now, c.ttl);
      case Has(k) => TouchSwept(h, k, e.now, c.ttl);
      case Delete(k) => DeleteRefines(c, h, gone, k, e.now);
      case Clear =>
      case _ => SweptIsLive(h, e.now, c.ttl);
    }
  }

  lemma {:induction false} RunRefines<V(!new)>(c: Config, h: Held<V>, gone: set<string>, t: int, es: seq<Timed<V>>)
    requires Inv(c, h) && 1 <= c.maxSize && Monotone(es, t) && NamedKeys(es) && Tracks(h, gone, t, c.ttl)
    ensures EagerRun(c, Eager(Sweep(h, t, c.ttl), gone), es, Run(c, h, es))
    ensures Inv(c, After(c, h, es))
    decreases es
  {
    if es != [] {
      var e, s := es[0], Eager(Sweep(h, t, c.ttl), gone);
      var (r, o) := Step(c, h, e);
      var dropped := gone + ExpiredKeys(s.live, e.now, c.ttl);
      TracksLater(h, gone, t, e.now, c.ttl);
      SweepLater(h, t, e.now, c.ttl);
      StepRefines(c, h, dropped, e);
      StepTracks(c, h, dropped, e);
      StepKeepsInv(c, h, e);
      RunRefines(c, r, GoneBy(c, dropped, e), e.now, es[1..]);
      var next := Eager(Sweep(r, e.now, c.ttl), GoneBy(c, dropped, e));
      assert EagerStep(c, s, e, next, o);
      assert Run(c, h, es)[1..] == Run(c, r, es[1..]);
    }
  }

  // Main result: every run of the lazy map from empty is a run of the eager one, the order
  // of iteration and the choice of victim included.
  lemma LazyRefinesEager<V(!new)>(c: Config, es: seq<Timed<V>>, t: int)
    requires 1 <= c.maxSize && Monotone(es, t) && NamedKeys(es)
    ensures EagerRun(c, Eager([], {}), es, Run(c, [], es))
  {
    var h: Held<V> := [];
    RunRefines(c, h, {}, t, es);
  }

  /******* How long an entry lives *******/

  // Calls that neither write nor take away what is held under k.
  predicate Spares<V>(op: Op<V>, k: string)
  {
    !op.Set? && !op.Clear? && (op.Delete? ==> op.key != k)
  }

  // The entry set at t is held as it was, or its lifetime is over.
  ghost predicate HeldOrOver<V>(c: Config, h: Held<V>, k: string, x: Stamped<V>, now: int)
  {
    && Unique(h)
    && (OrderedMaps.Has(h, k) ==> Lookup(h, k) == x)
    && (!OrderedMaps.Has(h, k) ==> now > x.at + c.ttl)
  }

  lemma StepHolds<V>(c: Config, h: Held<V>, k: string, x: Stamped<V>, e: Timed<V>)
    requires HeldOrOver(c, h, k, x, e.now) && Spares(e.op, k)
    ensures HeldOrOver(c, Step(c, h, e).0, k, x, e.now)
  {
    if e.op.Get? || e.op.Has? || e.op.Delete? {
      DeleteUnique(h, e.op.key);
      DeleteLookup(h, e.op.key, k);
    } else {
      SweepUnique(h, e.now, c.ttl);
      HasSwept(h, k, e.now, c.ttl);
    }
  }

  lemma {:induction false} RunHolds<V(!new)>(
    c: Config, h: Held<V>, k: string, x: Stamped<V>, es: seq<Timed<V>>, since: int, now: int)
    requires HeldOrOver(c, h, k, x, since) && Monotone(es, since) && since <= now
    requires forall e :: e in es ==> Spares(e.op, k) && e.now <= now
    ensures HeldOrOver(c, After(c, h, es), k, x, now)
    decreases es
  {
    if es != [] {
      StepHolds(c, h, k, x, es[0]);
      RunHolds(c, Step(c, h, es[0]).0, k, x, es[1..], es[0].now, now);
    }
  }

  lemma SetHolds<V>(c: Config, h: Held<V>, k: string, v: V, t: int)
    requires Unique(h)
    ensures HeldOrOver(c, SetHeld(h, k, v, t, c.maxSize), k, Stamped(v, t), t)
  {
    var g := if |h| >= c.maxSize && !OrderedMaps.Has(h, k) then Evict(h) else h;
    var o := OldestIndex(h);
    if o < |h| { DeleteUnique(h, h[o].0); }
    assert Unique(g);
    PutUnique(g, k, Stamped(v, t));
    PutLookup(g, k, Stamped(v, t), k);
  }

  lemma HeldTells<V>(c: Config, h: Held<V>, k: string, x: Stamped<V>, now: int)
    requires HeldOrOver(c, h, k, x, now)
    ensures Step(c, h, Timed(Get(k), now)).1 == Found(if now <= x.at + c.ttl then Some(x.value) else None)
    ensures Step(c, h, Timed(Has(k), now)).1 == Answer(now <= x.at + c.ttl)
  {
    DeleteUnique(h, k);
  }

  // Main result: a value set at t is found until t + ttl, that millisecond included, and not
  // after it, whatever is read, swept or deleted beside it in between.
  lemma LivesExactly<V(!new)>(c: Config, h: Held<V>, k: string, v: V, t: int, es: seq<Timed<V>>, now: int)
    requires Unique(h) && t <= now && Monotone(es, t)
    requires forall e :: e in es ==> Spares(e.op, k) && e.now <= now
    ensures var after := After(c, SetHeld(h, k, v, t, c.maxSize), es);
      && Step(c, after, Timed(Get(k), now)).1 == Found(if now <= t + c.ttl then Some(v) else None)
      && Step(c, after, Timed(Has(k), now)).1 == Answer(now <= t + c.ttl)
  {
    var r := SetHeld(h, k, v, t, c.maxSize);
    SetHolds(c, h, k, v, t);
    RunHolds(c, r, k, Stamped(v, t), es, t, now);
    HeldTells(c, After(c, r, es), k, Stamped(v, t), now);
  }
}

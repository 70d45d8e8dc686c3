/** The bound of a TTLMap, its choice of victim, and when the moments at which expired
    entries are deleted can be seen. */
module TtlCleanup {
  import opened OrderedMaps
  import opened TtlMap
  import opened TtlRefinement

  /******* The bound *******/

  // One call of set keeps the bound exactly when nothing has to go or the entry to go is
  // not under the empty key, which the source's test of the key's truth skips.
  lemma SetKeepsBoundIff<V>(h: Held<V>, k: string, v: V, now: int, maxSize: int)
    requires Unique(h) && |h| <= maxSize && 1 <= maxSize
    ensures |SetHeld(h, k, v, now, maxSize)| <= maxSize
      <==> (OrderedMaps.Has(h, k) || |h| < maxSize || h[OldestIndex(h)].0 != "")
  {
    if |h| >= maxSize && !OrderedMaps.Has(h, k) {
      Absent(h, k);
      var o := OldestIndex(h);
      IndexOfUnique(h, o);
    }
  }

  // The empty key defeats the bound.
  lemma EmptyKeyOverflows()
    ensures var h := SetHeld([], "", 7, 0, 1);
      |h| == 1 && |SetHeld(h, "a", 8, 1, 1)| == 2
  {
  }

  // Over every run without the empty key the map never holds more than it may.
  lemma HeldNeverExceeds<V(!new)>(c: Config, es: seq<Timed<V>>, t: int)
    requires 1 <= c.maxSize && Monotone(es, t) && NamedKeys(es)
    ensures |After(c, [], es)| <= c.maxSize && Unique(After(c, [], es))
  {
    var h: Held<V> := [];
    RunRefines(c, h, {}, t, es);
  }

  /******* The victim *******/

  // set drops at most one other key: the first of the least write time; and when that is
  // still live then the map was full and nothing in it had expired.
  lemma VictimIsOldest<V>(c: Config, h: Held<V>, k: string, v: V, now: int, x: string)
    requires Inv(c, h) && 1 <= c.maxSize && k != ""
    requires OrderedMaps.Has(h, x) && !OrderedMaps.Has(SetHeld(h, k, v, now, c.maxSize), x)
    ensures |h| == c.maxSize && !OrderedMaps.Has(h, k)
    ensures IndexOf(h, x) == OldestIndex(h)
    ensures SetHeld(h, k, v, now, c.maxSize) == OrderedMaps.Delete(h, x) + [(k, Stamped(v, now))]
    ensures !Dead(h, x, now, c.ttl) ==> Sweep(h, now, c.ttl) == h
  {
    var full := |h| >= c.maxSize && !OrderedMaps.Has(h, k);
    var g := if full then Evict(h) else h;
    AbsentBeforePut(g, k, Stamped(v, now), x, c, h, full);
    var o := OldestIndex(h);
    EvictFacts(c, h);
    IndexOfUnique(h, o);
    DeleteLookup(h, h[o].0, x);
    if !Dead(h, x, now, c.ttl) { OldestExpiresFirst(h, now, c.ttl); }
  }

  lemma AbsentBeforePut<V>(g: Held<V>, k: string, y: Stamped<V>, x: string, c: Config, h: Held<V>, full: bool)
    requires Inv(c, h) && g == (if full then Evict(h) else h) && (full ==> h != [])
    requires !OrderedMaps.Has(Put(g, k, y), x)
    ensures !OrderedMaps.Has(g, x) && x != k
  {
    if full { EvictFacts(c, h); }
    PutLookup(g, k, y, x);
  }

  /******* One call *******/

  // Something behind the key, in the order of the map, has not expired.
  predicate LiveBehind<V>(h: Held<V>, k: string, now: int, ttl: int)
  {
    exists j :: IndexOf(h, k) < j < |h| && !Expired(h[j].1.at, now, ttl)
  }

  lemma LiveBehindIff<V>(h: Held<V>, k: string, now: int, ttl: int)
    requires OrderedMaps.Has(h, k)
    ensures LiveBehind(h, k, now, ttl) <==> Sweep(h[IndexOf(h, k) + 1..], now, ttl) != []
  {
    var i := IndexOf(h, k);
    var q := h[i + 1..];
    var s := Sweep(q, now, ttl);
    if s != [] {
      SweepMember(q, now, ttl, s[0]);
      var n :| 0 <= n < |q| && q[n] == s[0];
      assert h[i + 1 + n] == s[0];
    } else {
      forall j | i < j < |h| ensures Expired(h[j].1.at, now, ttl) {
        assert q[j - i - 1] == h[j];
        SweepMember(q, now, ttl, h[j]);
      }
    }
  }

  // Where a new key stands in the order of a map shows unless it is at the end.
  lemma InsertedShows<V>(live: Held<V>, n: nat, x: (string, Stamped<V>))
    requires n <= |live| && !OrderedMaps.Has(live, x.0)
    ensures n == |live| ==> Inserted(live, n, x) == live + [x]
    ensures n < |live| ==> Pairs(Inserted(live, n, x)) != Pairs(live + [x])
  {
    if n == |live| {
      assert live[..n] == live && live[n..] == [];
    } else {
      Absent(live, x.0);
      assert Pairs(Inserted(live, n, x))[n].0 == x.0;
      assert Pairs(live + [x])[n].0 == live[n].0;
    }
  }

  lemma SweepFresh<V>(live: Held<V>, x: (string, Stamped<V>), n: nat, now: int, ttl: int)
    requires n <= |live| && Sweep(live, now, ttl) == live && !Expired(x.1.at, now, ttl)
    ensures Sweep(Inserted(live, n, x), now, ttl) == Inserted(live, n, x)
    ensures Sweep(live + [x], now, ttl) == live + [x]
  {
    SweptIsLive(live, now, ttl);
    forall y | y in live + [x] ensures !Expired(y.1.at, now, ttl) {
    }
    SweepIdle(live + [x], now, ttl);
    forall y | y in Inserted(live, n, x) ensures !Expired(y.1.at, now, ttl) {
      assert y in live + [x];
    }
    SweepIdle(Inserted(live, n, x), now, ttl);
  }

  lemma SetDeadCommutesIff<V>(c: Config, h: Held<V>, k: string, v: V, now: int)
    requires Inv(c, h) && 1 <= c.maxSize && k != "" && 0 <= c.ttl && Dead(h, k, now, c.ttl)
    ensures var live := Sweep(h, now, c.ttl);
      var late, early := Sweep(SetHeld(h, k, v, now, c.maxSize), now, c.ttl), SetHeld(live, k, v, now, c.maxSize);
      && (late == early <==> !LiveBehind(h, k, now, c.ttl))
      && (Pairs(late) == Pairs(early) <==> !LiveBehind(h, k, now, c.ttl))
  {
    var live, x := Sweep(h, now, c.ttl), (k, Stamped(v, now));
    HasSwept(h, k, now, c.ttl);
    SetDead(h, k, x.1, now, c.ttl);
    LiveBehindIff(h, k, now, c.ttl);
    var n := |Sweep(h[..IndexOf(h, k)], now, c.ttl)|;
    assert n < |live| <==> LiveBehind(h, k, now, c.ttl);
    SweptIsLive(h, now, c.ttl);
    SweepFresh(live, x, n, now, c.ttl);
    InsertedShows(live, n, x);
    assert SetHeld(live, k, v, now, c.maxSize) == live + [x];
  }

  lemma PutStaysSwept<V>(live: Held<V>, k: string, x: Stamped<V>, now: int, ttl: int)
    requires Sweep(live, now, ttl) == live && !Expired(x.at, now, ttl)
    ensures Sweep(Put(live, k, x), now, ttl) == Put(live, k, x)
  {
    SweptIsLive(live, now, ttl);
    forall y | y in Put(live, k, x) ensures !Expired(y.1.at, now, ttl) {
      assert y == (k, x) || y in live;
    }
    SweepIdle(Put(live, k, x), now, ttl);
  }

  lemma SetAbsentCommutes<V>(c: Config, h: Held<V>, k: string, v: V, now: int)
    requires Inv(c, h) && 1 <= c.maxSize && 0 <= c.ttl && !OrderedMaps.Has(h, k)
    ensures Sweep(SetHeld(h, k, v, now, c.maxSize), now, c.ttl) == SetHeld(Sweep(h, now, c.ttl), k, v, now, c.maxSize)
  {
    var live, x := Sweep(h, now, c.ttl), Stamped(v, now);
    var base := WithRoom(c, live);
    HasSwept(h, k, now, c.ttl);
    SweptIsLive(h, now, c.ttl);
    SweepKeepsInv(c, h, now);
    SetAbsent(c, h, k, v, now);
    RoomSwept(c, live, now);
    assert Put(base, k, x) == base + [(k, x)];
    PutStaysSwept(base, k, x, now, c.ttl);
  }

  // A live entry, or none: setting and sweeping commute.
  lemma SetOtherCommutes<V>(c: Config, h: Held<V>, k: string, v: V, now: int)
    requires Inv(c, h) && 1 <= c.maxSize && 0 <= c.ttl && !Dead(h, k, now, c.ttl)
    ensures Sweep(SetHeld(h, k, v, now, c.maxSize), now, c.ttl) == SetHeld(Sweep(h, now, c.ttl), k, v, now, c.maxSize)
  {
    if OrderedMaps.Has(h, k) {
      HasSwept(h, k, now, c.ttl);
      SweptIsLive(h, now, c.ttl);
      SetLive(h, k, Stamped(v, now), now, c.ttl);
      PutStaysSwept(Sweep(h, now, c.ttl), k, Stamped(v, now), now, c.ttl);
    } else {
      SetAbsentCommutes(c, h, k, v, now);
    }
  }

  // set behaves as if expired entries went at once exactly when the key it sets is not an
  // expired one with a live one behind it.
  lemma SetCommutesIff<V>(c: Config, h: Held<V>, k: string, v: V, now: int)
    requires Inv(c, h) && 1 <= c.maxSize && k != "" && 0 <= c.ttl
    ensures Sweep(SetHeld(h, k, v, now, c.maxSize), now, c.ttl) == SetHeld(Sweep(h, now, c.ttl), k, v, now, c.maxSize)
      <==> !Dead(h, k, now, c.ttl) || !LiveBehind(h, k, now, c.ttl)
  {
    if Dead(h, k, now, c.ttl) {
      SetDeadCommutesIff(c, h, k, v, now);
    } else {
      SetOtherCommutes(c, h, k, v, now);
    }
  }

  // delete answers as if they went at once exactly when its key is not an expired one.
  lemma DeleteAnswersIff<V>(h: Held<V>, k: string, now: int, ttl: int)
    requires Unique(h)
    ensures OrderedMaps.Has(h, k) == OrderedMaps.Has(Sweep(h, now, ttl), k) <==> !Dead(h, k, now, ttl)
  {
    HasSwept(h, k, now, ttl);
  }

  // A call that cannot tell whether the expired entries have been deleted.
  predicate Settled<V>(c: Config, h: Held<V>, e: Timed<V>)
  {
    match e.op
    case Set(k, _) => !Dead(h, k, e.now, c.ttl) || !LiveBehind(h, k, e.now, c.ttl)
    case Delete(k) => !Dead(h, k, e.now, c.ttl)
    case _ => true
  }

  // What the caller can learn of a map: what forEach lists.
  function Listed<V>(c: Config, h: Held<V>, now: int): JsMap<V>
  {
    Pairs(Sweep(h, now, c.ttl))
  }

  // The same call behind a sweep answers otherwise, or leaves the map listing otherwise.
  predicate ShowsCleanup<V(==)>(c: Config, h: Held<V>, e: Timed<V>)
  {
    var (r, o), (r', o') := Step(c, h, e), Step(c, Sweep(h, e.now, c.ttl), e);
    o != o' || Listed(c, r, e.now) != Listed(c, r', e.now)
  }

  // Both leave the same live entries.
  predicate Commutes<V(==)>(c: Config, h: Held<V>, e: Timed<V>)
  {
    var (r, o), (r', o') := Step(c, h, e), Step(c, Sweep(h, e.now, c.ttl), e);
    Sweep(r, e.now, c.ttl) == Sweep(r', e.now, c.ttl)
  }

  // Main result, one call: whether expired entries are deleted before it shows, in its answer
  // or in what the map then lists, exactly when the call is not settled.
  lemma CallShowsCleanupIff<V>(c: Config, h: Held<V>, e: Timed<V>)
    requires Inv(c, h) && 1 <= c.maxSize && 0 <= c.ttl && (e.op.Set? ==> e.op.key != "")
    ensures ShowsCleanup(c, h, e) <==> !Settled(c, h, e)
    ensures Settled(c, h, e) ==> Commutes(c, h, e)
  {
    match e.op {
      case Set(k, v) => SetShowsIff(c, h, k, v, e.now);
      case Delete(k) => DeleteShowsIff(c, h, k, e.now);
      case _ => OtherShowsNothing(c, h, e);
    }
  }

  lemma OtherShowsNothing<V>(c: Config, h: Held<V>, e: Timed<V>)
    requires Unique(h) && !e.op.Set? && !e.op.Delete?
    ensures !ShowsCleanup(c, h, e) && Commutes(c, h, e)
  {
    match e.op {
      case Get(k) => TouchBoth(h, k, e.now, c.ttl);
      case Has(k) => TouchBoth(h, k, e.now, c.ttl);
      case _ => SweptIsLive(h, e.now, c.ttl);
    }
  }

  // Reading a key of the map and of the swept map.
  lemma TouchBoth<V>(h: Held<V>, k: string, now: int, ttl: int)
    requires Unique(h)
    ensures var r, s := TouchHeld(h, k, now, ttl), TouchHeld(Sweep(h, now, ttl), k, now, ttl);
      && Sweep(r, now, ttl) == Sweep(s, now, ttl)
      && (OrderedMaps.Has(r, k) <==> OrderedMaps.Has(s, k))
      && (OrderedMaps.Has(r, k) ==> Lookup(r, k) == Lookup(s, k))
  {
    TouchSwept(h, k, now, ttl);
    SweptIsLive(h, now, ttl);
  }

  // Deleting it from both.
  lemma DeleteBoth<V>(h: Held<V>, k: string, now: int, ttl: int)
    requires Unique(h)
    ensures Sweep(OrderedMaps.Delete(h, k), now, ttl) == Sweep(OrderedMaps.Delete(Sweep(h, now, ttl), k), now, ttl)
  {
    SweepUnique(h, now, ttl);
    SweptIsLive(h, now, ttl);
    DeleteSwept(h, k, now, ttl);
    DeleteSwept(Sweep(h, now, ttl), k, now, ttl);
  }

  lemma DeleteShows<V>(c: Config, h: Held<V>, k: string, now: int, was: bool, live: bool)
    requires Unique(h) && was == OrderedMaps.Has(h, k) && live == OrderedMaps.Has(Sweep(h, now, c.ttl), k)
    ensures var e := Timed(Op.Delete(k), now);
      Commutes(c, h, e) && (ShowsCleanup(c, h, e) <==> was != live)
  {
    var s := Sweep(h, now, c.ttl);
    var e, d, d' := Timed(Op.Delete(k), now), OrderedMaps.Delete(h, k), OrderedMaps.Delete(s, k);
    assert Step(c, h, e) == (d, Deleted(was));
    assert Step(c, s, e) == (d', Deleted(live));
    DeleteBoth(h, k, now, c.ttl);
  }

  lemma DeleteShowsIff<V>(c: Config, h: Held<V>, k: string, now: int)
    requires Unique(h)
    ensures var e := Timed(Op.Delete(k), now);
      Commutes(c, h, e) && (ShowsCleanup(c, h, e) <==> Dead(h, k, now, c.ttl))
  {
    DeleteShows(c, h, k, now, OrderedMaps.Has(h, k), OrderedMaps.Has(Sweep(h, now, c.ttl), k));
    DeleteAnswersIff(h, k, now, c.ttl);
  }

  lemma SetStaysSwept<V>(c: Config, h: Held<V>, k: string, v: V, now: int)
    requires Inv(c, h) && 1 <= c.maxSize && k != "" && 0 <= c.ttl
    ensures var early := SetHeld(Sweep(h, now, c.ttl), k, v, now, c.maxSize); Sweep(early, now, c.ttl) == early
  {
    SweepKeepsInv(c, h, now);
    SweptIsLive(h, now, c.ttl);
    HasSwept(Sweep(h, now, c.ttl), k, now, c.ttl);
    SetOtherCommutes(c, Sweep(h, now, c.ttl), k, v, now);
  }

  lemma SetStep<V>(c: Config, h: Held<V>, k: string, v: V, now: int)
    ensures Step(c, h, Timed(Set(k, v), now)) == (SetHeld(h, k, v, now, c.maxSize), Silent)
  {
  }

  // What two states that answered alike list, and whether they are one behind a sweep.
  lemma ListedDiffer<V>(c: Config, e: Timed<V>, h: Held<V>, r: Held<V>, r': Held<V>, o: Obs<V>)
    requires Step(c, h, e) == (r, o) && Step(c, Sweep(h, e.now, c.ttl), e) == (r', o)
    ensures ShowsCleanup(c, h, e) <==> Listed(c, r, e.now) != Listed(c, r', e.now)
  {
  }

  lemma SweptAlike<V>(c: Config, e: Timed<V>, h: Held<V>, r: Held<V>, r': Held<V>, o: Obs<V>)
    requires Step(c, h, e) == (r, o) && Step(c, Sweep(h, e.now, c.ttl), e) == (r', o)
    ensures Commutes(c, h, e) <==> Sweep(r, e.now, c.ttl) == Sweep(r', e.now, c.ttl)
  {
  }

  lemma SetShowsIff<V>(c: Config, h: Held<V>, k: string, v: V, now: int)
    requires Inv(c, h) && 1 <= c.maxSize && k != "" && 0 <= c.ttl
    ensures var e, settled := Timed(Set(k, v), now), !Dead(h, k, now, c.ttl) || !LiveBehind(h, k, now, c.ttl);
      (ShowsCleanup(c, h, e) <==> !settled) && (settled ==> Commutes(c, h, e))
  {
    var e, live := Timed(Set(k, v), now), Sweep(h, now, c.ttl);
    var r, r' := SetHeld(h, k, v, now, c.maxSize), SetHeld(live, k, v, now, c.maxSize);
    SetStep(c, h, k, v, now);
    SetStep(c, live, k, v, now);
    ListedDiffer(c, e, h, r, r', Silent);
    SweptAlike(c, e, h, r, r', Silent);
    SetStaysSwept(c, h, k, v, now);
    if Dead(h, k, now, c.ttl) {
      SetDeadCommutesIff(c, h, k, v, now);
    } else {
      SetOtherCommutes(c, h, k, v, now);
    }
  }

  /******* Runs *******/

  // Calls left out of a comparison: the timer's, and the reads too when readsToo is set.
  predicate Skipped<V>(op: Op<V>, readsToo: bool)
  {
    op.Tick? || (readsToo && (op.Get? || op.Has?))
  }

  function Others<V>(es: seq<Timed<V>>, readsToo: bool): seq<Timed<V>>
  {
    if es == [] then [] else (if Skipped(es[0].op, readsToo) then [] else [es[0]]) + Others(es[1..], readsToo)
  }

  // The answers of all other calls.
  function Seen<V>(c: Config, h: Held<V>, es: seq<Timed<V>>, readsToo: bool): seq<Obs<V>>
    decreases es
  {
    if es == [] then []
    else
      var (r, o) := Step(c, h, es[0]);
      (if Skipped(es[0].op, readsToo) then [] else [o]) + Seen(c, r, es[1..], readsToo)
  }

  // The answers of a map in which expired entries go before every call.
  function Prompt<V>(c: Config, s: Held<V>, es: seq<Timed<V>>): seq<Obs<V>>
    decreases es
  {
    if es == [] then []
    else
      var (r, o) := Step(c, Sweep(s, es[0].now, c.ttl), es[0]);
      [o] + Prompt(c, r, es[1..])
  }

  ghost predicate AllSettled<V>(c: Config, h: Held<V>, es: seq<Timed<V>>)
    decreases es
  {
    es == [] || (Settled(c, h, es[0]) && AllSettled(c, Step(c, h, es[0]).0, es[1..]))
  }

  ghost predicate Alike<V>(c: Config, g: Held<V>, s: Held<V>, t: int)
  {
    Inv(c, g) && Sweep(g, t, c.ttl) == Sweep(s, t, c.ttl)
  }

  lemma AlikeLater<V>(c: Config, g: Held<V>, s: Held<V>, t: int, now: int)
    requires Alike(c, g, s, t) && t <= now
    ensures Alike(c, g, s, now)
  {
    SweepLater(g, t, now, c.ttl);
    SweepLater(s, t, now, c.ttl);
  }

  lemma SkippedStep<V(!new)>(c: Config, g: Held<V>, s: Held<V>, e: Timed<V>, readsToo: bool)
    requires Alike(c, g, s, e.now) && 1 <= c.maxSize && Skipped(e.op, readsToo)
    ensures Alike(c, Step(c, g, e).0, s, e.now)
  {
    StepKeepsInv(c, g, e);
    SweptIsLive(g, e.now, c.ttl);
    match e.op {
      case Get(k) => TouchSwept(g, k, e.now, c.ttl);
      case Has(k) => TouchSwept(g, k, e.now, c.ttl);
      case _ =>
    }
  }

  lemma OtherStep<V(!new)>(c: Config, g: Held<V>, s: Held<V>, e: Timed<V>)
    requires Alike(c, g, s, e.now) && 1 <= c.maxSize && 0 <= c.ttl && (e.op.Set? ==> e.op.key != "")
    requires Settled(c, g, e)
    ensures var (r, o), (r', o') := Step(c, g, e), Step(c, Sweep(s, e.now, c.ttl), e);
      Alike(c, r, r', e.now) && o == o'
  {
    StepKeepsInv(c, g, e);
    CallShowsCleanupIff(c, g, e);
    assert Commutes(c, g, e) && !ShowsCleanup(c, g, e);
  }

  lemma SeenStep<V>(c: Config, g: Held<V>, s: Held<V>, es: seq<Timed<V>>, readsToo: bool)
    requires es != []
    requires var (r, o), (r', o') := Step(c, g, es[0]), Step(c, Sweep(s, es[0].now, c.ttl), es[0]);
      if Skipped(es[0].op, readsToo) then Seen(c, r, es[1..], readsToo) == Prompt(c, s, Others(es[1..], readsToo))
      else o == o' && Seen(c, r, es[1..], readsToo) == Prompt(c, r', Others(es[1..], readsToo))
    ensures Seen(c, g, es, readsToo) == Prompt(c, s, Others(es, readsToo))
  {
    var rest := Others(es[1..], readsToo);
    if Skipped(es[0].op, readsToo) {
      assert [] + rest == rest;
      assert [] + Seen(c, Step(c, g, es[0]).0, es[1..], readsToo) == Prompt(c, s, rest);
    } else {
      assert ([es[0]] + rest)[1..] == rest;
    }
  }

  // Over a run of settled calls the lazy map answers like the prompt one that gets the other
  // calls only.
  lemma {:induction false} SettledIsPrompt<V(!new)>(
    c: Config, g: Held<V>, s: Held<V>, es: seq<Timed<V>>, t: int, readsToo: bool)
    requires Alike(c, g, s, t) && 1 <= c.maxSize && 0 <= c.ttl
    requires Monotone(es, t) && NamedKeys(es) && AllSettled(c, g, es)
    ensures Seen(c, g, es, readsToo) == Prompt(c, s, Others(es, readsToo))
    decreases es
  {
    if es != [] {
      var e := es[0];
      AlikeLater(c, g, s, t, e.now);
      if Skipped(e.op, readsToo) {
        SkippedStep(c, g, s, e, readsToo);
        SettledIsPrompt(c, Step(c, g, e).0, s, es[1..], e.now, readsToo);
      } else {
        OtherStep(c, g, s, e);
        SettledIsPrompt(c, Step(c, g, e).0, Step(c, Sweep(s, e.now, c.ttl), e).0, es[1..], e.now, readsToo);
      }
      SeenStep(c, g, s, es, readsToo);
    }
  }

  // Main result, runs: two runs of the same calls with the timer firing at different moments
  // give the same answers, the order of iteration and the answers of delete included, when
  // every call in them is settled. With readsToo the runs may differ in their reads as well:
  // what is evicted does not depend on what has been read.
  lemma CleanupInvisible<V(!new)>(c: Config, es: seq<Timed<V>>, fs: seq<Timed<V>>, t: int, readsToo: bool)
    requires 1 <= c.maxSize && 0 <= c.ttl && Others(es, readsToo) == Others(fs, readsToo)
    requires Monotone(es, t) && NamedKeys(es) && AllSettled(c, [], es)
    requires Monotone(fs, t) && NamedKeys(fs) && AllSettled(c, [], fs)
    ensures Seen(c, [], es, readsToo) == Seen(c, [], fs, readsToo)
  {
    var h: Held<V> := [];
    SettledIsPrompt(c, h, h, es, t, readsToo);
    SettledIsPrompt(c, h, h, fs, t, readsToo);
  }

  // A call of has just before makes any set or delete of the same key settled.
  lemma ReadFirstSettles<V>(c: Config, h: Held<V>, e: Timed<V>)
    requires Unique(h) && (e.op.Set? || e.op.Delete?)
    ensures Settled(c, Step(c, h, Timed(Op.Has(e.op.key), e.now)).0, e)
  {
  }

  /******* Inputs where it shows *******/

  // Ten milliseconds to live: "a" is set again two after it has expired, and stands before
  // "b" unless the timer fired in between.
  lemma OrderShowsCleanup()
    ensures var held, swept := [("a", Stamped(0, 1)), ("b", Stamped(1, 5))], [("b", Stamped(1, 5))];
      && swept == Sweep(held, 12, 10)
      && SetHeld(held, "a", 2, 12, 3) == [("a", Stamped(2, 12)), ("b", Stamped(1, 5))]
      && SetHeld(swept, "a", 2, 12, 3) == [("b", Stamped(1, 5)), ("a", Stamped(2, 12))]
  {
  }

  // With both writes in one millisecond the place decides which of them is evicted next.
  lemma TieShowsCleanup(x: string, y: string, u: int, v: int, t: int)
    requires x != y && x != "" && y != "" && x != "c" && y != "c"
    ensures SetHeld([(x, Stamped(u, t)), (y, Stamped(v, t))], "c", 3, t, 2)
      == [(y, Stamped(v, t)), ("c", Stamped(3, t))]
  {
  }

  // "a" has just been read when "c" pushes it out: eviction is by time of writing.
  lemma ReadDoesNotProtect()
    ensures var a, b, c := ("a", Stamped(0, 1)), ("b", Stamped(1, 2)), ("c", Stamped(2, 4));
      && SetHeld(SetHeld([], "a", 0, 1, 2), "b", 1, 2, 2) == [a, b]
      && TouchHeld([a, b], "a", 3, 1000) == [a, b]
      && SetHeld([a, b], "c", 2, 4, 2) == [b, c]
  {
  }
}

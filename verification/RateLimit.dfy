/** The fixed-window rate limiter. Every limiter shares one store, so a request carries
    the limits of the limiter it goes through. */
module RateLimit {

  datatype Window = Window(count: nat, resetAt: int)

  type Store = map<string, Window>

  datatype Response =
    | Next(remaining: nat)
    | TooManyRequests(retryAfter: int)

  // X-RateLimit-Limit, -Remaining and -Reset; the reset is in seconds.
  datatype Headers = Headers(limit: nat, remaining: nat, reset: int)

  // Math.ceil of a quotient by a positive integer.
  function CeilDiv(x: int, w: int): int
    requires w > 0
  {
    (x + w - 1) / w
  }

  /******* One request, one cleanup *******/

  predicate Active(s: Store, key: string, now: int)
  {
    key in s && s[key].resetAt >= now
  }

  // The key's window once it has counted a request made now.
  function Counted(s: Store, key: string, now: int, windowMs: int): Window
  {
    if Active(s, key, now) then s[key].(count := s[key].count + 1) else Window(1, now + windowMs)
  }

  function CleanedUp(s: Store, now: int): Store
  {
    map k | k in s && s[k].resetAt >= now :: s[k]
  }

  class Limiter {
    var store: Store

    constructor ()
      ensures store == map[]
    {
      store := map[];
    }

    method Request(key: string, now: int, maxRequests: nat, windowMs: int) returns (r: Response, headers: Headers)
      modifies this
      ensures store == old(store)[key := Counted(old(store), key, now, windowMs)]
      ensures var w := store[key];
        r == if w.count > maxRequests then TooManyRequests(CeilDiv(w.resetAt - now, 1000))
             else Next(maxRequests - w.count)
      ensures var w := store[key];
        var left := if w.count > maxRequests then 0 else maxRequests - w.count;
        headers == Headers(maxRequests, left, CeilDiv(w.resetAt, 1000))
    {
      if key !in store || store[key].resetAt < now {
        store := store[key := Window(0, now + windowMs)];
      }
      var entry := store[key];
      entry := entry.(count := entry.count + 1);
      store := store[key := entry];
      var left := if maxRequests > entry.count then maxRequests - entry.count else 0;
      headers := Headers(maxRequests, left, CeilDiv(entry.resetAt, 1000));
      if entry.count > maxRequests {
        return TooManyRequests(CeilDiv(entry.resetAt - now, 1000)), headers;
      }
      return Next(maxRequests - entry.count), headers;
    }

    // The five-minute cleanup, entry by entry.
    method Cleanup(now: int)
      modifies this
      ensures store == CleanedUp(old(store), now)
    {
      var keys := store.Keys;
      while keys != {}
        invariant keys <= old(store).Keys
        invariant store == map k | k in old(store) && (k in keys || old(store)[k].resetAt >= now) :: old(store)[k]
        decreases |keys|
      {
        var k :| k in keys;
        if store[k].resetAt < now {
          store := store - {k};
        }
        keys := keys - {k};
      }
    }
  }

  // What a cleanup leaves is exactly what still counts: no entry whose window is over stays,
  // and none that is still running goes or changes.
  lemma CleanupLeavesActive(s: Store, key: string, now: int)
    ensures key in Step(s, Cleanup(now)) <==> key in s && s[key].resetAt >= now
    ensures key in Step(s, Cleanup(now)) ==> Step(s, Cleanup(now))[key] == s[key]
  {
  }

  // A client told to retry after n seconds that does so is let in, unless the wait ends
  // on the very millisecond of the reset, which still belongs to the old window.
  lemma RetryAfterHelpsIff(s: Store, key: string, now: int, maxRequests: nat, windowMs: int)
    requires Active(s, key, now) && s[key].count >= maxRequests >= 1
    ensures var w := Counted(s, key, now, windowMs);
      var later := now + 1000 * CeilDiv(w.resetAt - now, 1000);
      Counted(s[key := w], key, later, windowMs).count <= maxRequests <==> (w.resetAt - now) % 1000 != 0
  {
  }

  /******* Runs *******/

  datatype Event =
    | Request(key: string, now: int, maxRequests: nat, windowMs: int)
    | Cleanup(now: int)

  ghost predicate Monotone(es: seq<Event>, since: int)
  {
    es == [] || (since <= es[0].now && Monotone(es[1..], es[0].now))
  }

  function Step(s: Store, e: Event): Store
  {
    match e
    case Request(key, now, _, windowMs) => s[key := Counted(s, key, now, windowMs)]
    case Cleanup(now) => CleanedUp(s, now)
  }

  predicate Admits(s: Store, e: Event)
    requires e.Request?
  {
    Counted(s, e.key, e.now, e.windowMs).count <= e.maxRequests
  }

  // The decisions on all requests, in order.
  function Decisions(s: Store, es: seq<Event>): seq<bool>
    decreases es
  {
    if es == [] then []
    else (if es[0].Request? then [Admits(s, es[0])] else []) + Decisions(Step(s, es[0]), es[1..])
  }

  // The decisions on one key's requests.
  function DecisionsFor(s: Store, es: seq<Event>, key: string): seq<bool>
    decreases es
  {
    if es == [] then []
    else (if Mine(es[0], key) then [Admits(s, es[0])] else []) + DecisionsFor(Step(s, es[0]), es[1..], key)
  }

  predicate Mine(e: Event, key: string)
  {
    e.Request? && e.key == key
  }

  function Requests(es: seq<Event>): seq<Event>
  {
    if es == [] then [] else (if es[0].Request? then [es[0]] else []) + Requests(es[1..])
  }

  function Own(es: seq<Event>, key: string): seq<Event>
  {
    if es == [] then [] else (if Mine(es[0], key) then [es[0]] else []) + Own(es[1..], key)
  }

  /******* The janitor is invisible, and so are other keys *******/

  // From now on both stores treat the key alike: an expired entry is as good as none.
  ghost predicate SameFor(s: Store, r: Store, key: string, now: int)
  {
    && (Active(s, key, now) <==> Active(r, key, now))
    && (Active(s, key, now) ==> s[key] == r[key])
  }

  lemma {:induction false} RunAlike(s: Store, r: Store, es: seq<Event>, t: int)
    requires Monotone(es, t) && forall k :: SameFor(s, r, k, t)
    ensures Decisions(s, es) == Decisions(r, Requests(es))
    decreases es
  {
    if es != [] {
      var e := es[0];
      if e.Request? {
        forall k ensures SameFor(Step(s, e), Step(r, e), k, e.now) {
          assert SameFor(s, r, k, t) && SameFor(s, r, e.key, t);
        }
        assert SameFor(s, r, e.key, t);
        RunAlike(Step(s, e), Step(r, e), es[1..], e.now);
        assert Requests(es)[0] == e && Requests(es)[1..] == Requests(es[1..]);
      } else {
        forall k ensures SameFor(Step(s, e), r, k, e.now) {
          assert SameFor(s, r, k, t);
        }
        RunAlike(Step(s, e), r, es[1..], e.now);
        assert [] + Requests(es[1..]) == Requests(es[1..]);
      }
    }
  }

  // Same requests, different cleanup times, same decisions.
  lemma CleanupInvisible(s: Store, es: seq<Event>, fs: seq<Event>, t: int)
    requires Monotone(es, t) && Monotone(fs, t) && Requests(es) == Requests(fs)
    ensures Decisions(s, es) == Decisions(s, fs)
  {
    RunAlike(s, s, es, t);
    RunAlike(s, s, fs, t);
  }

  lemma {:induction false} RunForKey(s: Store, r: Store, es: seq<Event>, key: string, t: int)
    requires Monotone(es, t) && SameFor(s, r, key, t)
    ensures DecisionsFor(s, es, key) == Decisions(r, Own(es, key))
    decreases es
  {
    if es != [] {
      var e := es[0];
      if Mine(e, key) {
        RunForKey(Step(s, e), Step(r, e), es[1..], key, e.now);
        assert Own(es, key)[0] == e && Own(es, key)[1..] == Own(es[1..], key);
      } else {
        RunForKey(Step(s, e), r, es[1..], key, e.now);
        assert [] + Own(es[1..], key) == Own(es[1..], key);
      }
    }
  }

  // A key's decisions are those of a run holding its own requests alone.
  lemma KeysAreIndependent(s: Store, es: seq<Event>, key: string, t: int)
    requires Monotone(es, t)
    ensures DecisionsFor(s, es, key) == Decisions(s, Own(es, key))
  {
    RunForKey(s, s, es, key, t);
  }

  /******* What a window admits *******/

  // Requests of one key through one limiter, up to some time.
  ghost predicate OwnUpTo(es: seq<Event>, key: string, m: nat, w: int, end: int)
  {
    forall i :: 0 <= i < |es| ==> Mine(es[i], key) && es[i].maxRequests == m && es[i].windowMs == w && es[i].now <= end
  }

  lemma {:induction false} WindowGoesOn(s: Store, es: seq<Event>, key: string, m: nat, w: int, t: int)
    requires Active(s, key, t) && Monotone(es, t) && OwnUpTo(es, key, m, w, s[key].resetAt)
    ensures var ds := Decisions(s, es);
      |ds| == |es| && forall i :: 0 <= i < |es| ==> (ds[i] <==> s[key].count + i < m)
    decreases es
  {
    if es != [] {
      var e := es[0];
      var next := Step(s, e);
      WindowGoesOn(next, es[1..], key, m, w, e.now);
      var ds, rest := Decisions(s, es), Decisions(next, es[1..]);
      assert ds == [Admits(s, e)] + rest;
      forall i | 0 <= i < |es| ensures ds[i] <==> s[key].count + i < m {
        if i > 0 { assert ds[i] == rest[i - 1]; }
      }
    }
  }

  // A key without a window, or with one that is over: the first m requests from there to
  // the end of the new window are admitted and all the others are not.
  lemma WindowAdmitsExactly(s: Store, es: seq<Event>, key: string, m: nat, w: nat)
    requires es != [] && !Active(s, key, es[0].now)
    requires Monotone(es, es[0].now) && OwnUpTo(es, key, m, w, es[0].now + w)
    ensures var ds := Decisions(s, es);
      |ds| == |es| && forall i :: 0 <= i < |es| ==> (ds[i] <==> i < m)
  {
    var e := es[0];
    var next := Step(s, e);
    WindowGoesOn(next, es[1..], key, m, w, e.now);
    var ds, rest := Decisions(s, es), Decisions(next, es[1..]);
    assert ds == [Admits(s, e)] + rest;
    forall i | 0 <= i < |es| ensures ds[i] <==> i < m {
      if i > 0 { assert ds[i] == rest[i - 1]; }
    }
  }

  // The store after a run.
  function StepAll(s: Store, es: seq<Event>): Store
    decreases es
  {
    if es == [] then s else StepAll(Step(s, es[0]), es[1..])
  }

  lemma {:induction false} DecisionsLast(s: Store, es: seq<Event>, e: Event)
    ensures Decisions(s, es + [e]) == Decisions(s, es) + Decisions(StepAll(s, es), [e])
    decreases es
  {
    if es == [] {
      assert es + [e] == [e];
    } else {
      assert (es + [e])[1..] == es[1..] + [e];
      DecisionsLast(Step(s, es[0]), es[1..], e);
    }
  }

  lemma {:induction false} WindowStays(s: Store, es: seq<Event>, key: string, m: nat, w: int, t: int)
    requires Active(s, key, t) && Monotone(es, t) && OwnUpTo(es, key, m, w, s[key].resetAt)
    ensures key in StepAll(s, es) && StepAll(s, es)[key].resetAt == s[key].resetAt
    decreases es
  {
    if es != [] { WindowStays(Step(s, es[0]), es[1..], key, m, w, es[0].now); }
  }

  // Main result: a window is exactly w long, whenever it starts. Behind own requests that
  // began with its first, the next is decided by the count up to its last millisecond, and
  // admitted at any time after that.
  lemma NextWindowOpens(s: Store, es: seq<Event>, key: string, m: nat, w: nat, next: Event)
    requires m >= 1 && es != [] && !Active(s, key, es[0].now)
    requires Monotone(es, es[0].now) && OwnUpTo(es, key, m, w, es[0].now + w)
    requires OwnUpTo([next], key, m, w, next.now) && es[|es| - 1].now <= next.now
    ensures Decisions(s, es + [next]) == Decisions(s, es) + [next.now > es[0].now + w || |es| < m]
  {
    var e := es[0];
    DecisionsLast(s, es, next);
    WindowStays(Step(s, e), es[1..], key, m, w, e.now);
    if next.now <= e.now + w {
      MonotoneLast(es, next, e.now);
      WindowAdmitsExactly(s, es + [next], key, m, w);
      WindowAdmitsExactly(s, es, key, m, w);
      var ds := Decisions(s, es + [next]);
      assert ds[|es|] == (|es| < m);
    }
  }

  lemma {:induction false} MonotoneLast(es: seq<Event>, next: Event, t: int)
    requires es != [] && Monotone(es, t) && es[|es| - 1].now <= next.now
    ensures Monotone(es + [next], t)
    decreases es
  {
    assert (es + [next])[1..] == es[1..] + [next];
    if |es| > 1 { MonotoneLast(es[1..], next, es[0].now); }
  }

  ghost predicate OneLimiter(es: seq<Event>, key: string, m: nat, w: int)
  {
    forall e :: e in es && Mine(e, key) ==> e.maxRequests == m && e.windowMs == w
  }

  // The key's window ends at most w from now.
  ghost predicate EndsSoon(s: Store, key: string, w: int, now: int)
  {
    key in s ==> s[key].resetAt <= now + w
  }

  lemma {:induction false} RunEndsSoon(s: Store, es: seq<Event>, key: string, m: nat, w: int, t: int, now: int)
    requires Monotone(es, t) && OneLimiter(es, key, m, w) && EndsSoon(s, key, w, t)
    requires (es == [] && t <= now) || (es != [] && es[|es| - 1].now <= now)
    ensures EndsSoon(StepAll(s, es), key, w, now)
    decreases es
  {
    if es != [] { RunEndsSoon(Step(s, es[0]), es[1..], key, m, w, es[0].now, now); }
  }

  // A client of one limiter is told to wait at least not at all and at most the window's
  // length in whole seconds.
  lemma RetryAfterAtMost(es: seq<Event>, key: string, m: nat, w: nat, t: int, now: int)
    requires Monotone(es, t) && OneLimiter(es, key, m, w)
    requires (es == [] && t <= now) || (es != [] && es[|es| - 1].now <= now)
    ensures var x := Counted(StepAll(map[], es), key, now, w);
      now <= x.resetAt <= now + w && 0 <= CeilDiv(x.resetAt - now, 1000) <= CeilDiv(w, 1000)
  {
    RunEndsSoon(map[], es, key, m, w, t, now);
  }

  /******* The rate bound *******/

  // How many of the key's requests in [lo, hi] are admitted.
  function AdmittedIn(s: Store, es: seq<Event>, key: string, lo: int, hi: int): nat
    decreases es
  {
    if es == [] then 0
    else
      (if Mine(es[0], key) && lo <= es[0].now <= hi && Admits(s, es[0]) then 1 else 0)
      + AdmittedIn(Step(s, es[0]), es[1..], key, lo, hi)
  }

  // What windows starting more than w apart can admit over a stretch of x.
  function Quota(x: int, m: nat, w: int): nat
    requires w > 0
    decreases x
  {
    if x <= 0 then 0 else m + Quota(x - w, m, w)
  }

  lemma {:induction false} QuotaMonotone(x: int, y: int, m: nat, w: int)
    requires w > 0 && x <= y
    ensures Quota(x, m, w) <= Quota(y, m, w)
    decreases y
  {
    if x > 0 { QuotaMonotone(x - w, y - w, m, w); }
  }

  lemma DivUnique(a: int, w: int, q: int)
    requires w > 0 && q * w <= a < q * w + w
    ensures a / w == q
  {
    var d := a / w - q;
    assert a == (q + d) * w + a % w == q * w + d * w + a % w;
    assert (d - 1) * w == d * w - w && (-d - 1) * w == -(d * w) - w;
    MulSign(d - 1, w);
    MulSign(-d - 1, w);
  }

  lemma MulSign(x: int, w: int)
    requires w > 0
    ensures x >= 0 ==> x * w >= 0
  {
  }

  lemma CeilDivPlus(x: int, w: int)
    requires w > 0
    ensures CeilDiv(x + w, w) == CeilDiv(x, w) + 1
  {
    var q := (x + w - 1) / w;
    assert (q + 1) * w == q * w + w;
    DivUnique(x + w + w - 1, w, q + 1);
  }

  lemma {:induction false} QuotaClosed(x: int, m: nat, w: int)
    requires w > 0 && x > -w
    ensures Quota(x, m, w) == m * CeilDiv(x, w)
    decreases x
  {
    if x <= 0 {
      DivUnique(x + w - 1, w, 0);
    } else {
      QuotaClosed(x - w, m, w);
      CeilDivPlus(x - w, w);
      var c := CeilDiv(x - w, w);
      assert m * (c + 1) == m * c + m;
    }
  }

  lemma {:induction false} NoneAfter(s: Store, es: seq<Event>, key: string, lo: int, hi: int, t: int)
    requires Monotone(es, t) && t > hi
    ensures AdmittedIn(s, es, key, lo, hi) == 0
    decreases es
  {
    if es != [] { NoneAfter(Step(s, es[0]), es[1..], key, lo, hi, es[0].now); }
  }

  // Once the key has a window ending at r: what is left of it, and the windows after r.
  lemma {:induction false} BoundFromWindow(
    s: Store, x: Window, es: seq<Event>, key: string, lo: int, hi: int, m: nat, w: int, t: int)
    requires Monotone(es, t) && OneLimiter(es, key, m, w) && w > 0
    requires Active(s, key, t) ==> s[key] == x
    requires !Active(s, key, t) ==> x.resetAt < t
    ensures AdmittedIn(s, es, key, lo, hi) <= (if x.count < m then m - x.count else 0) + Quota(hi - x.resetAt, m, w)
    decreases es
  {
    if es != [] {
      var e := es[0];
      var s' := Step(s, e);
      if e.now > hi {
        NoneAfter(s, es, key, lo, hi, e.now);
      } else if !Mine(e, key) {
        BoundFromWindow(s', x, es[1..], key, lo, hi, m, w, e.now);
      } else {
        BoundFromWindow(s', s'[key], es[1..], key, lo, hi, m, w, e.now);
        if x.resetAt < e.now {
          QuotaMonotone(hi - e.now - w, hi - x.resetAt - w, m, w);
        }
      }
    }
  }

  ghost predicate Counting(s: Store)
  {
    forall k :: k in s ==> s[k].count >= 1
  }

  // Any interval of positive length: one window short of its first request, and a full
  // window for each started length of w.
  lemma {:induction false} RateBound(s: Store, es: seq<Event>, key: string, lo: int, hi: int, m: nat, w: int, t: int)
    requires Monotone(es, t) && OneLimiter(es, key, m, w) && w > 0 && lo < hi && 1 <= m && Counting(s)
    ensures AdmittedIn(s, es, key, lo, hi) <= m - 1 + Quota(hi - lo, m, w)
    decreases es
  {
    if es != [] {
      var e := es[0];
      var s' := Step(s, e);
      if e.now > hi {
        NoneAfter(s, es, key, lo, hi, e.now);
      } else if !Mine(e, key) || e.now < lo {
        RateBound(s', es[1..], key, lo, hi, m, w, e.now);
      } else {
        BoundFromWindow(s', s'[key], es[1..], key, lo, hi, m, w, e.now);
        if Active(s, key, e.now) {
          QuotaMonotone(hi - s'[key].resetAt, hi - lo, m, w);
        } else {
          QuotaMonotone(hi - e.now - w, hi - lo - w, m, w);
        }
      }
    }
  }

  // (ceil(L/W) + 1) * M, for an interval of length L.
  function Allowance(length: int, m: nat, w: int): nat
    requires w > 0
  {
    m + Quota(length, m, w)
  }

  lemma AllowanceClosed(length: nat, m: nat, w: int)
    requires w > 0
    ensures Allowance(length, m, w) == m * (CeilDiv(length, w) + 1)
  {
    QuotaClosed(length, m, w);
    var c := CeilDiv(length, w);
    assert m * (c + 1) == m * c + m;
  }

  // Main result: from an empty store, for one limiter, whatever other keys and the cleanup
  // do: at most the allowance in any interval, and less when its length is positive.
  lemma RateBoundOverAnyInterval(es: seq<Event>, key: string, lo: int, hi: int, m: nat, w: int, t: int)
    requires Monotone(es, t) && OneLimiter(es, key, m, w) && w > 0 && lo <= hi
    ensures AdmittedIn(map[], es, key, lo, hi) <= Allowance(hi - lo, m, w)
    ensures lo < hi && m >= 1 ==> AdmittedIn(map[], es, key, lo, hi) < Allowance(hi - lo, m, w)
  {
    if lo < hi && m >= 1 {
      RateBound(map[], es, key, lo, hi, m, w, t);
    } else {
      InstantBound(map[], es, key, lo, hi, m, w, t);
    }
  }

  // So in an interval no longer than the window, at most twice the limit.
  lemma TwiceTheLimit(es: seq<Event>, key: string, lo: int, hi: int, m: nat, w: int, t: int)
    requires Monotone(es, t) && OneLimiter(es, key, m, w) && w > 0 && lo <= hi <= lo + w
    ensures AdmittedIn(map[], es, key, lo, hi) <= 2 * m
  {
    RateBoundOverAnyInterval(es, key, lo, hi, m, w, t);
    QuotaMonotone(hi - lo, w, m, w);
  }

  lemma {:induction false} InstantBound(s: Store, es: seq<Event>, key: string, lo: int, hi: int, m: nat, w: int, t: int)
    requires Monotone(es, t) && OneLimiter(es, key, m, w) && w > 0 && lo <= hi && (lo == hi || m == 0)
    ensures AdmittedIn(s, es, key, lo, hi) <= m
    decreases es
  {
    if es != [] {
      var e := es[0];
      var s' := Step(s, e);
      if e.now > hi {
        NoneAfter(s, es, key, lo, hi, e.now);
      } else if !Mine(e, key) || e.now < lo || m == 0 {
        InstantBound(s', es[1..], key, lo, hi, m, w, e.now);
      } else {
        BoundFromWindow(s', s'[key], es[1..], key, lo, hi, m, w, e.now);
      }
    }
  }

  /******* The bound is attained *******/

  function Repeat(n: nat, e: Event): seq<Event>
  {
    if n == 0 then [] else [e] + Repeat(n - 1, e)
  }

  // One request opens a window; the rest of it is spent on its last millisecond, and the
  // next window in full on the millisecond after.
  function Burst(key: string, t: int, m: nat, w: int): seq<Event>
    requires m >= 1
  {
    [Request(key, t, m, w)] + Repeat(m - 1, Request(key, t + w, m, w)) + Repeat(m, Request(key, t + w + 1, m, w))
  }

  lemma {:induction false} SpendWindow(s: Store, n: nat, e: Event, rest: seq<Event>, lo: int, hi: int)
    requires e.Request? && lo <= e.now <= hi && Active(s, e.key, e.now)
    requires s[e.key].count + n <= e.maxRequests
    ensures var s' := s[e.key := s[e.key].(count := s[e.key].count + n)];
      AdmittedIn(s, Repeat(n, e) + rest, e.key, lo, hi) == n + AdmittedIn(s', rest, e.key, lo, hi)
    decreases n
  {
    var es := Repeat(n, e) + rest;
    if n == 0 {
      assert es == rest;
      assert s[e.key := s[e.key]] == s;
    } else {
      assert es[0] == e && es[1..] == Repeat(n - 1, e) + rest;
      var x := s[e.key];
      SpendWindow(Step(s, e), n - 1, e, rest, lo, hi);
      assert s[e.key := Window(x.count + 1, x.resetAt)][e.key := Window(x.count + n, x.resetAt)]
        == s[e.key := Window(x.count + n, x.resetAt)];
    }
  }

  lemma BoundIsAttained(key: string, t: int, m: nat, w: int)
    requires m >= 1 && w >= 1
    ensures AdmittedIn(map[], Burst(key, t, m, w), key, t + w, t + 2 * w) == 2 * m - 1
  {
    var lo, hi := t + w, t + 2 * w;
    var first, second := Request(key, lo, m, w), Request(key, lo + 1, m, w);
    var tail := Repeat(m, second);
    var es := Burst(key, t, m, w);
    var s0: Store := map[key := Window(1, lo)];
    assert Step(map[], es[0]) == s0;
    assert es[1..] == Repeat(m - 1, first) + tail;
    SpendWindow(s0, m - 1, first, tail, lo, hi);
    var s1 := s0[key := Window(m, lo)];
    var s2 := s1[key := Window(1, lo + 1 + w)];
    assert tail[0] == second && tail[1..] == Repeat(m - 1, second) + [];
    assert Step(s1, second) == s2;
    SpendWindow(s2, m - 1, second, [], lo, hi);
  }
}

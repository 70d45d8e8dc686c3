/** Cutting a sequence at a separator and putting the pieces back together,
    as String.prototype.split and Array.prototype.join do. */
module Lines {

  function Split<T(==)>(s: seq<T>, sep: T): (parts: seq<seq<T>>)
    ensures |parts| >= 1
  {
    if s == [] then [[]]
    else
      var rest := Split(s[1..], sep);
      if s[0] == sep then [[]] + rest else [[s[0]] + rest[0]] + rest[1..]
  }

  function Join<T>(parts: seq<seq<T>>, sep: T): seq<T>
  {
    if parts == [] then []
    else if |parts| == 1 then parts[0]
    else parts[0] + [sep] + Join(parts[1..], sep)
  }

  ghost predicate Plain<T>(parts: seq<seq<T>>, sep: T)
  {
    forall i :: 0 <= i < |parts| ==> sep !in parts[i]
  }

  // Joining what was split gives the sequence back, and no piece holds a separator.
  lemma {:induction false} JoinSplit<T>(s: seq<T>, sep: T)
    ensures Join(Split(s, sep), sep) == s
    ensures Plain(Split(s, sep), sep)
  {
    if s != [] {
      JoinSplit(s[1..], sep);
      var rest := Split(s[1..], sep);
      if s[0] == sep {
        assert ([[]] + rest)[1..] == rest;
      } else {
        var parts := [[s[0]] + rest[0]] + rest[1..];
        assert parts[1..] == rest[1..];
        assert s == [s[0]] + s[1..];
      }
    }
  }

  lemma {:induction false} SplitPlain<T>(s: seq<T>, sep: T)
    requires sep !in s
    ensures Split(s, sep) == [s]
  {
    if s != [] {
      SplitPlain(s[1..], sep);
      assert s == [s[0]] + s[1..];
    }
  }

  // A separator in the middle cuts the split in two.
  lemma {:induction false} SplitAppend<T>(a: seq<T>, b: seq<T>, sep: T)
    ensures Split(a + [sep] + b, sep) == Split(a, sep) + Split(b, sep)
  {
    var s := a + [sep] + b;
    if a == [] {
      assert s == [sep] + b;
      assert s[1..] == b;
    } else {
      assert s[1..] == a[1..] + [sep] + b;
      SplitAppend(a[1..], b, sep);
    }
  }

  // Splitting what was joined gives the pieces back.
  lemma {:induction false} SplitJoin<T>(parts: seq<seq<T>>, sep: T)
    requires |parts| >= 1 && Plain(parts, sep)
    ensures Split(Join(parts, sep), sep) == parts
  {
    SplitPlain(parts[0], sep);
    if |parts| > 1 {
      SplitJoin(parts[1..], sep);
      SplitAppend(parts[0], Join(parts[1..], sep), sep);
      assert parts == [parts[0]] + parts[1..];
    }
  }

  lemma {:induction false} JoinAppend<T>(xs: seq<seq<T>>, ys: seq<seq<T>>, sep: T)
    requires xs != [] && ys != []
    ensures Join(xs + ys, sep) == Join(xs, sep) + [sep] + Join(ys, sep)
  {
    if |xs| == 1 {
      assert (xs + ys)[1..] == ys;
    } else {
      JoinAppend(xs[1..], ys, sep);
      assert (xs + ys)[1..] == xs[1..] + ys;
    }
  }

  // Joining runs of pieces with a piece between them.
  lemma JoinAround<T>(xs: seq<seq<T>>, mid: seq<T>, ys: seq<seq<T>>, sep: T)
    ensures Join(xs + [mid] + ys, sep) ==
      (if xs == [] then [] else Join(xs, sep) + [sep]) + mid + (if ys == [] then [] else [sep] + Join(ys, sep))
  {
    if ys == [] {
      assert xs + [mid] + ys == xs + [mid];
    } else {
      JoinAppend(xs + [mid], ys, sep);
    }
    if xs == [] {
      assert xs + [mid] == [mid];
    } else {
      JoinAppend(xs, [mid], sep);
    }
    var front := Join(xs + [mid], sep);
    assert front + [] == front && front + [sep] + Join(ys, sep) == front + ([sep] + Join(ys, sep));
    assert [] + mid == mid;
  }

  lemma Regroup<T>(a: seq<T>, x: seq<T>, y: seq<T>, d: seq<T>)
    ensures (a + x + []) + ([] + y + d) == a + (x + y) + d
  {
  }

  // Two runs of pieces, the last of one and the first of the other run together.
  lemma JoinCut<T>(p: seq<seq<T>>, x: seq<T>, y: seq<T>, q: seq<seq<T>>, sep: T)
    ensures Join(p + [x], sep) + Join([y] + q, sep) == Join(p + [x + y] + q, sep)
  {
    JoinAround(p, x, [], sep);
    JoinAround([], y, q, sep);
    JoinAround(p, x + y, q, sep);
    assert p + [x] + [] == p + [x] && [] + [y] + q == [y] + q;
    Regroup(if p == [] then [] else Join(p, sep) + [sep], x, y, if q == [] then [] else [sep] + Join(q, sep));
  }

  // A cut anywhere cuts one piece in two.
  lemma SplitCut<T>(a: seq<T>, b: seq<T>, sep: T)
    ensures var xs, ys := Split(a, sep), Split(b, sep);
      Split(a + b, sep) == xs[..|xs| - 1] + [xs[|xs| - 1] + ys[0]] + ys[1..]
  {
    var xs, ys := Split(a, sep), Split(b, sep);
    var p, x, y, q := xs[..|xs| - 1], xs[|xs| - 1], ys[0], ys[1..];
    assert p + [x] == xs && [y] + q == ys;
    JoinSplit(a, sep);
    JoinSplit(b, sep);
    SplitJoinCut(p, x, y, q, sep);
  }

  lemma SplitJoinCut<T>(p: seq<seq<T>>, x: seq<T>, y: seq<T>, q: seq<seq<T>>, sep: T)
    requires Plain(p + [x], sep) && Plain([y] + q, sep)
    ensures Split(Join(p + [x], sep) + Join([y] + q, sep), sep) == p + [x + y] + q
  {
    JoinCut(p, x, y, q, sep);
    PlainCut(p, x, y, q, sep);
    SplitJoin(p + [x + y] + q, sep);
  }

  lemma PlainCut<T>(p: seq<seq<T>>, x: seq<T>, y: seq<T>, q: seq<seq<T>>, sep: T)
    requires Plain(p + [x], sep) && Plain([y] + q, sep)
    ensures Plain(p + [x + y] + q, sep)
  {
    var m := p + [x + y] + q;
    assert (p + [x])[|p|] == x && ([y] + q)[0] == y;
    forall i | 0 <= i < |m| ensures sep !in m[i] {
      if i < |p| {
        assert m[i] == (p + [x])[i];
      } else if i > |p| {
        assert m[i] == ([y] + q)[i - |p|];
      }
    }
  }

  // A sequence without a separator at all is the only one that splits in one piece.
  lemma {:induction false} OnePiece<T>(s: seq<T>, sep: T)
    ensures sep in s <==> |Split(s, sep)| >= 2
  {
    if s != [] {
      OnePiece(s[1..], sep);
    }
  }
}

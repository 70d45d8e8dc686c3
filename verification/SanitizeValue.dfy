/** sanitizeValue: cuts a value down to what may be logged. The input is a graph of objects,
    which may share and loop; the result is a fresh tree. */
module SanitizeValue {
  import opened Text

  const MAX_LEVELS := 5
  const MAX_TEXT := 1000
  const MAX_ITEMS := 100

  const MAX_DEPTH: Text := Lit("[Max Depth]")
  const REDACTED: Text := Lit("[REDACTED]")
  const TRUNCATED: Text := Lit("...[truncated]")

  // A JavaScript value; objects are references into a heap. Scalar is anything typeof
  // tells from string and object.
  datatype Value =
    | Null
    | Undefined
    | Str(text: Text)
    | Scalar(id: int)
    | Ref(at: nat)

  datatype Node =
    | Arr(items: seq<Value>)
    | Rec(fields: seq<(Text, Value)>) // own enumerable properties, in order

  type Heap = seq<Node>

  function NodeAt(h: Heap, at: nat): Node
  {
    if at < |h| then h[at] else Rec([])
  }

  datatype Tree =
    | TNull
    | TUndefined
    | TStr(text: Text)
    | TScalar(id: int)
    | TArr(items: seq<Tree>)
    | TRec(fields: seq<(Text, Tree)>)

  const SENSITIVE_FIELDS: seq<Text> :=
    [Lit("password"), Lit("token"), Lit("secret"), Lit("key"), Lit("authorization"), Lit("cookie"), Lit("session")]

  predicate Sensitive(k: Text)
  {
    exists i :: 0 <= i < |SENSITIVE_FIELDS| && Contains(ToLower(k), SENSITIVE_FIELDS[i])
  }

  // A code unit that stands for a lower-case letter in any case: itself, its capital, or the
  // KELVIN SIGN for k.
  predicate Spells(c: CodeUnit, letter: CodeUnit)
  {
    c == letter || c + 0x20 == letter || (c == 0x212A && letter == 0x6B)
  }

  predicate IsWord(w: Text)
  {
    forall j :: 0 <= j < |w| ==> 0x61 <= w[j] <= 0x7A
  }

  predicate SpellsAt(k: Text, i: int, w: Text)
  {
    0 <= i <= |k| - |w| && forall j :: 0 <= j < |w| ==> Spells(k[i + j], w[j])
  }

  // A word in lower-case letters stands in the key, in any case of letters.
  lemma SpelledIff(k: Text, w: Text)
    requires IsWord(w)
    ensures Contains(ToLower(k), w) <==> exists i :: SpellsAt(k, i, w)
  {
    var low := ToLower(k);
    ContainsIff(low, w);
    if Occurs(w, low) {
      var i :| StandsAt(w, low, i);
      forall j | 0 <= j < |w| ensures Spells(k[i + j], w[j]) {
        assert low[i..i + |w|][j] == w[j];
      }
      assert SpellsAt(k, i, w);
    }
    if i :| SpellsAt(k, i, w) {
      assert low[i..i + |w|] == w;
      assert StandsAt(w, low, i);
    }
  }

  // Main result: a key is sensitive exactly when one of the seven words stands in it, in any
  // case of letters.
  lemma SensitiveIff(k: Text)
    ensures Sensitive(k) <==>
      || (exists i :: SpellsAt(k, i, Lit("password"))) || (exists i :: SpellsAt(k, i, Lit("token")))
      || (exists i :: SpellsAt(k, i, Lit("secret"))) || (exists i :: SpellsAt(k, i, Lit("key")))
      || (exists i :: SpellsAt(k, i, Lit("authorization"))) || (exists i :: SpellsAt(k, i, Lit("cookie")))
      || (exists i :: SpellsAt(k, i, Lit("session")))
  {
    SpelledIff(k, Lit("password"));
    SpelledIff(k, Lit("token"));
    SpelledIff(k, Lit("secret"));
    SpelledIff(k, Lit("key"));
    SpelledIff(k, Lit("authorization"));
    SpelledIff(k, Lit("cookie"));
    SpelledIff(k, Lit("session"));
    var low := ToLower(k);
    assert Sensitive(k) <==>
      || Contains(low, SENSITIVE_FIELDS[0]) || Contains(low, SENSITIVE_FIELDS[1]) || Contains(low, SENSITIVE_FIELDS[2])
      || Contains(low, SENSITIVE_FIELDS[3]) || Contains(low, SENSITIVE_FIELDS[4]) || Contains(low, SENSITIVE_FIELDS[5])
      || Contains(low, SENSITIVE_FIELDS[6]);
  }

  function Truncate(s: Text): Text
  {
    if |s| > MAX_TEXT then s[..MAX_TEXT] + TRUNCATED else s
  }

  function Sanitize(h: Heap, v: Value, depth: nat): Tree
    decreases if depth > MAX_LEVELS then 0 else MAX_LEVELS + 1 - depth
  {
    if depth > MAX_LEVELS then TStr(MAX_DEPTH)
    else
      match v
      case Null => TNull
      case Undefined => TUndefined
      case Str(text) => TStr(Truncate(text))
      case Scalar(id) => TScalar(id)
      case Ref(at) =>
        match NodeAt(h, at)
        case Arr(items) =>
          var n := if |items| > MAX_ITEMS then MAX_ITEMS else |items|;
          TArr(seq(n, i requires 0 <= i < n => Sanitize(h, items[i], depth + 1)))
        case Rec(fields) =>
          TRec(seq(|fields|, i requires 0 <= i < |fields| => SanitizeField(h, fields[i], depth)))
  }

  function SanitizeField(h: Heap, f: (Text, Value), depth: nat): (Text, Tree)
    requires depth <= MAX_LEVELS
    decreases MAX_LEVELS + 1 - depth, 0
  {
    (f.0, if Sensitive(f.0) then TStr(REDACTED) else Sanitize(h, f.1, depth + 1))
  }

  /******* What a sanitized tree looks like *******/

  ghost predicate Clean(t: Tree, depth: nat)
    decreases t
  {
    if depth > MAX_LEVELS then t == TStr(MAX_DEPTH)
    else
      match t
      case TStr(text) => |text| <= MAX_TEXT || (|text| == MAX_TEXT + |TRUNCATED| && text[MAX_TEXT..] == TRUNCATED)
      case TArr(items) => |items| <= MAX_ITEMS && forall i :: 0 <= i < |items| ==> Clean(items[i], depth + 1)
      case TRec(fields) =>
        forall i :: 0 <= i < |fields| ==>
          if Sensitive(fields[i].0) then fields[i].1 == TStr(REDACTED) else Clean(fields[i].1, depth + 1)
      case _ => true
  }

  lemma {:induction false} SanitizeIsClean(h: Heap, v: Value, depth: nat)
    ensures Clean(Sanitize(h, v, depth), depth)
    decreases if depth > MAX_LEVELS then 0 else MAX_LEVELS + 1 - depth
  {
    if depth <= MAX_LEVELS && v.Ref? {
      match NodeAt(h, v.at) {
        case Arr(items) =>
          forall i | 0 <= i < |items| { SanitizeIsClean(h, items[i], depth + 1); }
        case Rec(fields) =>
          forall i | 0 <= i < |fields| { SanitizeIsClean(h, fields[i].1, depth + 1); }
      }
    }
  }

  // The graph below v, read as a tree, is t. A graph with a cycle is no tree.
  ghost predicate Denotes(h: Heap, v: Value, t: Tree)
    decreases t
  {
    match t
    case TNull => v == Null
    case TUndefined => v == Undefined
    case TStr(text) => v == Str(text)
    case TScalar(id) => v == Scalar(id)
    case TArr(items) =>
      v.Ref? && NodeAt(h, v.at).Arr? && var xs := NodeAt(h, v.at).items;
      |xs| == |items| && forall i :: 0 <= i < |items| ==> Denotes(h, xs[i], items[i])
    case TRec(fields) =>
      v.Ref? && NodeAt(h, v.at).Rec? && var xs := NodeAt(h, v.at).fields;
      && |xs| == |fields|
      && forall i :: 0 <= i < |fields| ==> xs[i].0 == fields[i].0 && Denotes(h, xs[i].1, fields[i].1)
  }

  lemma TruncateFixedIff(s: Text)
    ensures Truncate(s) == s <==> |s| <= MAX_TEXT || (|s| == MAX_TEXT + |TRUNCATED| && s[MAX_TEXT..] == TRUNCATED)
  {
  }

  // Main result: sanitizing leaves a tree-shaped value as it is exactly when it is clean.
  lemma {:induction false} UnchangedIffClean(h: Heap, v: Value, t: Tree, depth: nat)
    requires Denotes(h, v, t)
    ensures Sanitize(h, v, depth) == t <==> Clean(t, depth)
    decreases t
  {
    var s := Sanitize(h, v, depth);
    if depth <= MAX_LEVELS {
      match t {
        case TStr(text) => TruncateFixedIff(text);
        case TArr(items) =>
          var xs := NodeAt(h, v.at).items;
          forall i | 0 <= i < |items|
            ensures Sanitize(h, xs[i], depth + 1) == items[i] <==> Clean(items[i], depth + 1)
          {
            UnchangedIffClean(h, xs[i], items[i], depth + 1);
          }
          SeqSame(s.items, items);
        case TRec(fields) =>
          var xs := NodeAt(h, v.at).fields;
          forall i | 0 <= i < |fields|
            ensures Sanitize(h, xs[i].1, depth + 1) == fields[i].1 <==> Clean(fields[i].1, depth + 1)
          {
            UnchangedIffClean(h, xs[i].1, fields[i].1, depth + 1);
          }
          SeqSame(s.fields, fields);
        case _ =>
      }
    }
  }

  lemma SeqSame<T>(a: seq<T>, b: seq<T>)
    ensures a == b <==> |a| == |b| && forall i :: 0 <= i < |a| ==> a[i] == b[i]
  {
  }

  // Sanitizing a sanitized value changes nothing, wherever in memory it has been put.
  lemma SanitizeIdempotent(h: Heap, v: Value, h': Heap, v': Value)
    requires Denotes(h', v', Sanitize(h, v, 0))
    ensures Sanitize(h', v', 0) == Sanitize(h, v, 0)
  {
    SanitizeIsClean(h, v, 0);
    UnchangedIffClean(h', v', Sanitize(h, v, 0), 0);
  }

  // out is t with nothing changed but the cuts: below the last level, behind the 1000th
  // character, behind the 100th item, and under sensitive keys.
  ghost predicate Faithful(out: Tree, t: Tree, depth: nat)
    decreases t
  {
    if depth > MAX_LEVELS then out == TStr(MAX_DEPTH)
    else
      match t
      case TStr(text) =>
        out.TStr? && out.text == if |text| <= MAX_TEXT then text else text[..MAX_TEXT] + TRUNCATED
      case TArr(items) =>
        && out.TArr?
        && |out.items| == (if |items| <= MAX_ITEMS then |items| else MAX_ITEMS)
        && forall i :: 0 <= i < |out.items| ==> Faithful(out.items[i], items[i], depth + 1)
      case TRec(fields) =>
        && out.TRec?
        && |out.fields| == |fields|
        && forall i :: 0 <= i < |fields| ==>
             && out.fields[i].0 == fields[i].0
             && (Sensitive(fields[i].0) || Faithful(out.fields[i].1, fields[i].1, depth + 1))
      case _ => out == t
  }

  lemma {:induction false} SanitizeIsFaithful(h: Heap, v: Value, t: Tree, depth: nat)
    requires Denotes(h, v, t)
    ensures Faithful(Sanitize(h, v, depth), t, depth)
    decreases t
  {
    if depth <= MAX_LEVELS {
      match t {
        case TArr(items) =>
          var xs := NodeAt(h, v.at).items;
          forall i | 0 <= i < |items| { SanitizeIsFaithful(h, xs[i], items[i], depth + 1); }
        case TRec(fields) =>
          var xs := NodeAt(h, v.at).fields;
          forall i | 0 <= i < |fields| { SanitizeIsFaithful(h, xs[i].1, fields[i].1, depth + 1); }
        case _ =>
      }
    }
  }

  /******* Bounds and secrets *******/

  ghost predicate Bounded(t: Tree, levels: nat)
    decreases t
  {
    match t
    case TArr(items) =>
      levels > 0 && |items| <= MAX_ITEMS && forall i :: 0 <= i < |items| ==> Bounded(items[i], levels - 1)
    case TRec(fields) => levels > 0 && forall i :: 0 <= i < |fields| ==> Bounded(fields[i].1, levels - 1)
    case TStr(text) => |text| <= MAX_TEXT + |TRUNCATED|
    case _ => true
  }

  ghost predicate Discreet(t: Tree)
    decreases t
  {
    match t
    case TArr(items) => forall i :: 0 <= i < |items| ==> Discreet(items[i])
    case TRec(fields) =>
      forall i :: 0 <= i < |fields| ==>
        (Sensitive(fields[i].0) ==> fields[i].1 == TStr(REDACTED)) && Discreet(fields[i].1)
    case _ => true
  }

  lemma {:induction false} CleanIsSafe(t: Tree, depth: nat)
    requires Clean(t, depth) && depth <= MAX_LEVELS + 1
    ensures Bounded(t, MAX_LEVELS + 1 - depth) && Discreet(t)
    decreases t
  {
    assert |MAX_DEPTH| == 11 && |REDACTED| == 10 && |TRUNCATED| == 14;
    if depth <= MAX_LEVELS {
      match t {
        case TArr(items) =>
          forall i | 0 <= i < |items| { CleanIsSafe(items[i], depth + 1); }
        case TRec(fields) =>
          forall i | 0 <= i < |fields|
            ensures Bounded(fields[i].1, MAX_LEVELS - depth) && Discreet(fields[i].1)
          {
            if !Sensitive(fields[i].0) { CleanIsSafe(fields[i].1, depth + 1); }
          }
        case _ =>
      }
    }
  }

  // Main result: on every graph, cyclic ones included, at most six levels, arrays of at most
  // 100, strings of at most 1014, and "[REDACTED]" under every sensitive key.
  lemma SanitizeIsSafe(h: Heap, v: Value)
    ensures Bounded(Sanitize(h, v, 0), 6) && Discreet(Sanitize(h, v, 0))
  {
    SanitizeIsClean(h, v, 0);
    CleanIsSafe(Sanitize(h, v, 0), 0);
  }

  // So the field of an object whose key spells a password in any case comes out redacted,
  // whatever it holds, and every other field with its key.
  lemma PasswordIsRedacted(h: Heap, at: nat, i: nat, before: Text, word: Text, behind: Text)
    requires at < |h| && h[at].Rec? && i < |h[at].fields| && h[at].fields[i].0 == before + word + behind
    requires |word| == 8 && SpellsAt(word, 0, Lit("password"))
    ensures var out := Sanitize(h, Ref(at), 0);
      && out.TRec? && |out.fields| == |h[at].fields|
      && out.fields[i] == (before + word + behind, TStr(Lit("[REDACTED]")))
  {
    var k := before + word + behind;
    var w := Lit("password");
    forall j | 0 <= j < |w| ensures Spells(k[|before| + j], w[j]) {
      assert k[|before| + j] == word[j] && Spells(word[0 + j], w[j]);
    }
    assert SpellsAt(k, |before|, w);
    SensitiveIff(k);
  }

  // Two heaps that differ at most in what sensitive keys hold.
  ghost predicate SameButSecrets(g: Heap, h: Heap)
  {
    && |g| == |h|
    && forall a :: 0 <= a < |g| ==> SameNode(g[a], h[a])
  }

  ghost predicate SameNode(x: Node, y: Node)
  {
    match x
    case Arr(items) => y == x
    case Rec(fields) =>
      && y.Rec? && |y.fields| == |fields|
      && forall i :: 0 <= i < |fields| ==>
           y.fields[i].0 == fields[i].0 && (Sensitive(fields[i].0) || y.fields[i].1 == fields[i].1)
  }

  // Main result: no secret leaks. The result does not depend on what sensitive keys hold.
  lemma {:induction false} SecretsDoNotLeak(g: Heap, h: Heap, v: Value, depth: nat)
    requires SameButSecrets(g, h)
    ensures Sanitize(g, v, depth) == Sanitize(h, v, depth)
    decreases if depth > MAX_LEVELS then 0 else MAX_LEVELS + 1 - depth
  {
    if depth <= MAX_LEVELS && v.Ref? && v.at < |g| {
      assert SameNode(g[v.at], h[v.at]);
      match g[v.at] {
        case Arr(items) =>
          forall i | 0 <= i < |items| { SecretsDoNotLeak(g, h, items[i], depth + 1); }
          assert Sanitize(g, v, depth).items == Sanitize(h, v, depth).items;
        case Rec(fields) =>
          forall i | 0 <= i < |fields|
            ensures SanitizeField(g, fields[i], depth) == SanitizeField(h, h[v.at].fields[i], depth)
          {
            SecretsDoNotLeak(g, h, fields[i].1, depth + 1);
          }
          assert Sanitize(g, v, depth).fields == Sanitize(h, v, depth).fields;
      }
    }
  }

  function Nested(n: nat): Tree
  {
    if n == 0 then TStr(MAX_DEPTH) else TArr([Nested(n - 1)])
  }

  // An array that holds itself is cut off after six levels.
  lemma {:induction false} CycleIsCut(depth: nat)
    requires depth <= MAX_LEVELS + 1
    ensures Sanitize([Arr([Ref(0)])], Ref(0), depth) == Nested(MAX_LEVELS + 1 - depth)
    decreases MAX_LEVELS + 1 - depth
  {
    if depth <= MAX_LEVELS {
      CycleIsCut(depth + 1);
      assert Sanitize([Arr([Ref(0)])], Ref(0), depth).items == [Nested(MAX_LEVELS - depth)];
    }
  }
}

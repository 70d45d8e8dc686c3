/** The stream filter: drops the lines of a chunk that carry system directives. It keeps
    no state from one chunk to the next. */
module StreamFilter {
  import opened Text
  import opened Lines

  /******* System lines *******/

  datatype Pattern =
    | Directive
    | Force
    | Hidden
    | NonText
    | AssistantNonText

  const SYSTEM_PATTERNS: seq<Pattern> := [Directive, Force, Hidden, NonText, AssistantNonText]

  const NON_TEXT: Text := Lit("[non-text content")

  predicate Matches(p: Pattern, t: Text)
  {
    match p
    case Directive => StartsWith(t, Lit("[SYSTEM_DIRECTIVE]"))
    case Force => StartsWith(t, Lit("[SYSTEM_FORCE]"))
    case Hidden => StartsWith(t, Lit("[HIDDEN]"))
    case NonText =>
      var head := NON_TEXT + Lit(":");
      StartsWithNoCase(t, head) && 0x5D in t[|head|..]
    case AssistantNonText =>
      var head := Lit("Assistant:");
      StartsWithNoCase(t, head) && StartsWithNoCase(TrimStart(t[|head|..]), NON_TEXT)
  }

  predicate IsSystemLine(line: Text)
  {
    exists i :: 0 <= i < |SYSTEM_PATTERNS| && Matches(SYSTEM_PATTERNS[i], Trim(line))
  }

  // The empty line is nobody's directive.
  lemma EmptyLineIsClean()
    ensures !IsSystemLine([])
  {
  }

  /******* The filter *******/

  // The lines that are not system lines, in order.
  function Clean(lines: seq<Text>): seq<Text>
  {
    if lines == [] then []
    else
      var n := |lines| - 1;
      Clean(lines[..n]) + if IsSystemLine(lines[n]) then [] else [lines[n]]
  }

  function Filtered(delta: Text): Text
  {
    Join(Clean(Split(delta, NEWLINE)), NEWLINE)
  }

  method TestPatterns(trimmed: Text) returns (isSystem: bool)
    ensures isSystem <==> exists i :: 0 <= i < |SYSTEM_PATTERNS| && Matches(SYSTEM_PATTERNS[i], trimmed)
  {
    isSystem := false;
    var i := 0;
    while i < |SYSTEM_PATTERNS|
      invariant 0 <= i <= |SYSTEM_PATTERNS| && !isSystem
      invariant forall j :: 0 <= j < i ==> !Matches(SYSTEM_PATTERNS[j], trimmed)
    {
      if Matches(SYSTEM_PATTERNS[i], trimmed) {
        isSystem := true;
        break;
      }
      i := i + 1;
    }
  }

  method Filter(delta: Text) returns (out: Text)
    ensures out == Filtered(delta)
  {
    EmptyLineIsClean();
    OnePiece(delta, NEWLINE);
    if delta == [] {
      assert Split(delta, NEWLINE) == [[]];
      CleanOne([]);
      return [];
    }
    if NEWLINE in delta {
      var lines := Split(delta, NEWLINE);
      var cleanLines: seq<Text> := [];
      for i := 0 to |lines|
        invariant cleanLines == Clean(lines[..i])
      {
        var isSystem := TestPatterns(Trim(lines[i]));
        if !isSystem {
          cleanLines := cleanLines + [lines[i]];
        }
        assert lines[..i + 1][..i] == lines[..i];
      }
      assert lines[..|lines|] == lines;
      return Join(cleanLines, NEWLINE);
    }
    SplitPlain(delta, NEWLINE);
    CleanOne(delta);
    var isSystem := TestPatterns(Trim(delta));
    if isSystem { return []; }
    return delta;
  }

  lemma CleanOne(line: Text)
    ensures Clean([line]) == if IsSystemLine(line) then [] else [line]
  {
  }

  /******* What the filter keeps *******/

  lemma {:induction false} CleanMembers(lines: seq<Text>)
    ensures forall x :: x in Clean(lines) ==> !IsSystemLine(x) && x in lines
  {
    if lines != [] {
      CleanMembers(lines[..|lines| - 1]);
    }
  }

  lemma {:induction false} CleanAppend(a: seq<Text>, b: seq<Text>)
    ensures Clean(a + b) == Clean(a) + Clean(b)
  {
    if b == [] {
      assert a + b == a;
    } else {
      var n := |b| - 1;
      CleanAppend(a, b[..n]);
      assert (a + b)[..|a + b| - 1] == a + b[..n];
    }
  }

  lemma {:induction false} CleanTwice(lines: seq<Text>)
    ensures Clean(Clean(lines)) == Clean(lines)
  {
    if lines != [] {
      var n := |lines| - 1;
      CleanTwice(lines[..n]);
      CleanOne(lines[n]);
      CleanAppend(Clean(lines[..n]), [lines[n]]);
      assert Clean(lines[..n]) + [] == Clean(lines[..n]);
    }
  }

  lemma CleanPlain(lines: seq<Text>)
    requires Plain(lines, NEWLINE)
    ensures Plain(Clean(lines), NEWLINE)
  {
  }

  // The output's lines are the input's lines that are not system lines, all of them and in
  // order; when there is none the output is empty.
  lemma OutputLines(delta: Text)
    ensures var kept := Clean(Split(delta, NEWLINE));
      if kept == [] then Filtered(delta) == [] else Split(Filtered(delta), NEWLINE) == kept
  {
    JoinSplit(delta, NEWLINE);
    CleanPlain(Split(delta, NEWLINE));
    if Clean(Split(delta, NEWLINE)) != [] {
      SplitJoin(Clean(Split(delta, NEWLINE)), NEWLINE);
    }
  }

  // Filtering twice changes nothing more, for every string.
  lemma FilterIdempotent(delta: Text)
    ensures Filtered(Filtered(delta)) == Filtered(delta)
  {
    var lines := Split(delta, NEWLINE);
    OutputLines(delta);
    CleanTwice(lines);
    if Clean(lines) == [] {
      FilterOneLine([]);
      assert Filtered(delta) == [];
    } else {
      assert Split(Filtered(delta), NEWLINE) == Clean(lines);
    }
  }

  /******* Chunks *******/

  function JoinLines(lines: seq<Text>): Text
  {
    Join(lines, NEWLINE)
  }

  lemma JoinBoth(xs: seq<Text>, ys: seq<Text>)
    ensures JoinLines(xs + ys) ==
      if xs == [] then JoinLines(ys) else if ys == [] then JoinLines(xs) else JoinLines(xs) + [NEWLINE] + JoinLines(ys)
  {
    if xs == [] {
      assert xs + ys == ys;
    } else if ys == [] {
      assert xs + ys == xs;
    } else {
      JoinAppend(xs, ys, NEWLINE);
    }
  }

  // The line, if it is kept.
  function Kept(line: Text): seq<Text>
  {
    if IsSystemLine(line) then [] else [line]
  }

  // When two texts cut inside the line x + y may be filtered apart, p being the kept lines
  // before it and q those behind: no part of the line is a directive; or the cut stands at
  // an end of the line, which is one, and no line break goes missing; or all three are and
  // nothing is kept on one side.
  predicate CutIsHarmless(p: seq<Text>, x: Text, y: Text, q: seq<Text>)
  {
    || (!IsSystemLine(x) && !IsSystemLine(y) && !IsSystemLine(x + y))
    || (x == [] && IsSystemLine(y) && (p == [] || q != []))
    || (y == [] && IsSystemLine(x) && (q == [] || p != []))
    || (IsSystemLine(x) && IsSystemLine(y) && IsSystemLine(x + y) && (p == [] || q == []))
  }

  // The two sides of the law, spelled out.
  lemma WholeJoin(p: seq<Text>, line: Text, q: seq<Text>)
    ensures JoinLines(p + Kept(line) + q) ==
      if IsSystemLine(line) then
        if p == [] then JoinLines(q) else if q == [] then JoinLines(p) else JoinLines(p) + [NEWLINE] + JoinLines(q)
      else
        (if p == [] then [] else JoinLines(p) + [NEWLINE]) + line + (if q == [] then [] else [NEWLINE] + JoinLines(q))
  {
    JoinBoth(p, Kept(line));
    JoinBoth(p + Kept(line), q);
    assert p + [] == p && [] + line == line;
    assert line + [] == line && JoinLines(p) + [NEWLINE] + line + [] == JoinLines(p) + [NEWLINE] + line;
    assert line + [NEWLINE] + JoinLines(q) == line + ([NEWLINE] + JoinLines(q));
    var front := JoinLines(p) + [NEWLINE] + line;
    assert front + [NEWLINE] + JoinLines(q) == front + ([NEWLINE] + JoinLines(q));
  }

  lemma LeftJoin(p: seq<Text>, x: Text)
    ensures JoinLines(p + Kept(x)) ==
      if IsSystemLine(x) then JoinLines(p) else (if p == [] then [] else JoinLines(p) + [NEWLINE]) + x
  {
    JoinBoth(p, Kept(x));
    assert [] + x == x;
  }

  lemma RightJoin(y: Text, q: seq<Text>)
    ensures JoinLines(Kept(y) + q) ==
      if IsSystemLine(y) then JoinLines(q) else y + (if q == [] then [] else [NEWLINE] + JoinLines(q))
  {
    JoinBoth(Kept(y), q);
    assert y + [] == y && y + [NEWLINE] + JoinLines(q) == y + ([NEWLINE] + JoinLines(q));
  }

  // The law on bare texts: left and right are the joined lines on both sides, and noLeft,
  // noRight, sx and sy say that there are none and that x and y are directives. First for a
  // cut line that is kept, then for one that is not.
  lemma JoinKept(left: Text, noLeft: bool, x: Text, sx: bool, y: Text, sy: bool, right: Text, noRight: bool)
    requires (noLeft ==> left == []) && (noRight ==> right == [])
    requires (x == [] ==> !sx && !sy) && (y == [] ==> !sy && !sx)
    ensures
      (if noLeft then [] else left + [NEWLINE]) + (x + y) + (if noRight then [] else [NEWLINE] + right)
        == (if sx then left else (if noLeft then [] else left + [NEWLINE]) + x)
           + (if sy then right else y + (if noRight then [] else [NEWLINE] + right))
      <==> !sx && !sy
  {
  }

  lemma JoinDropped(left: Text, noLeft: bool, x: Text, sx: bool, y: Text, sy: bool, right: Text, noRight: bool)
    requires (noLeft ==> left == []) && (noRight ==> right == [])
    requires (x == [] ==> !sx && sy) && (y == [] ==> !sy && sx)
    ensures
      (if noLeft then right else if noRight then left else left + [NEWLINE] + right)
        == (if sx then left else (if noLeft then [] else left + [NEWLINE]) + x)
           + (if sy then right else y + (if noRight then [] else [NEWLINE] + right))
      <==> ((x == [] && (noLeft || !noRight)) || (y == [] && (noRight || !noLeft)) || (sx && sy && (noLeft || noRight)))
  {
  }

  lemma CutJoin(p: seq<Text>, x: Text, y: Text, q: seq<Text>)
    ensures JoinLines(p + Kept(x + y) + q) == JoinLines(p + Kept(x)) + JoinLines(Kept(y) + q)
      <==> CutIsHarmless(p, x, y, q)
  {
    EmptyLineIsClean();
    assert x == [] ==> x + y == y;
    assert y == [] ==> x + y == x;
    WholeJoin(p, x + y, q);
    LeftJoin(p, x);
    RightJoin(y, q);
    if IsSystemLine(x + y) {
      JoinDropped(JoinLines(p), p == [], x, IsSystemLine(x), y, IsSystemLine(y), JoinLines(q), q == []);
    } else {
      JoinKept(JoinLines(p), p == [], x, IsSystemLine(x), y, IsSystemLine(y), JoinLines(q), q == []);
    }
  }

  // What is kept of a text around one of its lines.
  lemma FilteredAround(text: Text, before: seq<Text>, line: Text, behind: seq<Text>)
    requires Split(text, NEWLINE) == before + [line] + behind
    ensures Filtered(text) == JoinLines(Clean(before) + Kept(line) + Clean(behind))
  {
    CleanAppend(before + [line], behind);
    CleanAppend(before, [line]);
    CleanOne(line);
  }

  // Main result: a stream cut anywhere may be filtered in two parts exactly when the cut is
  // harmless to the line it falls in.
  lemma {:induction false} CutLawIff(a: Text, b: Text)
    ensures var xs, ys := Split(a, NEWLINE), Split(b, NEWLINE);
      Filtered(a + b) == Filtered(a) + Filtered(b) <==>
        CutIsHarmless(Clean(xs[..|xs| - 1]), xs[|xs| - 1], ys[0], Clean(ys[1..]))
  {
    var xs, ys := Split(a, NEWLINE), Split(b, NEWLINE);
    var p, x, y, q := xs[..|xs| - 1], xs[|xs| - 1], ys[0], ys[1..];
    SplitCut(a, b, NEWLINE);
    FilteredAround(a + b, p, x + y, q);
    FilteredLast(a);
    FilteredFirst(b);
    CutJoin(Clean(p), x, y, Clean(q));
  }

  lemma FilteredLast(a: Text)
    ensures var xs := Split(a, NEWLINE); Filtered(a) == JoinLines(Clean(xs[..|xs| - 1]) + Kept(xs[|xs| - 1]))
  {
  }

  lemma FilteredFirst(b: Text)
    ensures var ys := Split(b, NEWLINE); Filtered(b) == JoinLines(Kept(ys[0]) + Clean(ys[1..]))
  {
    var ys := Split(b, NEWLINE);
    assert ys == [] + [ys[0]] + ys[1..];
    FilteredAround(b, [], ys[0], ys[1..]);
    assert [] + Kept(ys[0]) == Kept(ys[0]);
  }

  // Some line of the text is kept.
  predicate KeepsSome(text: Text)
  {
    Clean(Split(text, NEWLINE)) != []
  }

  function Line(text: Text): Text
  {
    text + [NEWLINE]
  }

  // So a chunk that ends in a line break may be filtered by itself exactly when the rest of
  // the stream has a line to keep or the chunk has none.
  lemma ChunkingLawIff(a: Text, b: Text)
    ensures Filtered(Line(a) + b) == Filtered(Line(a)) + Filtered(b) <==> (KeepsSome(b) || !KeepsSome(a))
  {
    var xs := Split(a, NEWLINE);
    SplitLine(a);
    assert (xs + [[]])[..|xs|] == xs;
    CutLawIff(Line(a), b);
    KeepsSomeIff(b);
    assert [] + Split(b, NEWLINE)[0] == Split(b, NEWLINE)[0];
    EmptyLineIsClean();
  }

  lemma SplitLine(a: Text)
    ensures Split(Line(a), NEWLINE) == Split(a, NEWLINE) + [[]]
  {
    assert Split<CodeUnit>([], NEWLINE) == [[]] && Line(a) == a + [NEWLINE] + [];
    SplitAppend(a, [], NEWLINE);
  }

  lemma KeepsSomeIff(b: Text)
    ensures var ys := Split(b, NEWLINE); KeepsSome(b) <==> !IsSystemLine(ys[0]) || Clean(ys[1..]) != []
  {
    var ys := Split(b, NEWLINE);
    CleanOne(ys[0]);
    CleanAppend([ys[0]], ys[1..]);
    assert [ys[0]] + ys[1..] == ys;
  }

  ghost predicate Terminated(chunk: Text)
  {
    chunk != [] && chunk[|chunk| - 1] == NEWLINE
  }

  function Concat(chunks: seq<Text>): Text
  {
    if chunks == [] then [] else chunks[0] + Concat(chunks[1..])
  }

  function FilterEach(chunks: seq<Text>): Text
  {
    if chunks == [] then [] else Filtered(chunks[0]) + FilterEach(chunks[1..])
  }

  lemma FirstChunk(c: Text, rest: Text)
    requires Terminated(c) && (rest == [] || Terminated(rest))
    ensures Filtered(c + rest) == Filtered(c) + Filtered(rest)
  {
    var a := c[..|c| - 1];
    assert c == Line(a);
    LastLineKept(rest);
    ChunkingLawIff(a, rest);
  }

  lemma {:induction false} ConcatTerminated(chunks: seq<Text>)
    requires forall i :: 0 <= i < |chunks| ==> Terminated(chunks[i])
    ensures Concat(chunks) == [] || Terminated(Concat(chunks))
  {
    if chunks != [] { ConcatTerminated(chunks[1..]); }
  }

  // A whole stream of newline-terminated chunks: filtering it at once is filtering each.
  lemma {:induction false} ChunkingLaw(chunks: seq<Text>)
    requires forall i :: 0 <= i < |chunks| ==> Terminated(chunks[i])
    ensures Filtered(Concat(chunks)) == FilterEach(chunks)
  {
    if chunks == [] {
      FilterOneLine([]);
    } else {
      ChunkingLaw(chunks[1..]);
      ConcatTerminated(chunks[1..]);
      FirstChunk(chunks[0], Concat(chunks[1..]));
    }
  }

  // Terminated text ends in an empty line, which is kept.
  lemma LastLineKept(s: Text)
    requires s == [] || Terminated(s)
    ensures KeepsSome(s)
  {
    EmptyLineIsClean();
    CleanOne([]);
    assert Split<CodeUnit>([], NEWLINE) == [[]];
    if s != [] {
      var a := s[..|s| - 1];
      assert s == Line(a);
      SplitLine(a);
      CleanAppend(Split(a, NEWLINE), [[]]);
    }
  }

  lemma FilterOneLine(line: Text)
    requires NEWLINE !in line
    ensures Filtered(line) == if IsSystemLine(line) then [] else line
  {
    SplitPlain(line, NEWLINE);
    CleanOne(line);
  }

  /******* Which lines are directives *******/

  predicate IsBlankSpace(space: Text)
  {
    NEWLINE !in space && forall i :: 0 <= i < |space| ==> IsSpace(space[i])
  }

  lemma MatchDrops(line: Text, p: Pattern)
    requires NEWLINE !in line && p in SYSTEM_PATTERNS && Matches(p, Trim(line))
    ensures Filtered(line) == []
  {
    var i :| 0 <= i < |SYSTEM_PATTERNS| && SYSTEM_PATTERNS[i] == p;
    FilterOneLine(line);
  }

  // A line that begins with one of the three marks, behind any white space, is dropped
  // whatever follows.
  lemma MarkedLineIsDropped(space: Text, mark: Text, rest: Text)
    requires IsBlankSpace(space) && NEWLINE !in rest
    requires mark in {Lit("[SYSTEM_DIRECTIVE]"), Lit("[SYSTEM_FORCE]"), Lit("[HIDDEN]")}
    ensures Filtered(space + mark + rest) == []
  {
    assert NEWLINE !in mark;
    TrimKeeps(space, mark, rest);
    var p := if mark == Lit("[SYSTEM_DIRECTIVE]") then Directive
      else if mark == Lit("[SYSTEM_FORCE]") then Force else Hidden;
    assert SYSTEM_PATTERNS[0] == Directive && SYSTEM_PATTERNS[1] == Force && SYSTEM_PATTERNS[2] == Hidden;
    MatchDrops(space + mark + rest, p);
  }

  lemma FoldedUnits(s: Text, p: Text)
    requires Fold(s) == Fold(p)
    ensures |s| == |p| && forall i :: 0 <= i < |s| ==> FoldUnit(s[i]) == FoldUnit(p[i])
  {
    assert |Fold(s)| == |s| && |Fold(p)| == |p|;
    forall i | 0 <= i < |s| ensures FoldUnit(s[i]) == FoldUnit(p[i]) {
      assert Fold(s)[i] == Fold(p)[i];
    }
  }

  // So is a line that begins with the head of a non-text note, in any case of letters, and
  // has a closing bracket somewhere behind it.
  lemma NonTextIsDropped(space: Text, head: Text, inner: Text, rest: Text)
    requires IsBlankSpace(space) && NEWLINE !in head + inner + rest && Fold(head) == Fold(Lit("[non-text content:"))
    ensures Filtered(space + (head + inner + [0x5D]) + rest) == []
  {
    var ink, mark := head + inner + [0x5D], NON_TEXT + Lit(":");
    assert mark == Lit("[non-text content:");
    FoldedUnits(head, mark);
    assert FoldUnit(head[0]) == 0x5B;
    TrimKeeps(space, ink, rest);
    var line := space + ink + rest;
    var t := Trim(line);
    assert t[..|ink|] == ink && t[..|mark|] == head;
    assert t[|mark|..][|inner|] == t[|mark| + |inner|] == ink[|mark| + |inner|] == 0x5D;
    assert SYSTEM_PATTERNS[3] == NonText;
    MatchDrops(line, NonText);
  }

  lemma FirstOfThree(a: Text, b: Text, c: Text, more: Text)
    ensures var t := (a + b + c) + more; t[..|a|] == a && t[|a|..] == b + (c + more)
  {
  }

  // And a line that begins with the assistant's name, white space at will, and that head
  // without its colon.
  lemma AssistantNonTextIsDropped(space: Text, who: Text, gap: Text, head: Text, rest: Text)
    requires IsBlankSpace(space) && IsBlankSpace(gap) && NEWLINE !in who + head + rest
    requires Fold(who) == Fold(Lit("Assistant:")) && Fold(head) == Fold(Lit("[non-text content"))
    ensures Filtered(space + (who + gap + head) + rest) == []
  {
    var ink := who + gap + head;
    FoldedUnits(who, Lit("Assistant:"));
    FoldedUnits(head, NON_TEXT);
    assert FoldUnit(who[0]) == 0x61 && FoldUnit(head[0]) == 0x5B && FoldUnit(head[|head| - 1]) == 0x74;
    assert ink[0] == who[0] && ink[|ink| - 1] == head[|head| - 1];
    TrimKeeps(space, ink, rest);
    var line := space + ink + rest;
    var t := Trim(line);
    var more := t[|ink|..];
    assert t == ink + more;
    FirstOfThree(who, gap, head, more);
    TrimStartStops(gap, head + more);
    assert (head + more)[..|head|] == head;
    assert SYSTEM_PATTERNS[4] == AssistantNonText;
    MatchDrops(line, AssistantNonText);
  }

  // A line whose first ink is neither an opening bracket nor an A passes, with a mark in its
  // middle too.
  lemma OtherLinePasses(space: Text, first: CodeUnit, rest: Text)
    requires IsBlankSpace(space) && NEWLINE !in rest && !IsSpace(first) && first !in {0x5B, 0x41, 0x61}
    ensures Filtered(space + [first] + rest) == space + [first] + rest
  {
    var line := space + [first] + rest;
    TrimKeeps(space, [first], rest);
    assert Trim(line)[..1] == [first] && Trim(line)[0] == first;
    forall i | 0 <= i < |SYSTEM_PATTERNS| ensures !Matches(SYSTEM_PATTERNS[i], Trim(line)) {
      NoMatch(SYSTEM_PATTERNS[i], Trim(line));
    }
    FilterOneLine(line);
  }

  lemma NoMatch(p: Pattern, t: Text)
    requires t != [] && t[0] !in {0x5B, 0x41, 0x61}
    ensures !Matches(p, t)
  {
    var mark := match p
      case Directive => Lit("[SYSTEM_DIRECTIVE]")
      case Force => Lit("[SYSTEM_FORCE]")
      case Hidden => Lit("[HIDDEN]")
      case NonText => NON_TEXT + Lit(":")
      case AssistantNonText => Lit("Assistant:");
    if |mark| <= |t| {
      assert t[..|mark|][0] == t[0] && Fold(t[..|mark|])[0] == FoldUnit(t[0]) != FoldUnit(mark[0]) == Fold(mark)[0];
    }
  }

  // Too short for any directive.
  lemma ShortLinePasses(line: Text)
    requires |line| < 8 && Trim(line) == line
    ensures !IsSystemLine(line)
  {
  }

  // A directive cut in two by the transport passes through.
  lemma CutDirectivePasses()
    ensures Filtered(Lit("[HIDDEN]")) == [] && Filtered(Lit("[HID")) + Filtered(Lit("DEN]")) == Lit("[HIDDEN]")
  {
    var whole, a, b := Lit("[HIDDEN]"), Lit("[HID"), Lit("DEN]");
    assert whole == a + b;
    assert a == [0x5B, 0x48, 0x49, 0x44] && b == [0x44, 0x45, 0x4E, 0x5D];
    assert Trim(whole) == whole && Trim(a) == a && Trim(b) == b;
    assert Matches(SYSTEM_PATTERNS[2], Trim(whole));
    ShortLinePasses(a);
    ShortLinePasses(b);
    FilterOneLine(whole);
    FilterOneLine(a);
    FilterOneLine(b);
  }
}

/** JavaScript strings as sequences of UTF-16 code units, with the few string
    functions the modelled code calls. */
module Text {
  type CodeUnit = c: int | 0 <= c < 0x1_0000
  type Text = seq<CodeUnit>

  const NEWLINE: CodeUnit := 0x0A

  // A literal of the source; none goes beyond one code unit a character.
  function Lit(s: string): (t: Text)
  {
    seq(|s|, i requires 0 <= i < |s| => if 0 <= s[i] as int < 0x1_0000 then s[i] as int else 0xFFFD)
  }

  // WhiteSpace and LineTerminator: what \s matches and trim() removes.
  predicate IsSpace(c: CodeUnit)
  {
    0x09 <= c <= 0x0D || c == 0x20 || c == 0xA0 || c == 0x1680 || 0x2000 <= c <= 0x200A ||
    c == 0x2028 || c == 0x2029 || c == 0x202F || c == 0x205F || c == 0x3000 || c == 0xFEFF
  }

  // The 25 of them by name: tab to return, the blanks of all widths, the two separators, and
  // the byte order mark.
  lemma SpacesByName(c: CodeUnit)
    ensures IsSpace(c) <==>
      c in {0x09, 0x0A, 0x0B, 0x0C, 0x0D, 0x20, 0xA0, 0x1680, 0x2028, 0x2029, 0x202F, 0x205F, 0x3000, 0xFEFF}
        + {0x2000, 0x2001, 0x2002, 0x2003, 0x2004, 0x2005, 0x2006, 0x2007, 0x2008, 0x2009, 0x200A}
  {
  }

  function TrimStart(s: Text): Text
  {
    if s != [] && IsSpace(s[0]) then TrimStart(s[1..]) else s
  }

  function TrimEnd(s: Text): Text
  {
    if s != [] && IsSpace(s[|s| - 1]) then TrimEnd(s[..|s| - 1]) else s
  }

  function Trim(s: Text): Text
  {
    TrimEnd(TrimStart(s))
  }

  // The test s && s.trim().length > 0, negated.
  predicate IsBlank(s: Text)
  {
    Trim(s) == []
  }

  predicate StartsWith(s: Text, p: Text)
  {
    |p| <= |s| && s[..|p|] == p
  }

  // s.includes(p), s.indexOf(p) !== -1
  predicate Contains(s: Text, p: Text)
  {
    StartsWith(s, p) || (s != [] && Contains(s[1..], p))
  }

  // One text stands in the other, from some place on.
  ghost predicate Occurs(p: Text, s: Text)
  {
    exists i :: StandsAt(p, s, i)
  }

  predicate StandsAt(p: Text, s: Text, i: int)
  {
    0 <= i <= |s| - |p| && s[i..i + |p|] == p
  }

  lemma {:induction false} ContainsIff(s: Text, p: Text)
    ensures Contains(s, p) <==> Occurs(p, s)
  {
    if StartsWith(s, p) {
      assert StandsAt(p, s, 0);
    } else if s != [] {
      ContainsIff(s[1..], p);
      if Occurs(p, s[1..]) {
        var i :| StandsAt(p, s[1..], i);
        assert StandsAt(p, s, i + 1);
      }
      if Occurs(p, s) {
        var i :| StandsAt(p, s, i);
        assert i > 0 && StandsAt(p, s[1..], i - 1);
      }
    }
  }

  // Trimming in front of ink.
  lemma {:induction false} TrimStartStops(space: Text, ink: Text)
    requires (forall i :: 0 <= i < |space| ==> IsSpace(space[i])) && ink != [] && !IsSpace(ink[0])
    ensures TrimStart(space + ink) == ink
  {
    if space == [] {
      assert space + ink == ink;
    } else {
      assert (space + ink)[1..] == space[1..] + ink;
      TrimStartStops(space[1..], ink);
    }
  }

  lemma {:induction false} TrimEndStops(ink: Text, rest: Text)
    requires ink != [] && !IsSpace(ink[|ink| - 1])
    ensures StartsWith(TrimEnd(ink + rest), ink)
  {
    var t := ink + rest;
    if rest == [] {
      assert t == ink;
    } else if IsSpace(t[|t| - 1]) {
      assert t[..|t| - 1] == ink + rest[..|rest| - 1];
      TrimEndStops(ink, rest[..|rest| - 1]);
    }
  }

  // What stands between white space and ends in ink begins the trimmed text.
  lemma TrimKeeps(space: Text, ink: Text, rest: Text)
    requires (forall i :: 0 <= i < |space| ==> IsSpace(space[i]))
    requires ink != [] && !IsSpace(ink[0]) && !IsSpace(ink[|ink| - 1])
    ensures StartsWith(Trim(space + ink + rest), ink)
  {
    assert space + ink + rest == space + (ink + rest);
    TrimStartStops(space, ink + rest);
    TrimEndStops(ink, rest);
  }

  // ASCII folding, and KELVIN SIGN, the one other code unit that toLowerCase maps to
  // a single ASCII letter.
  function LowerUnit(c: CodeUnit): CodeUnit
  {
    if 0x41 <= c <= 0x5A then c + 0x20 else if c == 0x212A then 0x6B else c
  }

  // The /i flag of a pattern without the u flag folds ASCII only.
  function FoldUnit(c: CodeUnit): CodeUnit
  {
    if 0x41 <= c <= 0x5A then c + 0x20 else c
  }

  function ToLower(s: Text): Text
  {
    seq(|s|, i requires 0 <= i < |s| => LowerUnit(s[i]))
  }

  function Fold(s: Text): Text
  {
    seq(|s|, i requires 0 <= i < |s| => FoldUnit(s[i]))
  }

  predicate StartsWithNoCase(s: Text, p: Text)
  {
    |p| <= |s| && Fold(s[..|p|]) == Fold(p)
  }
}

/** The debug log files: append, and trim to the newest lines when the file grows too big.
    A file is its UTF-8 bytes, in which 0x0A occurs in line breaks only. */
module LogFile {
  import opened Lines

  type Byte = b: int | 0 <= b < 256
  type Bytes = seq<Byte>

  const LINE_BREAK: Byte := 0x0A
  const MAX_LOG_SIZE_BYTES: nat := 1024 * 1024
  const TRIM_TARGET_BYTES: nat := 629145 // 60% of the maximum, rounded down

  // What a run of lines takes, each with its line break.
  function Weight(lines: seq<Bytes>): nat
  {
    if lines == [] then 0 else |lines[0]| + 1 + Weight(lines[1..])
  }

  // The newest lines that fit in the target.
  function Newest(lines: seq<Bytes>): seq<Bytes>
  {
    if Weight(lines) <= TRIM_TARGET_BYTES then lines else Newest(lines[1..])
  }

  function Trimmed(content: Bytes, maxSize: nat): Bytes
  {
    if |content| <= maxSize then content else Join(Newest(Split(content, LINE_BREAK)), LINE_BREAK)
  }

  // Each entry becomes one line; a call without entries writes nothing.
  function Appended(content: Bytes, entries: seq<Bytes>): Bytes
  {
    content + Join(entries, LINE_BREAK) + [LINE_BREAK]
  }

  datatype File = Missing | Exists(content: Bytes)

  function ContentOf(f: File): Bytes
  {
    if f.Exists? then f.content else []
  }

  function Written(f: File, entries: seq<Bytes>): File
  {
    if entries == [] then f else Exists(Trimmed(Appended(ContentOf(f), entries), MAX_LOG_SIZE_BYTES))
  }

  class Log {
    var file: File

    constructor (file: File)
      ensures this.file == file
    {
      this.file := file;
    }

    method WriteToLogFile(entries: seq<Bytes>)
      modifies this
      ensures file == Written(old(file), entries)
    {
      if |entries| == 0 { return; }
      file := Exists(Appended(ContentOf(file), entries));
      TrimLogFile(MAX_LOG_SIZE_BYTES);
    }

    method TrimLogFile(maxSize: nat)
      modifies this
      ensures file == if old(file).Missing? then Missing else Exists(Trimmed(old(file).content, maxSize))
    {
      if file.Missing? || |file.content| <= maxSize {
        return;
      }
      var keptLines := KeepNewest(Split(file.content, LINE_BREAK));
      file := Exists(Join(keptLines, LINE_BREAK));
    }
  }

  // Walks the lines from the end while they fit.
  method KeepNewest(lines: seq<Bytes>) returns (keptLines: seq<Bytes>)
    ensures keptLines == Newest(lines)
  {
    keptLines := [];
    var keptBytes := 0;
    var i := |lines|;
    while i > 0
      invariant 0 <= i <= |lines|
      invariant keptLines == lines[i..] && keptBytes == Weight(lines[i..]) <= TRIM_TARGET_BYTES
    {
      var lineBytes := |lines[i - 1]| + 1;
      WeightHead(lines, i - 1);
      if keptBytes + lineBytes > TRIM_TARGET_BYTES {
        break;
      }
      i := i - 1;
      keptLines := [lines[i]] + keptLines;
      keptBytes := keptBytes + lineBytes;
    }
    NewestIs(lines, i);
  }

  /******* What a trim keeps *******/

  lemma WeightHead(lines: seq<Bytes>, i: nat)
    requires i < |lines|
    ensures lines[i..] == [lines[i]] + lines[i + 1..]
    ensures Weight(lines[i..]) == |lines[i]| + 1 + Weight(lines[i + 1..])
  {
  }

  lemma {:induction false} WeightDrop(lines: seq<Bytes>, k: nat)
    requires k <= |lines|
    ensures Weight(lines[k..]) + k <= Weight(lines)
    decreases k
  {
    if k > 0 {
      WeightDrop(lines[1..], k - 1);
      assert lines[1..][k - 1..] == lines[k..];
    }
  }

  // It is the longest run at the end that fits: it fits, and no longer one does.
  lemma {:induction false} NewestIs(lines: seq<Bytes>, k: nat)
    requires k <= |lines| && Weight(lines[k..]) <= TRIM_TARGET_BYTES
    requires k > 0 ==> Weight(lines[k - 1..]) > TRIM_TARGET_BYTES
    ensures Newest(lines) == lines[k..]
    decreases k
  {
    if k > 0 {
      WeightDrop(lines, k - 1);
      NewestIs(lines[1..], k - 1);
      assert lines[1..][k - 1..] == lines[k..];
      assert k > 1 ==> lines[1..][k - 2..] == lines[k - 1..];
    }
  }

  // From which line on the newest lines run.
  function Cut(lines: seq<Bytes>): (k: nat)
    ensures k <= |lines|
  {
    if Weight(lines) <= TRIM_TARGET_BYTES then 0 else 1 + Cut(lines[1..])
  }

  lemma {:induction false} NewestIsLongest(lines: seq<Bytes>)
    ensures Newest(lines) == lines[Cut(lines)..] && Weight(Newest(lines)) <= TRIM_TARGET_BYTES
    ensures forall j :: 0 <= j < Cut(lines) ==> Weight(lines[j..]) > TRIM_TARGET_BYTES
  {
    if Weight(lines) > TRIM_TARGET_BYTES {
      NewestIsLongest(lines[1..]);
      forall j | 0 <= j < Cut(lines) ensures Weight(lines[j..]) > TRIM_TARGET_BYTES {
        if j > 0 { assert lines[j..] == lines[1..][j - 1..]; }
      }
    }
  }

  lemma {:induction false} JoinWeight(lines: seq<Bytes>)
    ensures lines != [] ==> |Join(lines, LINE_BREAK)| + 1 == Weight(lines)
  {
    if |lines| > 1 { JoinWeight(lines[1..]); }
  }

  // tail stands at the end of whole, behind a line break or at the very start.
  ghost predicate LineSuffix(tail: Bytes, whole: Bytes)
  {
    && |tail| <= |whole|
    && whole[|whole| - |tail|..] == tail
    && (|tail| == |whole| || whole[|whole| - |tail| - 1] == LINE_BREAK)
  }

  // Joining a run of lines at the end gives the text from a line start on.
  lemma JoinTail(lines: seq<Bytes>, k: nat)
    requires k < |lines|
    ensures LineSuffix(Join(lines[k..], LINE_BREAK), Join(lines, LINE_BREAK))
  {
    if k == 0 {
      assert lines[0..] == lines;
    } else {
      JoinAppend(lines[..k], lines[k..], LINE_BREAK);
      assert lines[..k] + lines[k..] == lines;
    }
  }

  // The newest line always fits when the text ends in a line break: it is the empty one.
  lemma CutInside(content: Bytes)
    requires content != [] && content[|content| - 1] == LINE_BREAK
    ensures var lines := Split(content, LINE_BREAK); Cut(lines) < |lines|
  {
    var lines, body := Split(content, LINE_BREAK), content[..|content| - 1];
    assert content == body + [LINE_BREAK] + [];
    SplitAppend(body, [], LINE_BREAK);
    assert Split<Byte>([], LINE_BREAK) == [[]];
    NewestIsLongest(lines);
    var last := lines[|lines| - 1..];
    assert last == [[]] && Weight(last) == 1;
  }

  lemma TrimKeeps(content: Bytes, maxSize: nat)
    requires content != [] && content[|content| - 1] == LINE_BREAK
    ensures LineSuffix(Trimmed(content, maxSize), content)
    ensures |content| > maxSize ==> |Trimmed(content, maxSize)| < TRIM_TARGET_BYTES
  {
    var lines := Split(content, LINE_BREAK);
    CutInside(content);
    JoinSplit(content, LINE_BREAK);
    NewestIsLongest(lines);
    JoinTail(lines, Cut(lines));
    JoinWeight(Newest(lines));
  }

  /******* Runs *******/

  function WriteAll(f: File, writes: seq<seq<Bytes>>): File
    decreases writes
  {
    if writes == [] then f else WriteAll(Written(f, writes[0]), writes[1..])
  }

  // Everything ever appended, with nothing trimmed.
  function History(start: Bytes, writes: seq<seq<Bytes>>): Bytes
    decreases writes
  {
    if writes == [] then start
    else History(if writes[0] == [] then start else Appended(start, writes[0]), writes[1..])
  }

  lemma SuffixTrans(a: Bytes, b: Bytes, c: Bytes)
    requires LineSuffix(a, b) && LineSuffix(b, c)
    ensures LineSuffix(a, c)
  {
  }

  lemma SuffixAppend(a: Bytes, b: Bytes, more: Bytes)
    requires LineSuffix(a, b)
    ensures LineSuffix(a + more, b + more)
  {
  }

  // One write: the file goes on being a line suffix of the history, and is within bounds.
  lemma WriteKeeps(f: File, history: Bytes, entries: seq<Bytes>)
    requires LineSuffix(ContentOf(f), history) && entries != []
    ensures LineSuffix(ContentOf(Written(f, entries)), Appended(history, entries))
    ensures |ContentOf(Written(f, entries))| <= MAX_LOG_SIZE_BYTES
  {
    var more := Join(entries, LINE_BREAK) + [LINE_BREAK];
    var grown := Appended(ContentOf(f), entries);
    assert grown == ContentOf(f) + more && Appended(history, entries) == history + more;
    SuffixAppend(ContentOf(f), history, more);
    TrimKeeps(grown, MAX_LOG_SIZE_BYTES);
    SuffixTrans(Trimmed(grown, MAX_LOG_SIZE_BYTES), grown, history + more);
  }

  predicate Wrote(writes: seq<seq<Bytes>>)
  {
    writes != [] && (writes[0] != [] || Wrote(writes[1..]))
  }

  lemma {:induction false} WroteLast(writes: seq<seq<Bytes>>)
    requires writes != [] && writes[|writes| - 1] != []
    ensures Wrote(writes)
  {
    if |writes| > 1 { WroteLast(writes[1..]); }
  }

  lemma {:induction false} RunKeeps(f: File, history: Bytes, writes: seq<seq<Bytes>>)
    requires LineSuffix(ContentOf(f), history)
    ensures LineSuffix(ContentOf(WriteAll(f, writes)), History(history, writes))
    ensures Wrote(writes) || |ContentOf(f)| <= MAX_LOG_SIZE_BYTES ==>
      |ContentOf(WriteAll(f, writes))| <= MAX_LOG_SIZE_BYTES
    decreases writes
  {
    if writes != [] {
      var entries := writes[0];
      var next := if entries == [] then history else Appended(history, entries);
      if entries != [] { WriteKeeps(f, history, entries); }
      RunKeeps(Written(f, entries), next, writes[1..]);
    }
  }

  // Main result: whatever the file held at first, after every write of entries it is at most
  // 1 MB and is the end, from a line start on, of everything ever appended to it.
  lemma FileIsNewestHistory(f: File, writes: seq<seq<Bytes>>, i: nat)
    requires i < |writes| && writes[i] != []
    ensures var now := ContentOf(WriteAll(f, writes[..i + 1]));
      && |now| <= MAX_LOG_SIZE_BYTES
      && LineSuffix(now, History(ContentOf(f), writes[..i + 1]))
  {
    WroteLast(writes[..i + 1]);
    RunKeeps(f, ContentOf(f), writes[..i + 1]);
  }

  lemma {:induction false} LastPieceHolds(a: Bytes, b: Bytes)
    requires LINE_BREAK !in b
    ensures var lines := Split(a + b, LINE_BREAK); |lines[|lines| - 1]| >= |b|
    decreases a
  {
    if a == [] {
      assert a + b == b;
      SplitPlain(b, LINE_BREAK);
    } else {
      assert (a + b)[1..] == a[1..] + b;
      LastPieceHolds(a[1..], b);
    }
  }

  // The newest line of a text that ends in a line break.
  function NewestLine(content: Bytes): Bytes
    requires content != []
  {
    var lines := Split(content[..|content| - 1], LINE_BREAK);
    lines[|lines| - 1]
  }

  lemma LinesOf(content: Bytes)
    requires content != [] && content[|content| - 1] == LINE_BREAK
    ensures var body, all := Split(content[..|content| - 1], LINE_BREAK), Split(content, LINE_BREAK);
      && all == body + [[]] && Join(all, LINE_BREAK) == content
      && all[|body| - 1..] == [NewestLine(content), []]
      && Weight(all[|body| - 1..]) == |NewestLine(content)| + 2
      && Weight(all[|body|..]) == 1
  {
    var body := content[..|content| - 1];
    assert content == body + [LINE_BREAK] + [];
    SplitAppend(body, [], LINE_BREAK);
    assert Split<Byte>([], LINE_BREAK) == [[]];
    JoinSplit(content, LINE_BREAK);
    var all, n := Split(content, LINE_BREAK), |Split(body, LINE_BREAK)|;
    assert all[n..] == [[]];
    WeightHead(all, n - 1);
  }

  lemma JoinOfTwo(line: Bytes)
    ensures Join([line, []], LINE_BREAK) == line + [LINE_BREAK]
  {
  }

  lemma EndsWithLine(lines: seq<Bytes>, i: nat, line: Bytes)
    requires i < |lines| && lines[i..] == [line, []]
    ensures LineSuffix(line + [LINE_BREAK], Join(lines, LINE_BREAK))
  {
    JoinTail(lines, i);
    JoinOfTwo(line);
  }

  lemma CutReaches(all: seq<Bytes>, i: nat)
    requires i <= |all| && Weight(all[i..]) <= TRIM_TARGET_BYTES
    ensures Cut(all) <= i && Newest(all) == all[Cut(all)..]
  {
    NewestIsLongest(all);
  }

  lemma NewestLineFits(content: Bytes, maxSize: nat)
    requires content != [] && content[|content| - 1] == LINE_BREAK
    requires |content| <= maxSize || |NewestLine(content)| + 2 <= TRIM_TARGET_BYTES
    ensures LineSuffix(NewestLine(content) + [LINE_BREAK], Trimmed(content, maxSize))
  {
    LinesOf(content);
    var all := Split(content, LINE_BREAK);
    var i := |Split(content[..|content| - 1], LINE_BREAK)| - 1;
    if |content| <= maxSize {
      EndsWithLine(all, i, NewestLine(content));
    } else {
      CutReaches(all, i);
      assert all[Cut(all)..][i - Cut(all)..] == all[i..];
      EndsWithLine(all[Cut(all)..], i - Cut(all), NewestLine(content));
    }
  }

  lemma NewestLineTooLong(content: Bytes, maxSize: nat)
    requires content != [] && content[|content| - 1] == LINE_BREAK
    requires |content| > maxSize && |NewestLine(content)| + 2 > TRIM_TARGET_BYTES
    ensures Trimmed(content, maxSize) == []
  {
    LinesOf(content);
    var all, n := Split(content, LINE_BREAK), |Split(content[..|content| - 1], LINE_BREAK)|;
    NewestIs(all, n);
    assert all[n..] == [[]];
  }

  // Main result: after a write the newest line stands at the end of the file exactly when
  // nothing had to be trimmed or the line, its break and one more byte fit the 60% target;
  // otherwise the file is empty.
  lemma NewestLineKeptIff(f: File, entries: seq<Bytes>)
    requires entries != []
    ensures var grown, now := Appended(ContentOf(f), entries), ContentOf(Written(f, entries));
      var fits := |grown| <= MAX_LOG_SIZE_BYTES || |NewestLine(grown)| + 2 <= TRIM_TARGET_BYTES;
      && (LineSuffix(NewestLine(grown) + [LINE_BREAK], now) <==> fits)
      && (!fits ==> now == [])
  {
    var grown := Appended(ContentOf(f), entries);
    if |grown| <= MAX_LOG_SIZE_BYTES || |NewestLine(grown)| + 2 <= TRIM_TARGET_BYTES {
      NewestLineFits(grown, MAX_LOG_SIZE_BYTES);
    } else {
      NewestLineTooLong(grown, MAX_LOG_SIZE_BYTES);
    }
  }

  // So a single entry empties the file from 629144 bytes on, once the total passes 1 MB.
  lemma HugeEntryEmptiesFile(f: File, entry: Bytes)
    requires LINE_BREAK !in entry && |entry| + 2 > TRIM_TARGET_BYTES
    requires |Appended(ContentOf(f), [entry])| > MAX_LOG_SIZE_BYTES
    ensures ContentOf(Written(f, [entry])) == []
  {
    var grown := Appended(ContentOf(f), [entry]);
    assert grown[..|grown| - 1] == ContentOf(f) + entry;
    LastPieceHolds(ContentOf(f), entry);
    NewestLineKeptIff(f, [entry]);
  }
}

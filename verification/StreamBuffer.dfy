/** The stream buffer: text waits here and goes to the display in word-sized batches from an
    animation-frame loop. */
module StreamBuffer {
  import opened Text

  const FLUSH_INTERVAL_MS := 40.0
  const MIN_FLUSH_CHARS := 2
  const MAX_FLUSH_CHARS := 80

  predicate IsBoundary(c: CodeUnit)
  {
    IsSpace(c) || c in {0x2C, 0x2E, 0x3002, 0xFF0C, 0xFF01, 0xFF1F, 0x3001, 0xFF1B, 0xFF1A, 0x201C, 0x201D,
      0x2018, 0x2019, 0x300A, 0x300B, 0x3010, 0x3011, 0xFF08, 0xFF09}
  }

  /******* The split point *******/

  ghost predicate SplitsWell(buffer: Text, p: nat)
  {
    && MIN_FLUSH_CHARS < p <= MAX_FLUSH_CHARS < |buffer|
    && (p < MAX_FLUSH_CHARS ==> IsBoundary(buffer[p - 1]))
    && (forall i :: p <= i < MAX_FLUSH_CHARS ==> !IsBoundary(buffer[i]))
  }

  // Short text goes whole. Otherwise the batch ends behind the last boundary in reach, or
  // at the limit when there is none.
  ghost predicate IsFlushPoint(buffer: Text, p: nat)
  {
    if |buffer| <= MAX_FLUSH_CHARS then p == |buffer|
    else
      && SplitsWell(buffer, p)
      && (!IsBoundary(buffer[p - 1]) ==>
          p == MAX_FLUSH_CHARS && forall i :: MIN_FLUSH_CHARS <= i < p ==> !IsBoundary(buffer[i]))
  }

  function LastSplit(buffer: Text, i: int): (best: int)
    requires -1 <= i < |buffer|
    ensures best <= i + 1
    decreases i
  {
    if i < MIN_FLUSH_CHARS then -1
    else if IsBoundary(buffer[i]) then i + 1
    else LastSplit(buffer, i - 1)
  }

  function FlushPoint(buffer: Text): (p: nat)
    ensures p <= |buffer|
  {
    if |buffer| <= MAX_FLUSH_CHARS then |buffer|
    else
      var best := LastSplit(buffer, MAX_FLUSH_CHARS - 1);
      if best > MIN_FLUSH_CHARS then best else MAX_FLUSH_CHARS
  }

  method FindFlushPoint(buffer: Text) returns (p: nat)
    ensures p == FlushPoint(buffer)
  {
    if |buffer| <= MAX_FLUSH_CHARS { return |buffer|; }
    var bestSplit := -1;
    var i := MAX_FLUSH_CHARS - 1;
    while i >= MIN_FLUSH_CHARS
      invariant MIN_FLUSH_CHARS - 1 <= i < MAX_FLUSH_CHARS && bestSplit == -1
      invariant LastSplit(buffer, MAX_FLUSH_CHARS - 1) == LastSplit(buffer, i)
    {
      if IsBoundary(buffer[i]) {
        bestSplit := i + 1;
        break;
      }
      i := i - 1;
    }
    return if bestSplit > MIN_FLUSH_CHARS then bestSplit else MAX_FLUSH_CHARS;
  }

  lemma {:induction false} LastSplitFacts(buffer: Text, i: int)
    requires -1 <= i < |buffer|
    ensures var best := LastSplit(buffer, i);
      && (best == -1 || (MIN_FLUSH_CHARS < best <= i + 1 && IsBoundary(buffer[best - 1])))
      && (forall j :: MIN_FLUSH_CHARS <= j <= i && best <= j ==> !IsBoundary(buffer[j]))
    decreases i
  {
    if i >= MIN_FLUSH_CHARS && !IsBoundary(buffer[i]) {
      LastSplitFacts(buffer, i - 1);
    }
  }

  // The scan finds that point, and no other point will do.
  lemma FlushPointIsIt(buffer: Text, p: nat)
    ensures IsFlushPoint(buffer, p) <==> p == FlushPoint(buffer)
  {
    if |buffer| > MAX_FLUSH_CHARS {
      LastSplitFacts(buffer, MAX_FLUSH_CHARS - 1);
    }
  }

  predicate IsLetterOrDigit(c: CodeUnit)
  {
    0x30 <= c <= 0x39 || 0x41 <= c <= 0x5A || 0x61 <= c <= 0x7A
  }

  // Long text whose last blank, comma or full stop within reach is at k is cut behind it;
  // one run of letters and digits is cut at 80 characters, and so is text whose only such
  // places are its first two.
  lemma CutBehindBlank(buffer: Text, k: int)
    requires |buffer| > 80 && -1 <= k < 80
    requires k >= 0 ==> buffer[k] in {0x20, 0x0A, 0x2C, 0x2E, 0x3002, 0xFF0C}
    requires forall j :: k < j < 80 ==> IsLetterOrDigit(buffer[j])
    ensures FlushPoint(buffer) == if k >= 2 then k + 1 else 80
  {
    FlushPointIsIt(buffer, if k >= 2 then k + 1 else 80);
    assert forall c: CodeUnit :: IsLetterOrDigit(c) ==> !IsBoundary(c);
  }

  // Short text goes whole, up to 80 characters.
  lemma ShortGoesWhole(buffer: Text)
    requires |buffer| <= 80
    ensures FlushPoint(buffer) == |buffer|
  {
  }

  /******* The buffer *******/

  datatype Buffer = Buffer(text: Text, frame: bool, running: bool, lastFlush: real)

  const Idle := Buffer([], false, false, 0.0)

  // A frame fires: the buffer afterwards, and the batch handed on ([] when there is none).
  function FlushLoop(b: Buffer, now: real): (Buffer, Text)
  {
    if b.text != [] && now - b.lastFlush >= FLUSH_INTERVAL_MS then
      var p := FlushPoint(b.text);
      (Buffer(b.text[p..], b.running || b.text[p..] != [], b.running, now), b.text[..p])
    else
      (b.(frame := b.running || b.text != []), [])
  }

  function Push(b: Buffer, content: Text, now: real): Buffer
  {
    Buffer(b.text + content, true, true, if b.frame then b.lastFlush else now)
  }

  function FlushAll(b: Buffer): (Buffer, Text)
  {
    (Buffer([], false, false, b.lastFlush), b.text)
  }

  function Reset(b: Buffer): Buffer
  {
    Buffer([], false, false, b.lastFlush)
  }

  class StreamBuffer {
    var buffer: Text
    var framePending: bool
    var isRunning: bool
    var lastFlushTime: real

    ghost function State(): Buffer
      reads this
    {
      Buffer(buffer, framePending, isRunning, lastFlushTime)
    }

    constructor ()
      ensures State() == Idle
    {
      buffer, framePending, isRunning, lastFlushTime := [], false, false, 0.0;
    }

    method OnFrame(now: real) returns (batch: Text)
      modifies this
      ensures (State(), batch) == FlushLoop(old(State()), now)
    {
      batch := [];
      var elapsed := now - lastFlushTime;
      if |buffer| > 0 && elapsed >= FLUSH_INTERVAL_MS {
        var flushPoint := FindFlushPoint(buffer);
        FlushPointIsIt(buffer, flushPoint);
        batch := buffer[..flushPoint];
        buffer := buffer[flushPoint..];
        lastFlushTime := now;
      }
      framePending := isRunning || |buffer| > 0;
    }

    method EnsureRunning(now: real)
      modifies this`framePending, this`lastFlushTime
      ensures framePending && lastFlushTime == if old(framePending) then old(lastFlushTime) else now
    {
      if !framePending {
        lastFlushTime := now;
        framePending := true;
      }
    }

    method Append(content: Text, now: real)
      modifies this
      ensures State() == Push(old(State()), content, now)
    {
      buffer := buffer + content;
      isRunning := true;
      EnsureRunning(now);
    }

    method Drain() returns (remaining: Text)
      modifies this
      ensures (State(), remaining) == FlushAll(old(State()))
    {
      isRunning := false;
      remaining := [];
      if |buffer| > 0 {
        remaining := buffer;
        buffer := [];
      }
      framePending := false;
    }

    method Clear()
      modifies this
      ensures State() == Reset(old(State()))
    {
      buffer := [];
      isRunning := false;
      framePending := false;
    }
  }
}

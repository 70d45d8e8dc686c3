/** What the stream buffer keeps over whole runs: text, the frame loop, pace and progress. */
module StreamBufferRuns {
  import opened Text
  import opened StreamBuffer

  datatype Act =
    | Pushed(content: Text, now: real)
    | Frame(now: real)
    | FlushedAll
    | WasReset

  // The buffer with what went in and out since the last reset, and when the loop flushed.
  datatype Ledger = Ledger(buf: Buffer, pushed: Text, flushed: Text, batches: seq<(real, Text)>)

  function Step(l: Ledger, a: Act): Ledger
  {
    match a
    case Pushed(content, now) => l.(buf := Push(l.buf, content, now), pushed := l.pushed + content)
    case Frame(now) =>
      var (b, batch) := FlushLoop(l.buf, now);
      l.(buf := b, flushed := l.flushed + batch,
         batches := if batch == [] then l.batches else l.batches + [(now, batch)])
    case FlushedAll => l.(buf := FlushAll(l.buf).0, flushed := l.flushed + FlushAll(l.buf).1)
    case WasReset => l.(buf := Reset(l.buf), pushed := [], flushed := [])
  }

  function Run(l: Ledger, acts: seq<Act>): Ledger
    decreases acts
  {
    if acts == [] then l else Run(Step(l, acts[0]), acts[1..])
  }

  predicate Clocked(a: Act)
  {
    a.Pushed? || a.Frame?
  }

  // A frame fires only when one was requested, and the clock does not go back.
  ghost predicate Possible(l: Ledger, acts: seq<Act>, t: real)
    decreases acts
  {
    acts == [] ||
    (&& (acts[0].Frame? ==> l.buf.frame)
     && (Clocked(acts[0]) ==> t <= acts[0].now)
     && Possible(Step(l, acts[0]), acts[1..], After(acts[0], t)))
  }

  // Running means having a frame scheduled, and waiting text means running.
  ghost predicate Scheduled(b: Buffer)
  {
    && (b.running <==> b.frame)
    && (b.text != [] ==> b.running)
  }

  // Loop batches are 1 to 80 long and at least 40 ms apart.
  ghost predicate Paced(batches: seq<(real, Text)>)
  {
    && (forall i :: 0 <= i < |batches| ==> 1 <= |batches[i].1| <= MAX_FLUSH_CHARS)
    && (forall i, j :: 0 <= i < j < |batches| ==> batches[j].0 - batches[i].0 >= FLUSH_INTERVAL_MS)
  }

  ghost predicate Inv(l: Ledger, t: real)
  {
    && l.flushed + l.buf.text == l.pushed
    && Scheduled(l.buf)
    && Paced(l.batches)
    && (l.buf.frame ==> l.buf.lastFlush <= t)
    && (forall i :: 0 <= i < |l.batches| ==>
         l.batches[i].0 <= t && (l.buf.frame ==> l.batches[i].0 <= l.buf.lastFlush))
  }

  lemma BatchSize(b: Text)
    requires b != []
    ensures 1 <= FlushPoint(b) <= MAX_FLUSH_CHARS && FlushPoint(b) <= |b|
    ensures FlushPoint(b) == |b| || FlushPoint(b) >= 3
  {
  }

  function After(a: Act, t: real): real
  {
    if Clocked(a) then a.now else t
  }

  function EndTime(acts: seq<Act>, t: real): real
  {
    if acts == [] then t else EndTime(acts[1..], After(acts[0], t))
  }

  lemma PacedAppend(batches: seq<(real, Text)>, now: real, batch: Text)
    requires Paced(batches) && 1 <= |batch| <= MAX_FLUSH_CHARS
    requires forall i :: 0 <= i < |batches| ==> now - batches[i].0 >= FLUSH_INTERVAL_MS
    ensures Paced(batches + [(now, batch)])
  {
  }

  lemma FrameKeepsInv(l: Ledger, now: real, t: real)
    requires Inv(l, t) && l.buf.frame && t <= now
    ensures Inv(Step(l, Frame(now)), now)
  {
    var (b, batch) := FlushLoop(l.buf, now);
    if batch != [] {
      BatchSize(l.buf.text);
      PacedAppend(l.batches, now, batch);
      assert batch + b.text == l.buf.text;
      assert (l.flushed + batch) + b.text == l.pushed;
    } else {
      if l.buf.text != [] { BatchSize(l.buf.text); }
      assert l.flushed + [] == l.flushed;
    }
  }

  lemma StepKeepsInv(l: Ledger, a: Act, t: real)
    requires Inv(l, t) && (a.Frame? ==> l.buf.frame) && (Clocked(a) ==> t <= a.now)
    ensures Inv(Step(l, a), After(a, t))
  {
    match a {
      case Pushed(content, now) => assert l.flushed + (l.buf.text + content) == l.pushed + content;
      case Frame(now) => FrameKeepsInv(l, now, t);
      case FlushedAll => assert l.flushed + l.buf.text + [] == l.pushed;
      case WasReset => assert [] + Reset(l.buf).text == [];
    }
  }

  lemma {:induction false} RunKeepsInv(l: Ledger, acts: seq<Act>, t: real)
    requires Inv(l, t) && Possible(l, acts, t)
    ensures Inv(Run(l, acts), EndTime(acts, t))
    decreases acts
  {
    if acts != [] {
      StepKeepsInv(l, acts[0], t);
      RunKeepsInv(Step(l, acts[0]), acts[1..], After(acts[0], t));
    }
  }

  // What a run has pushed since its last reset.
  function PushedSince(before: Text, acts: seq<Act>): Text
    decreases acts
  {
    if acts == [] then before
    else
      PushedSince(
        match acts[0]
        case Pushed(content, _) => before + content
        case WasReset => []
        case _ => before, acts[1..])
  }

  lemma {:induction false} PushedIsAll(l: Ledger, acts: seq<Act>)
    ensures Run(l, acts).pushed == PushedSince(l.pushed, acts)
    decreases acts
  {
    if acts != [] { PushedIsAll(Step(l, acts[0]), acts[1..]); }
  }

  // A due frame hands on 1 to 80 characters, the rest of a text that is no longer than that;
  // flushing hands on everything, and after it and after a reset nothing waits and no frame
  // is asked for; a frame that is not due changes neither side.
  lemma StepMoves(l: Ledger, a: Act)
    ensures var n := Step(l, a);
      && (a.Frame? && l.buf.text != [] && a.now - l.buf.lastFlush >= FLUSH_INTERVAL_MS ==>
          && |l.flushed| < |n.flushed| <= |l.flushed| + 80 && n.buf.lastFlush == a.now
          && (|l.buf.text| <= 80 ==> n.buf.text == []) && n.batches != l.batches)
      && (a.Frame? && (l.buf.text == [] || a.now - l.buf.lastFlush < FLUSH_INTERVAL_MS) ==>
          n.buf.text == l.buf.text && n.flushed == l.flushed && n.batches == l.batches)
      && (a.Frame? ==> (n.buf.frame <==> l.buf.running || n.buf.text != []) && n.buf.running == l.buf.running)
      && (a.FlushedAll? ==> n.flushed == l.flushed + l.buf.text && n.buf.text == [] && !n.buf.frame && !n.buf.running)
      && (a.WasReset? ==> n.flushed == n.pushed == n.buf.text == [] && !n.buf.frame && !n.buf.running)
      && (a.Pushed? ==> n.buf.text == l.buf.text + a.content && n.buf.frame && n.buf.running && n.flushed == l.flushed)
  {
    if l.buf.text != [] { BatchSize(l.buf.text); }
  }

  // Main result: from an idle buffer, over every run, no text is lost or reordered between
  // push and flush, text never waits without a frame, and the loop keeps its pace.
  lemma BufferConserves(acts: seq<Act>, t: real)
    requires Possible(Ledger(Idle, [], [], []), acts, t)
    ensures var l := Run(Ledger(Idle, [], [], []), acts);
      l.flushed + l.buf.text == PushedSince([], acts) && Scheduled(l.buf) && Paced(l.batches)
  {
    assert Idle.text == [];
    PushedIsAll(Ledger(Idle, [], [], []), acts);
    RunKeepsInv(Ledger(Idle, [], [], []), acts, t);
  }

  // Contrary to the comment in the source, an empty buffer does not stop the loop: once
  // started it asks for frame after frame until flushAll or reset.
  lemma LoopNeverIdles(b: Buffer, now: real)
    requires Scheduled(b) && b.frame
    ensures FlushLoop(b, now).0.frame
  {
  }

  /******* Progress *******/

  // The number of loop flushes that empty a backlog nobody adds to.
  function FlushesToDrain(text: Text): nat
    decreases |text|
  {
    if text == [] then 0
    else
      BatchSize(text);
      1 + FlushesToDrain(text[FlushPoint(text)..])
  }

  lemma {:induction false} DrainBound(text: Text)
    ensures FlushesToDrain(text) <= 1 + ((if |text| > 80 then |text| - 80 else 0) + 2) / 3
    decreases |text|
  {
    if text != [] {
      BatchSize(text);
      DrainBound(text[FlushPoint(text)..]);
    }
  }

  function Frames(b: Buffer, ts: seq<real>): Buffer
    decreases ts
  {
    if ts == [] then b else Frames(FlushLoop(b, ts[0]).0, ts[1..])
  }

  // Frames come at most gap apart, the first within gap of prev.
  ghost predicate Steady(ts: seq<real>, prev: real, gap: real)
    decreases ts
  {
    ts == [] || (prev <= ts[0] <= prev + gap && Steady(ts[1..], ts[0], gap))
  }

  lemma {:induction false} FramesOnEmpty(b: Buffer, ts: seq<real>)
    requires b.text == []
    ensures Frames(b, ts).text == []
    decreases ts
  {
    if ts != [] { FramesOnEmpty(FlushLoop(b, ts[0]).0, ts[1..]); }
  }

  // n turns of one length.
  function Turns(n: nat, turn: real): real
  {
    if n == 0 then 0.0 else turn + Turns(n - 1, turn)
  }

  lemma {:induction false} TurnsClosed(n: nat, turn: real)
    requires turn >= 0.0
    ensures Turns(n, turn) == n as real * turn && Turns(n, turn) >= 0.0
  {
    if n > 0 { TurnsClosed(n - 1, turn); }
  }

  // When the next flush is due, seen from prev: at once if the last one is long enough ago.
  function Due(b: Buffer, prev: real): real
  {
    if prev < b.lastFlush + FLUSH_INTERVAL_MS then b.lastFlush + FLUSH_INTERVAL_MS else prev
  }

  // If text is still waiting after these frames, it is because the last of them came
  // before the time that the backlog needs: one frame gap behind the moment the first flush
  // is due, and one interval and one gap for every flush after it.
  lemma {:induction false} DrainTime(b: Buffer, ts: seq<real>, prev: real, gap: real)
    requires gap >= 0.0 && Steady(ts, prev, gap) && b.lastFlush <= prev
    requires ts != [] && Frames(b, ts).text != []
    ensures FlushesToDrain(b.text) >= 1
    ensures ts[|ts| - 1] < Due(b, prev) + gap + Turns(FlushesToDrain(b.text) - 1, FLUSH_INTERVAL_MS + gap)
    decreases ts
  {
    if b.text == [] { FramesOnEmpty(b, ts); }
    var now, turn, n := ts[0], FLUSH_INTERVAL_MS + gap, FlushesToDrain(b.text);
    var b' := FlushLoop(b, now).0;
    FirstFrame(b, now, prev, gap);
    if |ts| > 1 {
      if b'.text == [] { FramesOnEmpty(b', ts[1..]); }
      DrainTime(b', ts[1..], now, gap);
    }
  }

  // One frame: either the bound moves on with the backlog, or both stay.
  lemma FirstFrame(b: Buffer, now: real, prev: real, gap: real)
    requires gap >= 0.0 && prev <= now <= prev + gap && b.lastFlush <= prev && b.text != []
    ensures var b', n, turn := FlushLoop(b, now).0, FlushesToDrain(b.text), FLUSH_INTERVAL_MS + gap;
      && b'.lastFlush <= now
      && (b'.text != [] ==>
           var n' := FlushesToDrain(b'.text);
           && now < Due(b, prev) + gap + Turns(n - 1, turn)
           && n' >= 1 && Due(b', now) + Turns(n' - 1, turn) <= Due(b, prev) + Turns(n - 1, turn))
  {
    if now - b.lastFlush < FLUSH_INTERVAL_MS {
      TurnsClosed(FlushesToDrain(b.text) - 1, FLUSH_INTERVAL_MS + gap);
    } else {
      if FlushLoop(b, now).0.text != [] { DueFrame(b, now, prev, gap); }
    }
  }

  lemma DueFrame(b: Buffer, now: real, prev: real, gap: real)
    requires gap >= 0.0 && prev <= now <= prev + gap && b.lastFlush <= prev && b.text != []
    requires now - b.lastFlush >= FLUSH_INTERVAL_MS && FlushLoop(b, now).0.text != []
    ensures var b', n, turn := FlushLoop(b, now).0, FlushesToDrain(b.text), FLUSH_INTERVAL_MS + gap;
      && FlushesToDrain(b'.text) == n - 1 >= 1
      && now < Due(b, prev) + gap + Turns(n - 1, turn)
      && Due(b', now) + Turns(n - 2, turn) <= Due(b, prev) + Turns(n - 1, turn)
  {
    FlushTakesOne(b, now);
    TurnsOne(FlushesToDrain(b.text) - 1, FLUSH_INTERVAL_MS + gap);
  }

  lemma TurnsOne(n: nat, turn: real)
    requires n >= 1 && turn >= 0.0
    ensures Turns(n, turn) == turn + Turns(n - 1, turn) >= turn
  {
    TurnsClosed(n - 1, turn);
  }

  lemma FlushTakesOne(b: Buffer, now: real)
    requires b.text != []
    ensures var n := FlushesToDrain(b.text);
      FlushesToDrain(FlushLoop(b, now).0.text) == if now - b.lastFlush >= FLUSH_INTERVAL_MS then n - 1 else n
  {
  }
}

/** From a question to its answer: sendMessage turns the stream on, and the stream_start of the
    answer comes a round trip later. */
module Answers {
  import opened Text
  import opened EventReducer
  import opened ChatStream
  import opened Wrappers
  import SB = StreamBuffer

  // What may come between the two: anything but a closing event or a stream_start.
  predicate Waits(mid: seq<Input>)
  {
    forall i :: 0 <= i < |mid| ==> GoesOn(mid[i]) && !IsStart(mid[i])
  }

  // The chat when the stream_start comes.
  function Asked(c: Chat, question: Text, t: At, mid: seq<Input>, mats: seq<At>): Chat
    requires |mid| == |mats|
  {
    HandleAll(Handle(c, Sends(question), t), mid, mats)
  }

  lemma {:induction false} WaitsUndisturbed(d: Chat, mid: seq<Input>, mats: seq<At>)
    requires |mid| == |mats| && Waits(mid)
    ensures Undisturbed(d, mid, mats)
    decreases mid
  {
    if mid != [] { WaitsUndisturbed(Handle(d, mid[0], mats[0]), mid[1..], mats[1..]); }
  }

  lemma AskedHolds(c: Chat, question: Text, t: At, mid: seq<Input>, mats: seq<At>)
    requires |mid| == |mats| && Waits(mid)
    ensures var d := Asked(c, question, t, mid, mats);
      && d.store.isStreaming && Pending(d) == c.buf.text + Shown(mid)
      && d.store.messages == MessagesAfter(c.store.messages + [Message(User, question)], mid)
  {
    var s := Handle(c, Sends(question), t);
    WaitsUndisturbed(s, mid, mats);
    RunGoesOn(s, mid, mats);
    assert [] + c.buf.text == c.buf.text;
  }

  /******* When the start is accepted *******/

  // A frame that finds the flush interval over.
  predicate HasDueFrame(lastFlush: real, mid: seq<Input>, mats: seq<At>)
    requires |mid| == |mats|
  {
    exists i :: 0 <= i < |mid| && mid[i].Frame? && mats[i].perf - lastFlush >= SB.FLUSH_INTERVAL_MS
  }

  lemma QuietStep(d: Chat, i: Input, at: At)
    requires d.store.isStreaming && d.store.streaming == [] && GoesOn(i) && !IsStart(i) && ShownBy(i) == []
    ensures var e := Handle(d, i, at);
      if i.Frame? && at.perf - d.buf.lastFlush >= SB.FLUSH_INTERVAL_MS && d.buf.text != [] then
        e.store.streaming != []
      else e.store.streaming == [] && e.buf.text == d.buf.text && e.buf.lastFlush == d.buf.lastFlush
  {
    match i {
      case Frame => SB.FlushPointIsIt(d.buf.text, SB.FlushPoint(d.buf.text));
      case Arrives(e, freshId) =>
        if !Dropped(e) && !e.StreamChunk? { ReactGoesOn(d.store, e, at.now, freshId); }
      case _ =>
    }
  }

  lemma {:induction false} LeftoverStays(d: Chat, mid: seq<Input>, mats: seq<At>)
    requires |mid| == |mats| && d.store.isStreaming && d.store.streaming == [] && Waits(mid) && Shown(mid) == []
    ensures HandleAll(d, mid, mats).store.streaming == []
      <==> d.buf.text == [] || !HasDueFrame(d.buf.lastFlush, mid, mats)
    decreases mid
  {
    if mid != [] {
      var e, rest, rats := Handle(d, mid[0], mats[0]), mid[1..], mats[1..];
      assert ShownBy(mid[0]) == [] && Shown(rest) == [];
      QuietStep(d, mid[0], mats[0]);
      InputGoesOn(d, mid[0], mats[0]);
      DueFrameSplit(d.buf.lastFlush, mid, mats);
      if e.store.streaming == [] {
        LeftoverStays(e, rest, rats);
      } else {
        WaitsUndisturbed(e, rest, rats);
        RunGoesOn(e, rest, rats);
      }
    }
  }

  lemma DueFrameSplit(lastFlush: real, mid: seq<Input>, mats: seq<At>)
    requires |mid| == |mats| && mid != []
    ensures HasDueFrame(lastFlush, mid, mats) <==>
      || (mid[0].Frame? && mats[0].perf - lastFlush >= SB.FLUSH_INTERVAL_MS)
      || HasDueFrame(lastFlush, mid[1..], mats[1..])
  {
    var rest, rats := mid[1..], mats[1..];
    if HasDueFrame(lastFlush, rest, rats) {
      var i :| 0 <= i < |rest| && rest[i].Frame? && rats[i].perf - lastFlush >= SB.FLUSH_INTERVAL_MS;
      assert mid[i + 1].Frame?;
    }
    if HasDueFrame(lastFlush, mid, mats) {
      var i :| 0 <= i < |mid| && mid[i].Frame? && mats[i].perf - lastFlush >= SB.FLUSH_INTERVAL_MS;
      if i > 0 { assert rest[i - 1].Frame?; }
    }
  }

  // Main result: sendMessage clears the store but not the buffer, so the stream_start of the
  // answer is refused exactly when text was left in the buffer and a due frame came first.
  lemma StartIsRefusedIff(c: Chat, question: Text, t: At, mid: seq<Input>, mats: seq<At>, start: At)
    requires |mid| == |mats| && Waits(mid) && Shown(mid) == []
    ensures Refuses(Asked(c, question, t, mid, mats).store, start.now)
      <==> c.buf.text != [] && HasDueFrame(c.buf.lastFlush, mid, mats)
  {
    AskedHolds(c, question, t, mid, mats);
    LeftoverStays(Handle(c, Sends(question), t), mid, mats);
  }

  /******* What is committed *******/

  predicate Noted(inputs: seq<Input>)
  {
    exists i :: 0 <= i < |inputs| && inputs[i].Note?
  }

  predicate Refreshes(inputs: seq<Input>)
  {
    exists i :: 0 <= i < |inputs| && inputs[i].Refreshed?
  }

  // Without a refresh the last message is as before, or a note of the system.
  lemma {:induction false} NotesAreLast(ms: seq<Message>, inputs: seq<Input>)
    requires !Refreshes(inputs)
    ensures LastRole(MessagesAfter(ms, inputs)) == if Noted(inputs) then Some(System) else LastRole(ms)
    decreases inputs
  {
    if inputs != [] {
      var rest := inputs[1..];
      assert forall i :: 0 <= i < |rest| ==> rest[i] == inputs[i + 1];
      assert !Refreshes(rest);
      NotesAreLast(MessagesBy(ms, inputs[0]), rest);
      assert Noted(inputs) <==> inputs[0].Note? || Noted(rest) by {
        if Noted(inputs) && !inputs[0].Note? {
          var i :| 0 <= i < |inputs| && inputs[i].Note?;
          assert rest[i - 1].Note?;
        }
      }
    }
  }

  lemma {:induction false} MessagesAppend(ms: seq<Message>, a: seq<Input>, b: seq<Input>)
    ensures MessagesAfter(ms, a + b) == MessagesAfter(MessagesAfter(ms, a), b)
    decreases a
  {
    if a == [] {
      assert a + b == b;
    } else {
      assert (a + b)[1..] == a[1..] + b;
      MessagesAppend(MessagesBy(ms, a[0]), a[1..], b);
    }
  }

  // A stream_start that comes while the question waits for it, and what it brings.
  ghost predicate AnswerOf(
    c: Chat, question: Text, t: At, mid: seq<Input>, mats: seq<At>, start: At, freshId: string, inputs: seq<Input>,
    ats: seq<At>)
  {
    && |mid| == |mats| && Waits(mid) && !Refreshes(mid + inputs)
    && StartDuring(Asked(c, question, t, mid, mats), start, freshId, inputs, ats)
  }

  // Everything shown behind the question, in the messages' terms and in the text's.
  lemma AnswerHolds(
    c: Chat, question: Text, t: At, mid: seq<Input>, mats: seq<At>, start: At, freshId: string, inputs: seq<Input>,
    ats: seq<At>)
    requires AnswerOf(c, question, t, mid, mats, start, freshId, inputs, ats)
    ensures var d := Asked(c, question, t, mid, mats);
      var r := Flushed(Streamed(d, start, freshId, inputs, ats));
      && r.store.isStreaming
      && r.store.streaming == LeftBy(d) + Shown(inputs)
      && LeftBy(d) == (if Refuses(d.store, start.now) then c.buf.text + Shown(mid) else [])
      && r.store.messages == MessagesAfter(c.store.messages + [Message(User, question)], mid + inputs)
      && LastRole(r.store.messages) == if Noted(mid + inputs) then Some(System) else Some(User)
  {
    AskedHolds(c, question, t, mid, mats);
    StartDuringHolds(Asked(c, question, t, mid, mats), start, freshId, inputs, ats);
    MessagesAppend(c.store.messages + [Message(User, question)], mid, inputs);
    NotesAreLast(c.store.messages + [Message(User, question)], mid + inputs);
  }

  // What is committed behind ms: the server's text, what was shown, or the thinking.
  ghost predicate AddsLonger(ms: seq<Message>, after: seq<Message>, server: Text, shown: Text, thinking: Text)
  {
    && (server != [] && |server| >= |shown| ==> after == Added(ms, server))
    && (|shown| > |server| ==> after == Added(ms, shown))
    && (server == [] && shown == [] ==> after == Added(ms, thinking))
  }

  // Main result: from any state whatever, after the user's message and whatever comes before
  // the answer's stream_start and behind it, stream_end commits everything the answer showed
  // or the server's longer text: the duplicate test cannot fire behind a message of the
  // user's or of the system's. A refused start leaves earlier text in front of the answer,
  // and the server's own text is the one committed exactly when the start was accepted.
  lemma AnswerIsCommitted(
    c: Chat, question: Text, t: At, mid: seq<Input>, mats: seq<At>, start: At, freshId: string, inputs: seq<Input>,
    ats: seq<At>, end: Event, at: At)
    requires AnswerOf(c, question, t, mid, mats, start, freshId, inputs, ats) && end.StreamEnd? && !Dropped(end)
    ensures var d := Asked(c, question, t, mid, mats);
      var r := Streamed(d, start, freshId, inputs, ats);
      var after := Handle(r, Arrives(end, freshId), at).store.messages;
      var ms := MessagesAfter(c.store.messages + [Message(User, question)], mid + inputs);
      var left := if Refuses(d.store, start.now) then c.buf.text + Shown(mid) else [];
      && AddsLonger(ms, after, end.content, left + Shown(inputs), r.store.thinking)
      && (end.content == Shown(inputs) != [] ==> (after == Added(ms, end.content) <==> !Refuses(d.store, start.now)))
  {
    AnswerHolds(c, question, t, mid, mats, start, freshId, inputs, ats);
    var d := Asked(c, question, t, mid, mats);
    var r := Streamed(d, start, freshId, inputs, ats);
    StreamEndCommits(Flushed(r).store, end, at.now, freshId);
    SameAdded(Flushed(r).store.messages, LeftBy(d) + Shown(inputs), end.content);
    if end.content == Shown(inputs) != [] { LongerWins(LeftBy(d), end.content, r.store.thinking); }
  }

  lemma SameAdded(ms: seq<Message>, x: Text, y: Text)
    ensures Added(ms, x) == Added(ms, y) <==> x == y
  {
    assert Added(ms, x)[|ms|].content == x && Added(ms, y)[|ms|].content == y;
  }

  // With nothing left in the buffer, and nothing shown before the start, the answer stands
  // alone.
  lemma AnswerStandsAlone(
    c: Chat, question: Text, t: At, mid: seq<Input>, mats: seq<At>, start: At, freshId: string, inputs: seq<Input>,
    ats: seq<At>, end: Event, at: At)
    requires AnswerOf(c, question, t, mid, mats, start, freshId, inputs, ats) && end.StreamEnd? && !Dropped(end)
    requires c.buf.text == [] && Shown(mid) == []
    ensures var r := Streamed(Asked(c, question, t, mid, mats), start, freshId, inputs, ats);
      var ms := MessagesAfter(c.store.messages + [Message(User, question)], mid + inputs);
      AddsLonger(ms, Handle(r, Arrives(end, freshId), at).store.messages, end.content, Shown(inputs), r.store.thinking)
  {
    StartIsRefusedIff(c, question, t, mid, mats, start);
    AnswerIsCommitted(c, question, t, mid, mats, start, freshId, inputs, ats, end, at);
    assert [] + Shown(inputs) == Shown(inputs);
  }

  // Where it does not: a failure has left text in the buffer, and a due frame comes before
  // the start. The leftover is committed as the beginning of the answer.
  lemma LeftoverSpoilsAnswer(
    c: Chat, question: Text, t: At, mid: seq<Input>, mats: seq<At>, start: At, freshId: string, inputs: seq<Input>,
    ats: seq<At>, end: Event, at: At)
    requires AnswerOf(c, question, t, mid, mats, start, freshId, inputs, ats) && end.StreamEnd? && !Dropped(end)
    requires c.buf.text != [] && Shown(mid) == [] && HasDueFrame(c.buf.lastFlush, mid, mats)
    requires end.content == Shown(inputs) != []
    ensures var d := Asked(c, question, t, mid, mats);
      && Refuses(d.store, start.now)
      && Handle(Streamed(d, start, freshId, inputs, ats), Arrives(end, freshId), at).store.messages
         == Added(MessagesAfter(c.store.messages + [Message(User, question)], mid + inputs), c.buf.text + end.content)
  {
    var d := Asked(c, question, t, mid, mats);
    StartIsRefusedIff(c, question, t, mid, mats, start);
    AnswerIsCommitted(c, question, t, mid, mats, start, freshId, inputs, ats, end, at);
    assert c.buf.text + Shown(mid) == c.buf.text;
    LongerWins(c.buf.text, end.content, Streamed(d, start, freshId, inputs, ats).store.thinking);
  }

  // Status idle in the place of stream_end commits everything shown exactly when no note of
  // the system has come since the question, before the answer's start or behind it.
  lemma IdleCommitsAnswerIff(
    c: Chat, question: Text, t: At, mid: seq<Input>, mats: seq<At>, start: At, freshId: string, inputs: seq<Input>,
    ats: seq<At>, at: At)
    requires AnswerOf(c, question, t, mid, mats, start, freshId, inputs, ats)
    requires !IsBlank(LeftBy(Asked(c, question, t, mid, mats)) + Shown(inputs))
    ensures var d := Asked(c, question, t, mid, mats);
      var r := Streamed(d, start, freshId, inputs, ats);
      var ms := MessagesAfter(c.store.messages + [Message(User, question)], mid + inputs);
      Handle(r, Arrives(Status(true), freshId), at).store.messages == Added(ms, LeftBy(d) + Shown(inputs)) <==>
      !Noted(mid + inputs)
  {
    AnswerHolds(c, question, t, mid, mats, start, freshId, inputs, ats);
    var d := Asked(c, question, t, mid, mats);
    var r := Flushed(Streamed(d, start, freshId, inputs, ats));
    IdleCommits(r.store, Status(true), at.now, freshId);
    AddedIsNew(r.store.messages, LeftBy(d) + Shown(inputs));
  }
}

/** useStreamWatchdog: when a stream goes quiet, ask the backend a limited number of times and
    then end the stream with whatever there is. A query and its answer are one step here. */
module StreamWatchdog {
  import opened Text
  import opened EventReducer
  import opened Wrappers
  import CS = ChatStream
  import SB = StreamBuffer
  import SBR = StreamBufferRuns

  const WATCHDOG_TIMEOUT := 60_000
  const EXTENDED_TIMEOUT := 120_000
  const RETRY_TIMEOUT := 15_000
  const QUERY_TIMEOUT := 5_000
  const MAX_STATUS_RETRIES := 2

  const RECOVERED: Text := Lit("[Response recovered]")
  const TASK_FAILED: Text := Lit("Task failed on server")

  datatype Action = DoCommit | CommitMetadata | DoClear | DoNothing

  function ComputeAction(isStreaming: bool, content: Text, hasTools: bool): Action
  {
    if !isStreaming then DoNothing
    else if !IsBlank(content) then DoCommit
    else if hasTools then CommitMetadata
    else DoClear
  }

  datatype Status =
    | TaskCompleted(content: Text)
    | TaskRunning
    | TaskFailed(error: Text)
    | Unknown // unreachable, not ok, or any other status

  // An answer, and how long it took: the query is aborted after five seconds.
  datatype Reply = Reply(status: Status, took: nat)

  // timer: when it is due.
  datatype Watch = Watch(store: Store, activeMsg: Option<string>, stored: bool, retries: nat, timer: Option<int>)

  function Mutated(w: Watch, m: Mutation, now: int): Watch
  {
    w.(store := ApplyOne(w.store, m, now))
  }

  // The active message, the keys kept in local storage and the retry count all go.
  function Forgotten(w: Watch): Watch
  {
    w.(activeMsg := None, stored := false, retries := 0)
  }

  function Fallback(w: Watch, now: int): Watch
  {
    Forgotten(
      match ComputeAction(w.store.isStreaming, w.store.streaming, w.store.tools != [] || w.store.steps != [])
      case DoCommit => Mutated(w, EndStream(w.store.streaming), now)
      case CommitMetadata => Mutated(w, EndStream([]), now)
      case DoClear => Mutated(w, ClearStreaming, now)
      case DoNothing => w)
  }

  function RecoveredText(content: Text, streamed: Text): Text
  {
    if content != [] then content else if streamed != [] then streamed else RECOVERED
  }

  predicate Queries(w: Watch)
  {
    w.store.isStreaming && w.activeMsg.Some? && w.activeMsg.value != "" && w.retries < MAX_STATUS_RETRIES
  }

  // The timer fires at now; reply is the answer if it asks.
  function Trigger(w: Watch, now: int, reply: Reply): Watch
  {
    var fired := w.(timer := None);
    if !w.store.isStreaming then fired
    else if !Queries(w) then Fallback(fired, now)
    else
      var asked := fired.(retries := w.retries + 1);
      var later := now + reply.took;
      match reply.status
      case TaskCompleted(content) =>
        Forgotten(Mutated(asked, EndStream(RecoveredText(content, w.store.streaming)), later))
      case TaskRunning => asked.(timer := Some(later + EXTENDED_TIMEOUT))
      case TaskFailed(error) =>
        var told := Mutated(asked, SetError(if error != [] then error else TASK_FAILED), later);
        Forgotten(Mutated(told, ClearStreaming, later))
      case Unknown =>
        if asked.retries < MAX_STATUS_RETRIES then asked.(timer := Some(later + RETRY_TIMEOUT))
        else Fallback(asked, later)
  }

  function WatchReset(w: Watch, now: int): Watch
  {
    w.(retries := 0, timer := Some(now + WATCHDOG_TIMEOUT))
  }

  class UseStreamWatchdog {
    const store: MessageStore
    var activeMsgId: Option<string>
    var stored: bool
    var timer: Option<int>
    var retryCount: nat

    ghost function Abs(): Watch
      reads this, store
    {
      Watch(store.state, activeMsgId, stored, retryCount, timer)
    }

    constructor (store: MessageStore, activeMsgId: Option<string>)
      ensures this.store == store && Abs() == Watch(store.state, activeMsgId, activeMsgId.Some?, 0, None)
    {
      this.store := store;
      this.activeMsgId := activeMsgId;
      stored, timer, retryCount := activeMsgId.Some?, None, 0;
    }

    method Clear()
      modifies this`timer, this`retryCount
      ensures Abs() == old(Abs()).(timer := None, retries := 0)
    {
      if timer != None { timer := None; }
      retryCount := 0;
    }

    method Reset(now: int)
      modifies this`timer, this`retryCount
      ensures Abs() == WatchReset(old(Abs()), now)
    {
      retryCount := 0;
      timer := Some(now + WATCHDOG_TIMEOUT);
    }

    method Do(m: Mutation, now: int)
      modifies store
      ensures store.state == ApplyOne(old(store.state), m, now)
    {
      ApplyTwo(store.state, m, m, now);
      store.ApplyMutations([m], now);
    }

    method Forget()
      modifies this`activeMsgId, this`stored, this`retryCount
      ensures Abs() == Forgotten(old(Abs()))
    {
      activeMsgId := None;
      stored := false;
      retryCount := 0;
    }

    method HandleTrigger(now: int, reply: Reply)
      modifies this, store
      ensures Abs() == Trigger(old(Abs()), now, reply)
    {
      timer := None;
      if !store.state.isStreaming { return; }
      var at := now;
      if activeMsgId.Some? && activeMsgId.value != "" && retryCount < MAX_STATUS_RETRIES {
        retryCount := retryCount + 1;
        at := now + reply.took;
        match reply.status {
          case TaskCompleted(content) =>
            Do(EndStream(RecoveredText(content, store.state.streaming)), at);
            Forget();
            return;
          case TaskRunning =>
            timer := Some(at + EXTENDED_TIMEOUT);
            return;
          case TaskFailed(error) =>
            Do(SetError(if error != [] then error else TASK_FAILED), at);
            Do(ClearStreaming, at);
            Forget();
            return;
          case Unknown =>
            if retryCount < MAX_STATUS_RETRIES {
              timer := Some(at + RETRY_TIMEOUT);
              return;
            }
        }
      }
      var s := store.state;
      match ComputeAction(s.isStreaming, s.streaming, |s.tools| > 0 || |s.steps| > 0) {
        case DoCommit => Do(EndStream(s.streaming), at);
        case CommitMetadata => Do(EndStream([]), at);
        case DoClear => Do(ClearStreaming, at);
        case DoNothing =>
      }
      Forget();
    }
  }

  /******* A stall, from the last activity to its end *******/

  // The hook looks at the store alone. What is still in the stream buffer gets there with the
  // animation frames, if any come: a hidden tab has none, while its timers go on.
  function Framed(d: CS.Chat, ts: seq<real>): CS.Chat
    decreases ts
  {
    if ts == [] then d else Framed(CS.Handle(d, CS.Frame, CS.At(0, ts[0])), ts[1..])
  }

  // firings and queries so far, the last reply taken into account, and the time it ended.
  datatype Stall =
    Stall(watch: Watch, buf: SB.Buffer, firings: nat, queries: nat, last: Option<Status>, time: int)

  // One firing, behind the frames that came before it.
  function Fire(s: Stall, replies: nat -> Reply, frames: nat -> seq<real>): Stall
    requires s.watch.timer.Some?
  {
    var d := Framed(CS.Chat(s.watch.store, s.buf), frames(s.firings));
    var w := s.watch.(store := d.store);
    var now, asks, reply := w.timer.value, Queries(w), replies(s.queries);
    Stall(Trigger(w, now, reply), d.buf, s.firings + 1, if asks then s.queries + 1 else s.queries,
      if asks then Some(reply.status) else s.last, if asks then now + reply.took else now)
  }

  // Fire after fire, with no activity in between; replies(k) answers query k, and frames(k)
  // are the frames before firing k.
  function Resolve(s: Stall, replies: nat -> Reply, frames: nat -> seq<real>): Stall
    decreases if s.watch.retries < 3 then 3 - s.watch.retries else 0, if s.watch.timer.Some? then 1 else 0
  {
    if s.watch.timer.None? then s
    else
      var next := Fire(s, replies, frames);
      if next.watch.timer.Some? then Resolve(next, replies, frames) else next
  }

  // An answer that ends the stall.
  predicate IsFinal(last: Option<Status>)
  {
    last.Some? && (last.value.TaskCompleted? || last.value.TaskFailed?)
  }

  // How the stream ends: by the backend's word, or with what had reached the store.
  ghost predicate EndedWell(before: seq<Message>, after: Store, streamed: Text, hasTools: bool, last: Option<Status>)
  {
    if last.Some? && last.value.TaskCompleted? then
      var given := last.value.content;
      && (given != [] ==> after.messages == Commit(before, given))
      && (given == [] && streamed != [] ==> after.messages == Commit(before, streamed))
      && (given == [] && streamed == [] ==> after.messages == Commit(before, Lit("[Response recovered]")))
    else if last.Some? && last.value.TaskFailed? then
      && after.messages == before
      && (last.value.error != [] ==> after.error == Some(last.value.error))
      && (last.value.error == [] ==> after.error == Some(Lit("Task failed on server")))
    else if !IsBlank(streamed) then
      after.messages == Commit(before, streamed)
    else
      after.messages == if hasTools then Commit(before, []) else before
  }

  predicate HasTools(s: Store)
  {
    s.tools != [] || s.steps != []
  }

  // One firing during a stream: it either waits again, having asked, or ends the stream.
  lemma TriggerFacts(w: Watch, now: int, reply: Reply)
    requires w.store.isStreaming && w.timer.Some?
    ensures var after := Trigger(w, now, reply);
      if after.timer.Some? then
        && Queries(w) && !reply.status.TaskCompleted? && !reply.status.TaskFailed?
        && after == w.(retries := w.retries + 1, timer := after.timer)
        && after.timer.value <= now + reply.took + EXTENDED_TIMEOUT
      else
        && !after.store.isStreaming && after.store.streaming == []
        && after.activeMsg == None && !after.stored && after.retries == 0
        && EndedWell(w.store.messages, after.store, w.store.streaming, HasTools(w.store),
             if Queries(w) then Some(reply.status) else None)
  {
  }

  // It waits again exactly when it has asked and the task is running, or the first question
  // got no answer that helps; two minutes after the answer, or fifteen seconds.
  lemma WaitsIff(w: Watch, now: int, reply: Reply)
    requires w.store.isStreaming
    ensures var after, asks := Trigger(w, now, reply), w.activeMsg.Some? && w.activeMsg.value != "" && w.retries < 2;
      && (after.timer.Some?
          <==> asks && (reply.status.TaskRunning? || (reply.status.Unknown? && w.retries == 0)))
      && (after.timer.Some? ==>
          after.timer.value == now + reply.took + if reply.status.TaskRunning? then 120_000 else 15_000)
  {
  }

  // Frames move text from the buffer to the store and change nothing else there.
  lemma {:induction false} FramedKeeps(d: CS.Chat, ts: seq<real>)
    ensures var e := Framed(d, ts);
      && e.store == d.store.(streaming := e.store.streaming) && CS.Pending(e) == CS.Pending(d)
      && e.buf == SBR.Frames(d.buf, ts)
    decreases ts
  {
    if ts != [] {
      CS.FrameMoves(d, CS.At(0, ts[0]));
      FramedKeeps(CS.Handle(d, CS.Frame, CS.At(0, ts[0])), ts[1..]);
    }
  }

  // What of the text shown is in the store once the rest of it is what the buffer holds.
  function Moved(shown: Text, buf: SB.Buffer): Text
  {
    if |buf.text| <= |shown| then shown[..|shown| - |buf.text|] else []
  }

  // A stall that is still on.
  predicate Going(s: Stall)
  {
    && s.watch.store.isStreaming && s.watch.timer.Some?
    && s.firings == s.queries == s.watch.retries <= MAX_STATUS_RETRIES
    && (s.last.Some? ==> !s.last.value.TaskCompleted? && !s.last.value.TaskFailed?)
  }

  function ShownBy(s: Stall): Text
  {
    CS.Pending(CS.Chat(s.watch.store, s.buf))
  }

  // The same stall as before: messages, tools and all the text.
  predicate Same(s: Stall, next: Stall)
  {
    && next.watch.store.messages == s.watch.store.messages && HasTools(next.watch.store) == HasTools(s.watch.store)
    && ShownBy(next) == ShownBy(s)
  }

  // It is over: nothing is remembered, and everything shown is committed as the last answer
  // demands or still in the buffer.
  ghost predicate Over(s: Stall, r: Stall)
  {
    && !r.watch.store.isStreaming && r.watch.store.streaming == []
    && r.watch.activeMsg == None && !r.watch.stored && r.watch.timer == None && r.watch.retries == 0
    && r.firings <= MAX_STATUS_RETRIES + 1 && r.queries <= MAX_STATUS_RETRIES
    && ShownBy(s) == Moved(ShownBy(s), r.buf) + r.buf.text
    && EndedWell(s.watch.store.messages, r.watch.store, Moved(ShownBy(s), r.buf), HasTools(s.watch.store), r.last)
  }

  lemma FireFacts(s: Stall, replies: nat -> Reply, frames: nat -> seq<real>)
    requires Going(s)
    ensures var next, reply := Fire(s, replies, frames), replies(s.queries);
      && next.buf == SBR.Frames(s.buf, frames(s.firings))
      && if next.watch.timer.Some? then
           && Going(next) && Same(s, next) && next.queries == s.queries + 1
           && next.watch.timer.value <= s.watch.timer.value + reply.took + EXTENDED_TIMEOUT
         else
           Over(s, next) && next.time <= s.watch.timer.value + if s.queries < MAX_STATUS_RETRIES then reply.took else 0
  {
    var d := Framed(CS.Chat(s.watch.store, s.buf), frames(s.firings));
    FramedKeeps(CS.Chat(s.watch.store, s.buf), frames(s.firings));
    TriggerFacts(s.watch.(store := d.store), s.watch.timer.value, replies(s.queries));
    assert CS.Pending(d)[..|d.store.streaming|] == d.store.streaming;
  }

  lemma OverFromSame(s: Stall, next: Stall, r: Stall)
    requires Same(s, next) && Over(next, r)
    ensures Over(s, r)
  {
  }

  lemma {:induction false} ResolveFrom(s: Stall, replies: nat -> Reply, frames: nat -> seq<real>)
    requires Going(s) && forall k :: replies(k).took <= QUERY_TIMEOUT
    ensures var r := Resolve(s, replies, frames);
      && Over(s, r)
      && r.time <= s.watch.timer.value + (MAX_STATUS_RETRIES - s.queries) * (QUERY_TIMEOUT + EXTENDED_TIMEOUT)
    decreases MAX_STATUS_RETRIES - s.queries
  {
    var next := Fire(s, replies, frames);
    FireFacts(s, replies, frames);
    if next.watch.timer.Some? {
      ResolveFrom(next, replies, frames);
      OverFromSame(s, next, Resolve(next, replies, frames));
    }
  }

  // The last activity was at t.
  function Stalled(w: Watch, buf: SB.Buffer, t: int): Stall
  {
    Stall(WatchReset(w, t), buf, 0, 0, None, t)
  }

  // Main result: after the last activity, whatever the backend answers and whatever frames
  // come, a stall is over after at most three firings and two queries, within 310 seconds;
  // the stream is off and nothing is remembered. Unless the backend says that the task is
  // completed or has failed, all that was shown is committed if and only if none of it is
  // still in the buffer and it does not repeat the last message.
  lemma StallIsResolved(w: Watch, buf: SB.Buffer, t: int, replies: nat -> Reply, frames: nat -> seq<real>)
    requires w.store.isStreaming && forall k :: replies(k).took <= QUERY_TIMEOUT
    ensures var r := Resolve(Stalled(w, buf, t), replies, frames);
      var shown, ms := w.store.streaming + buf.text, w.store.messages;
      && Over(Stalled(w, buf, t), r)
      && r.firings <= 3 && r.queries <= 2 && r.time <= t + 310_000
      && (!IsBlank(shown) && !IsFinal(r.last) ==>
          (r.watch.store.messages == Added(ms, shown) <==> r.buf.text == [] && !Duplicates(ms, shown)))
      && (r.last.Some? && r.last.value.TaskCompleted? && r.last.value.content != [] ==>
          r.watch.store.messages == Commit(ms, r.last.value.content))
  {
    var s := Stalled(w, buf, t);
    var r := Resolve(s, replies, frames);
    ResolveFrom(s, replies, frames);
    if !IsBlank(ShownBy(s)) && !IsFinal(r.last) {
      FallbackCommitsIff(s, r);
    }
  }

  lemma FallbackCommitsIff(s: Stall, r: Stall)
    requires Over(s, r) && !IsBlank(ShownBy(s))
    requires !IsFinal(r.last)
    ensures var ms, shown := s.watch.store.messages, ShownBy(s);
      r.watch.store.messages == Added(ms, shown) <==> r.buf.text == [] && !Duplicates(ms, shown)
  {
    var ms, shown, moved := s.watch.store.messages, ShownBy(s), Moved(ShownBy(s), r.buf);
    CS.AddedIsNew(ms, shown);
    assert shown != [] by { assert IsBlank([]); }
    assert Added(ms, shown)[|ms|].content == shown;
    assert Added(ms, moved)[|ms|].content == moved && Added(ms, [])[|ms|].content == [];
    assert moved == shown <==> r.buf.text == [] by {
      assert |moved| + |r.buf.text| == |shown|;
    }
  }

  lemma {:induction false} AsksFrom(s: Stall, replies: nat -> Reply, frames: nat -> seq<real>)
    requires Going(s) && s.watch.activeMsg.Some? && s.watch.activeMsg.value != ""
    requires s.queries == 2 ==> s.last == Some(TaskRunning)
    ensures var r := Resolve(s, replies, frames);
      && (IsFinal(r.last) || r.queries == 2)
      && r.firings == if r.last == Some(TaskRunning) then 3 else r.queries
    decreases MAX_STATUS_RETRIES - s.queries
  {
    var next := Fire(s, replies, frames);
    FireFacts(s, replies, frames);
    WaitsIff(s.watch.(store := Framed(CS.Chat(s.watch.store, s.buf), frames(s.firings)).store),
      s.watch.timer.value, replies(s.queries));
    FramedKeeps(CS.Chat(s.watch.store, s.buf), frames(s.firings));
    if next.watch.timer.Some? { AsksFrom(next, replies, frames); }
  }

  // A task that is tracked is asked about twice unless the first answer says that it is
  // completed or has failed; one that still runs then is given a last wait.
  lemma AsksTwice(w: Watch, buf: SB.Buffer, t: int, replies: nat -> Reply, frames: nat -> seq<real>)
    requires w.store.isStreaming && w.activeMsg.Some? && w.activeMsg.value != ""
    ensures var r := Resolve(Stalled(w, buf, t), replies, frames);
      && (IsFinal(r.last) || r.queries == 2)
      && r.firings == if r.last == Some(TaskRunning) then 3 else r.queries
  {
    AsksFrom(Stalled(w, buf, t), replies, frames);
  }

  /******* Two tabs *******/

  // With no text in the buffer there is none at the end.
  lemma {:induction false} EmptyStaysEmpty(s: Stall, replies: nat -> Reply, frames: nat -> seq<real>)
    requires Going(s) && s.buf.text == []
    ensures Resolve(s, replies, frames).buf.text == []
    decreases MAX_STATUS_RETRIES - s.queries
  {
    var next := Fire(s, replies, frames);
    FireFacts(s, replies, frames);
    SBR.FramesOnEmpty(s.buf, frames(s.firings));
    if next.watch.timer.Some? { EmptyStaysEmpty(next, replies, frames); }
  }

  // A visible tab: frames at most a gap apart, for as long as the backlog needs before the
  // first firing. Then nothing shown is left behind.
  lemma VisibleTabCommitsAll(
    w: Watch, buf: SB.Buffer, t: int, replies: nat -> Reply, frames: nat -> seq<real>, prev: real, gap: real)
    requires w.store.isStreaming && gap >= 0.0 && buf.lastFlush <= prev && frames(0) != []
    requires SBR.Steady(frames(0), prev, gap)
    requires buf.text != [] ==>
      frames(0)[|frames(0)| - 1] >= SBR.Due(buf, prev) + gap
        + SBR.Turns(SBR.FlushesToDrain(buf.text) - 1, SB.FLUSH_INTERVAL_MS + gap)
    ensures Resolve(Stalled(w, buf, t), replies, frames).buf.text == []
  {
    var s, ts := Stalled(w, buf, t), frames(0);
    FireFacts(s, replies, frames);
    if buf.text == [] {
      SBR.FramesOnEmpty(buf, ts);
    } else if SBR.Frames(buf, ts).text != [] {
      SBR.DrainTime(buf, ts, prev, gap);
    }
    var next := Fire(s, replies, frames);
    if next.watch.timer.Some? { EmptyStaysEmpty(next, replies, frames); }
  }

  lemma {:induction false} NoFramesNoMove(s: Stall, replies: nat -> Reply, frames: nat -> seq<real>)
    requires Going(s) && forall k :: frames(k) == []
    ensures Resolve(s, replies, frames).buf == s.buf
    decreases MAX_STATUS_RETRIES - s.queries
  {
    var next := Fire(s, replies, frames);
    FireFacts(s, replies, frames);
    if next.watch.timer.Some? { NoFramesNoMove(next, replies, frames); }
  }

  // A hidden tab with all of the text in the buffer: unless the task is completed the stall
  // ends without a message, and the text comes into the idle store with the first due frame,
  // where it has every stream_start refused.
  lemma HiddenTabLosesText(
    w: Watch, buf: SB.Buffer, t: int, replies: nat -> Reply, frames: nat -> seq<real>, freshId: string,
    frame: CS.At, start: CS.At)
    requires w.store.isStreaming && w.store.streaming == [] && !HasTools(w.store) && buf.text != []
    requires (forall k :: replies(k).took <= QUERY_TIMEOUT) && (forall k :: frames(k) == [])
    requires frame.perf - buf.lastFlush >= SB.FLUSH_INTERVAL_MS
    ensures var r := Resolve(Stalled(w, buf, t), replies, frames);
      && (r.watch.store.messages == w.store.messages || (r.last.Some? && r.last.value.TaskCompleted?))
      && var late := CS.Handle(CS.Chat(r.watch.store, r.buf), CS.Frame, frame);
      && !late.store.isStreaming && late.store.streaming != []
      && CS.Handle(late, CS.Arrives(StreamStart, freshId), start) == late
  {
    var s := Stalled(w, buf, t);
    ResolveFrom(s, replies, frames);
    NoFramesNoMove(s, replies, frames);
    var r := Resolve(s, replies, frames);
    assert Moved([] + buf.text, buf) == [];
    assert IsBlank([]);
    CS.LeftoverComesLate(CS.Chat(r.watch.store, r.buf), freshId, frame, start);
  }

  // A backend that always says "running" after the longest wait uses all of the time.
  lemma LongestStall(w: Watch, buf: SB.Buffer, t: int)
    requires w.store.isStreaming && w.activeMsg.Some? && w.activeMsg.value != ""
    ensures var r := Resolve(Stalled(w, buf, t), _ => Reply(TaskRunning, QUERY_TIMEOUT), _ => []);
      r.time == t + 310_000 && r.firings == 3 && r.queries == 2
  {
    var replies: nat -> Reply, frames: nat -> seq<real> := _ => Reply(TaskRunning, QUERY_TIMEOUT), _ => [];
    var s0 := Stalled(w, buf, t);
    var s1 := Fire(s0, replies, frames);
    var s2 := Fire(s1, replies, frames);
    assert Resolve(s0, replies, frames) == Resolve(s1, replies, frames) == Resolve(s2, replies, frames);
  }
}

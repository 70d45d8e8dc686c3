/** The streaming half of useChatStore: chunks go through the filter into the buffer, frames
    move them to the store, and closing events commit what has been streamed. */
module ChatStream {
  import opened Text
  import SF = StreamFilter
  import SB = StreamBuffer
  import opened EventReducer
  import opened Wrappers

  // The store and the buffer between them hold the text of the running stream.
  datatype Chat = Chat(store: Store, buf: SB.Buffer)

  datatype Input =
    | Arrives(event: Event, freshId: string) // an event from the socket or from polling
    | Step(id: string, title: string)
    | RecoveryRuns                   // task_recovery of a running task
    | ClearError
    | CancelConfirmed
    | Note(content: Text)            // subagent_event, or recovery_status reconnected
    | Announced(content: Text)       // announce_message, and every later try to deliver it
    | Refreshed(messages: seq<Message>) // refreshMessages is back; what it leaves in the list
    | Sends(content: Text)           // sendMessage
    | Frame                          // the buffer's animation frame

  // The two clocks the code reads: Date.now() and performance.now().
  datatype At = At(now: int, perf: real)

  predicate IsHeartbeat(content: Text)
  {
    Contains(content, Lit("HEARTBEAT_OK")) || Contains(content, Lit("[HEARTBEAT]"))
  }

  // Heartbeats are dropped before any handling, final texts included.
  predicate Dropped(e: Event)
  {
    match e
    case StreamChunk(content) => IsHeartbeat(content)
    case Thinking(content) => IsHeartbeat(content)
    case StreamEnd(content, _, _) => IsHeartbeat(content)
    case _ => false
  }

  predicate Refuses(s: Store, now: int)
  {
    (now - s.lastStreamEndAt < STREAM_START_COOLDOWN_MS && !s.isStreaming) || s.streaming != []
  }

  function Append(s: Store, batch: Text): Store
  {
    s.(streaming := s.streaming + batch)
  }

  // Everything waiting in the buffer goes to the store.
  function Flushed(c: Chat): Chat
  {
    var (b, rest) := SB.FlushAll(c.buf);
    Chat(Append(c.store, rest), b)
  }

  function Reacted(c: Chat, e: Event, at: At, freshId: string): Chat
  {
    c.(store := React(c.store, e, at.now, freshId))
  }

  const ANNOUNCE_MIN := 3

  function WithMessage(c: Chat, m: Message): Chat
  {
    c.(store := c.store.(messages := c.store.messages + [m]))
  }

  function Handle(c: Chat, i: Input, at: At): Chat
  {
    match i
    case Frame =>
      var (b, batch) := SB.FlushLoop(c.buf, at.perf);
      Chat(Append(c.store, batch), b)
    case Step(id, title) =>
      if id == "" || title == "" then c
      else c.(store := c.store.(isStreaming := true, steps := c.store.steps + [id]))
    case RecoveryRuns => c.(store := c.store.(isStreaming := true))
    case Note(content) => WithMessage(c, Message(System, content))
    case Announced(content) =>
      if |Trim(content)| < ANNOUNCE_MIN || c.store.isStreaming then c else WithMessage(c, Message(Assistant, content))
    case Refreshed(messages) => c.(store := c.store.(messages := messages))
    case Sends(content) => c.(store := Sent(c.store, content))
    case ClearError => c.(store := c.store.(isStreaming := true, error := None))
    case CancelConfirmed => c.(store := ApplyOne(Flushed(c).store, ClearStreaming, at.now), buf := Flushed(c).buf)
    case Arrives(e, freshId) =>
      if Dropped(e) then c
      else
        match e
        case StreamStart =>
          if Refuses(c.store, at.now) then c
          else Chat(React(c.store, e, at.now, freshId), SB.Reset(c.buf))
        case StreamChunk(content) =>
          var filtered := SF.Filtered(content);
          if filtered == [] then c else c.(buf := SB.Push(c.buf, filtered, at.perf))
        case StreamEnd(_, synthetic, _) =>
          if synthetic && !c.store.isStreaming then c else Reacted(Flushed(c), e, at, freshId)
        case Status(idle) =>
          if idle && c.store.isStreaming then Reacted(Flushed(c), e, at, freshId) else c
        case Error(_) => Reacted(c, e, at, freshId)
        case TaskTimeout => Reacted(c, e, at, freshId)
        case ToolProgress(id, _, _) => if id == "" then c else Reacted(c, e, at, freshId)
        case ToolEnd(id, _, _) => if id == "" then c else Reacted(c, e, at, freshId)
        case ToolStart(_, tool, _) => if tool == "" then c else Reacted(c, e, at, freshId)
        case TimeoutWarning(note) => c.(store := ApplyOne(c.store, AppendThinking(note), at.now))
        case Other => c
        case _ => Reacted(c, e, at, freshId)
  }

  class ChatStore {
    const store: MessageStore
    const buffer: SB.StreamBuffer

    ghost function State(): Chat
      reads store, buffer
    {
      Chat(store.state, buffer.State())
    }

    constructor (s: Store)
      ensures fresh(store) && fresh(buffer) && State() == Chat(s, SB.Idle)
    {
      store := new MessageStore(s);
      buffer := new SB.StreamBuffer();
    }

    method OnFrame(at: At)
      modifies store, buffer
      ensures State() == Handle(old(State()), Frame, at)
    {
      var batch := buffer.OnFrame(at.perf);
      store.AppendStream(batch);
    }

    method FlushBuffer()
      modifies store, buffer
      ensures State() == Flushed(old(State()))
    {
      var rest := buffer.Drain();
      store.AppendStream(rest);
    }

    method Reduced(e: Event, at: At, freshId: string)
      modifies store
      ensures State() == Reacted(old(State()), e, at, freshId)
    {
      store.ApplyMutations(Reduce(store.state, e, at.now, freshId), at.now);
    }

    method OnStreamStart(at: At, freshId: string)
      modifies store, buffer
      ensures State() == Handle(old(State()), Arrives(StreamStart, freshId), at)
    {
      if at.now - store.state.lastStreamEndAt < STREAM_START_COOLDOWN_MS && !store.state.isStreaming {
        return;
      }
      if store.state.streaming != [] {
        return;
      }
      Reduced(StreamStart, at, freshId);
      buffer.Clear();
    }

    method OnStreamChunk(content: Text, at: At, freshId: string)
      requires !IsHeartbeat(content)
      modifies buffer
      ensures State() == Handle(old(State()), Arrives(StreamChunk(content), freshId), at)
    {
      if content != [] {
        var filtered := SF.Filter(content);
        if filtered != [] {
          buffer.Append(filtered, at.perf);
        }
      } else {
        EmptyChunk();
      }
    }

    method OnStreamEnd(e: Event, at: At, freshId: string)
      requires e.StreamEnd? && !Dropped(e)
      modifies store, buffer
      ensures State() == Handle(old(State()), Arrives(e, freshId), at)
    {
      if e.synthetic && !store.state.isStreaming {
        return;
      }
      FlushBuffer();
      Reduced(e, at, freshId);
    }

    method OnStatus(e: Event, at: At, freshId: string)
      requires e.Status?
      modifies store, buffer
      ensures State() == Handle(old(State()), Arrives(e, freshId), at)
    {
      if e.idle && store.state.isStreaming {
        FlushBuffer();
        Reduced(e, at, freshId);
      }
    }

    method OnCancelConfirmed(at: At)
      modifies store, buffer
      ensures State() == Handle(old(State()), CancelConfirmed, at)
    {
      FlushBuffer();
      var s := store.state;
      store.ApplyMutations([ClearStreaming], at.now);
      ApplyTwo(s, ClearStreaming, ClearStreaming, at.now);
    }

    method OnStep(id: string, title: string, at: At)
      modifies store
      ensures State() == Handle(old(State()), Step(id, title), at)
    {
      if id != "" && title != "" {
        if !store.state.isStreaming {
          store.SetStreaming(true, true);
        }
        store.AddStep(id);
      }
    }

    method OnAnnounced(content: Text, at: At)
      modifies store
      ensures State() == Handle(old(State()), Announced(content), at)
    {
      if content == [] || |Trim(content)| < ANNOUNCE_MIN || store.state.isStreaming { return; }
      store.AddMessage(Message(Assistant, content));
    }

    method Send(content: Text, at: At)
      modifies store
      ensures State() == Handle(old(State()), Sends(content), at)
    {
      store.SendMessage(content);
    }

    // The events whose state changes the reducer decides.
    method OnEvent(e: Event, at: At, freshId: string)
      modifies store, buffer
      ensures State() == Handle(old(State()), Arrives(e, freshId), at)
    {
      if Dropped(e) { return; }
      match e {
        case StreamStart => OnStreamStart(at, freshId);
        case StreamChunk(content) => OnStreamChunk(content, at, freshId);
        case StreamEnd(_, _, _) => OnStreamEnd(e, at, freshId);
        case Status(_) => OnStatus(e, at, freshId);
        case TimeoutWarning(note) =>
          var s := store.state;
          store.ApplyMutations([AppendThinking(note)], at.now);
          ApplyTwo(s, AppendThinking(note), Nothing, at.now);
        case ToolProgress(id, _, _) => if id != "" { Reduced(e, at, freshId); }
        case ToolEnd(id, _, _) => if id != "" { Reduced(e, at, freshId); }
        case ToolStart(_, tool, _) => if tool != "" { Reduced(e, at, freshId); }
        case Other =>
        case _ => Reduced(e, at, freshId);
      }
    }

    // handleWsEvent: whatever comes from the socket or from polling.
    method HandleWsEvent(i: Input, at: At)
      requires !i.Frame? && !i.Sends? && !i.Refreshed?
      modifies store, buffer
      ensures State() == Handle(old(State()), i, at)
    {
      match i {
        case Arrives(e, freshId) => OnEvent(e, at, freshId);
        case Step(id, title) => OnStep(id, title, at);
        case RecoveryRuns => store.SetStreaming(true, true);
        case ClearError =>
          store.ClearError();
          store.SetStreaming(true, true);
        case CancelConfirmed => OnCancelConfirmed(at);
        case Note(content) => store.AddMessage(Message(System, content));
        case Announced(content) => OnAnnounced(content, at);
      }
    }

    // The socket closes with code 1012 or 1013: a synthetic stream_end, then status idle.
    method OnServerRestart(at: At, freshId: string)
      modifies store, buffer
      ensures State() == Restarted(old(State()), at, freshId)
    {
      EmptyIsNoHeartbeat();
      OnStreamEnd(SyntheticEnd, at, freshId);
      OnStatus(Status(true), at, freshId);
    }
  }

  const SyntheticEnd: Event := StreamEnd([], true, [])

  function Restarted(c: Chat, at: At, freshId: string): Chat
  {
    Handle(Handle(c, Arrives(SyntheticEnd, freshId), at), Arrives(Status(true), freshId), at)
  }

  lemma EmptyIsNoHeartbeat()
    ensures !IsHeartbeat([])
  {
  }

  lemma EmptyChunk()
    ensures SF.Filtered([]) == []
  {
    SF.FilterOneLine([]);
  }

  /******* What a run shows *******/

  // What one input adds to the text of the stream.
  function ShownBy(i: Input): Text
  {
    if i.Arrives? && i.event.StreamChunk? && !Dropped(i.event) then SF.Filtered(i.event.content) else []
  }

  function Shown(inputs: seq<Input>): Text
  {
    if inputs == [] then [] else ShownBy(inputs[0]) + Shown(inputs[1..])
  }

  // What one input during a stream does to the list of messages, and what a run of them does.
  function MessagesBy(ms: seq<Message>, i: Input): seq<Message>
  {
    match i
    case Note(content) => ms + [Message(System, content)]
    case Refreshed(messages) => messages
    case _ => ms
  }

  function MessagesAfter(ms: seq<Message>, inputs: seq<Input>): seq<Message>
    decreases inputs
  {
    if inputs == [] then ms else MessagesAfter(MessagesBy(ms, inputs[0]), inputs[1..])
  }

  function HandleAll(c: Chat, inputs: seq<Input>, ats: seq<At>): Chat
    requires |inputs| == |ats|
    decreases inputs
  {
    if inputs == [] then c else HandleAll(Handle(c, inputs[0], ats[0]), inputs[1..], ats[1..])
  }

  // Not yet committed: in the store or still in the buffer.
  function Pending(c: Chat): Text
  {
    c.store.streaming + c.buf.text
  }

  // An input that neither closes the stream nor cancels it. A heartbeat closes nothing.
  predicate GoesOn(i: Input)
  {
    && !i.CancelConfirmed? && !i.Sends?
    && (i.Arrives? ==> !Closes(i.event) || Dropped(i.event))
  }

  // A stream_start that would be accepted while all of the text is still in the buffer.
  predicate Interrupts(c: Chat, i: Input, at: At)
  {
    i.Arrives? && i.event.StreamStart? && !Refuses(c.store, at.now) && c.buf.text != []
  }

  ghost predicate Undisturbed(c: Chat, inputs: seq<Input>, ats: seq<At>)
    requires |inputs| == |ats|
    decreases inputs
  {
    inputs == [] ||
    (&& GoesOn(inputs[0]) && !Interrupts(c, inputs[0], ats[0])
     && Undisturbed(Handle(c, inputs[0], ats[0]), inputs[1..], ats[1..]))
  }

  lemma {:induction false} KeepsStreaming(s: Store, ms: seq<Mutation>, now: int)
    requires s.isStreaming && forall i :: 0 <= i < |ms| ==> Keeps(ms[i]) && (ms[i].SetStreaming? ==> ms[i].on)
    ensures Apply(s, ms, now).isStreaming
  {
    if ms != [] { KeepsStreaming(s, ms[..|ms| - 1], now); }
  }

  lemma ReactGoesOn(s: Store, e: Event, now: int, freshId: string)
    requires s.isStreaming && !Closes(e) && !e.StreamStart?
    ensures var after := React(s, e, now, freshId);
      after.isStreaming && after.streaming == s.streaming && after.messages == s.messages
  {
    OthersKeep(s, e, now, freshId);
    KeepsStreaming(s, Reduce(s, e, now, freshId), now);
  }

  lemma FrameMoves(c: Chat, at: At)
    ensures Pending(Handle(c, Frame, at)) == Pending(c)
  {
  }

  lemma StartOnEmpty(c: Chat, at: At, freshId: string)
    requires !Refuses(c.store, at.now)
    ensures var after := Handle(c, Arrives(StreamStart, freshId), at);
      && after.store.isStreaming && Pending(after) == [] && after.store.messages == c.store.messages
  {
    ApplyTwo(c.store, SetStreaming(true, false), Nothing, at.now);
  }

  lemma InputGoesOn(c: Chat, i: Input, at: At)
    requires c.store.isStreaming && GoesOn(i) && !Interrupts(c, i, at)
    ensures var after := Handle(c, i, at);
      && after.store.isStreaming
      && after.store.messages == MessagesBy(c.store.messages, i)
      && Pending(after) == Pending(c) + ShownBy(i)
      && (c.store.streaming != [] ==> after.store.streaming != [])
  {
    assert Pending(c) + [] == Pending(c);
    match i {
      case Frame => FrameMoves(c, at);
      case Arrives(e, freshId) =>
        if !Dropped(e) {
          if e.StreamChunk? {
            assert c.store.streaming + (c.buf.text + ShownBy(i)) == Pending(c) + ShownBy(i);
          } else if e.StreamStart? {
            if !Refuses(c.store, at.now) { StartOnEmpty(c, at, freshId); }
          } else {
            ReactGoesOn(c.store, e, at.now, freshId);
          }
        }
      case _ =>
    }
  }

  lemma Regroup(a: Text, b: Text, c: Text)
    ensures (a + b) + c == a + (b + c)
  {
  }

  lemma {:induction false} RunGoesOn(c: Chat, inputs: seq<Input>, ats: seq<At>)
    requires |inputs| == |ats| && c.store.isStreaming && Undisturbed(c, inputs, ats)
    ensures var after := HandleAll(c, inputs, ats);
      && after.store.isStreaming
      && after.store.messages == MessagesAfter(c.store.messages, inputs)
      && Pending(after) == Pending(c) + Shown(inputs)
      && (c.store.streaming != [] ==> after.store.streaming != [])
    decreases inputs
  {
    if inputs == [] {
      assert Pending(c) + [] == Pending(c);
    } else {
      var d := Handle(c, inputs[0], ats[0]);
      InputGoesOn(c, inputs[0], ats[0]);
      RunGoesOn(d, inputs[1..], ats[1..]);
      Regroup(Pending(c), ShownBy(inputs[0]), Shown(inputs[1..]));
    }
  }

  predicate AllGoOn(inputs: seq<Input>)
  {
    forall i :: 0 <= i < |inputs| ==> GoesOn(inputs[i])
  }

  // Text in the store shields the stream: no stream_start can reset it.
  lemma {:induction false} ShownTextShields(d: Chat, inputs: seq<Input>, ats: seq<At>)
    requires |inputs| == |ats| && d.store.isStreaming && d.store.streaming != [] && AllGoOn(inputs)
    ensures Undisturbed(d, inputs, ats)
    decreases inputs
  {
    if inputs != [] {
      InputGoesOn(d, inputs[0], ats[0]);
      ShownTextShields(Handle(d, inputs[0], ats[0]), inputs[1..], ats[1..]);
    }
  }

  /******* End to end *******/

  // A chat in which a stream_start was accepted and the inputs after it have arrived.
  function Streamed(c: Chat, start: At, freshId: string, inputs: seq<Input>, ats: seq<At>): Chat
    requires |inputs| == |ats|
  {
    HandleAll(Handle(c, Arrives(StreamStart, freshId), start), inputs, ats)
  }

  ghost predicate StreamOf(c: Chat, start: At, freshId: string, inputs: seq<Input>, ats: seq<At>)
  {
    && |inputs| == |ats|
    && !Refuses(c.store, start.now)
    && Undisturbed(Handle(c, Arrives(StreamStart, freshId), start), inputs, ats)
  }

  lemma StreamHolds(c: Chat, start: At, freshId: string, inputs: seq<Input>, ats: seq<At>)
    requires StreamOf(c, start, freshId, inputs, ats)
    ensures var d := Streamed(c, start, freshId, inputs, ats);
      && d.store.isStreaming && Pending(d) == Shown(inputs)
      && d.store.messages == MessagesAfter(c.store.messages, inputs)
      && Flushed(d).store.streaming == Shown(inputs) && Flushed(d).buf.text == []
  {
    StartOnEmpty(c, start, freshId);
    RunGoesOn(Handle(c, Arrives(StreamStart, freshId), start), inputs, ats);
    assert [] + Shown(inputs) == Shown(inputs);
  }

  // A stream_start while the stream is already on, and what follows. Text in the store turns
  // it down; with none there it is accepted and the buffer reset.
  ghost predicate StartDuring(d: Chat, start: At, freshId: string, inputs: seq<Input>, ats: seq<At>)
  {
    && d.store.isStreaming && |inputs| == |ats| && AllGoOn(inputs)
    && (d.store.streaming == [] ==> Undisturbed(Handle(d, Arrives(StreamStart, freshId), start), inputs, ats))
  }

  // The text in front of what such a stream shows.
  function LeftBy(d: Chat): Text
  {
    if d.store.streaming == [] then [] else Pending(d)
  }

  lemma StartDuringHolds(d: Chat, start: At, freshId: string, inputs: seq<Input>, ats: seq<At>)
    requires StartDuring(d, start, freshId, inputs, ats)
    ensures var r := Streamed(d, start, freshId, inputs, ats);
      && r.store.isStreaming && r.store.messages == MessagesAfter(d.store.messages, inputs)
      && Pending(r) == LeftBy(d) + Shown(inputs)
      && Flushed(r).store.streaming == LeftBy(d) + Shown(inputs) && Flushed(r).store.messages == r.store.messages
  {
    var e := Handle(d, Arrives(StreamStart, freshId), start);
    if d.store.streaming == [] {
      StartOnEmpty(d, start, freshId);
    } else {
      ShownTextShields(e, inputs, ats);
    }
    RunGoesOn(e, inputs, ats);
  }

  // The server's text against the text shown, when that ends with all of it.
  lemma LongerWins(left: Text, shown: Text, thinking: Text)
    requires shown != []
    ensures FinalContent(shown, left + shown, thinking) == left + shown
    ensures left + shown == shown <==> left == []
  {
    assert [] + shown == shown;
  }

  // Main result: after an accepted stream_start, whatever chunks, frames and other events
  // follow in whatever order, stream_end commits the longer of the server's text and
  // everything shown, text still in the buffer included, behind whatever messages have come
  // meanwhile, unless it repeats the last of them; and it leaves nothing behind.
  lemma EndToEnd(c: Chat, start: At, freshId: string, inputs: seq<Input>, ats: seq<At>, end: Event, at: At)
    requires StreamOf(c, start, freshId, inputs, ats) && end.StreamEnd? && !Dropped(end)
    ensures var d := Streamed(c, start, freshId, inputs, ats);
      var after := Handle(d, Arrives(end, freshId), at);
      var ms, shown, server := MessagesAfter(c.store.messages, inputs), Shown(inputs), end.content;
      && CommitsLonger(ms, after.store.messages, server, shown, d.store.thinking)
      && (server != [] && |server| >= |shown| ==>
          (after.store.messages == Added(ms, server) <==> !Duplicates(ms, server)))
      && (|shown| > |server| ==> (after.store.messages == Added(ms, shown) <==> !Duplicates(ms, shown)))
      && !after.store.isStreaming && Pending(after) == [] && !after.buf.frame
  {
    StreamHolds(c, start, freshId, inputs, ats);
    StreamEndCommits(Flushed(Streamed(c, start, freshId, inputs, ats)).store, end, at.now, freshId);
    AddedIsNew(MessagesAfter(c.store.messages, inputs), end.content);
    AddedIsNew(MessagesAfter(c.store.messages, inputs), Shown(inputs));
  }

  // The thinking that an accepted stream_start leaves empty gathers in order.
  function Thoughts(inputs: seq<Input>): Text
  {
    if inputs == [] then [] else ThoughtBy(inputs[0]) + Thoughts(inputs[1..])
  }

  function ThoughtBy(i: Input): Text
  {
    if i.Arrives? && i.event.Thinking? && !Dropped(i.event) then i.event.content
    else if i.Arrives? && i.event.TimeoutWarning? then i.event.note
    else []
  }

  predicate IsStart(i: Input)
  {
    i.Arrives? && i.event.StreamStart?
  }

  lemma ThoughtStep(c: Chat, i: Input, at: At)
    requires GoesOn(i) && !IsStart(i)
    ensures Handle(c, i, at).store.thinking == c.store.thinking + ThoughtBy(i)
  {
    assert c.store.thinking + [] == c.store.thinking;
    if i.Arrives? && !Dropped(i.event) {
      ThinkingGrows(c.store, i.event, at.now, i.freshId);
    }
  }

  lemma {:induction false} ThinkingGathers(c: Chat, inputs: seq<Input>, ats: seq<At>)
    requires |inputs| == |ats| && forall i :: 0 <= i < |inputs| ==> GoesOn(inputs[i]) && !IsStart(inputs[i])
    ensures HandleAll(c, inputs, ats).store.thinking == c.store.thinking + Thoughts(inputs)
    decreases inputs
  {
    if inputs == [] {
      assert c.store.thinking + [] == c.store.thinking;
    } else {
      ThoughtStep(c, inputs[0], ats[0]);
      ThinkingGathers(Handle(c, inputs[0], ats[0]), inputs[1..], ats[1..]);
      Regroup(c.store.thinking, ThoughtBy(inputs[0]), Thoughts(inputs[1..]));
    }
  }

  // With no text from either side, the thinking is what is committed.
  lemma ThinkingIsCommitted(c: Chat, start: At, freshId: string, inputs: seq<Input>, ats: seq<At>, end: Event, at: At)
    requires StreamOf(c, start, freshId, inputs, ats) && end.StreamEnd? && !Dropped(end)
    requires Shown(inputs) == [] && end.content == []
    requires forall i :: 0 <= i < |inputs| ==> GoesOn(inputs[i]) && !IsStart(inputs[i])
    ensures Handle(Streamed(c, start, freshId, inputs, ats), Arrives(end, freshId), at).store.messages
      == Commit(MessagesAfter(c.store.messages, inputs), Thoughts(inputs))
  {
    EndToEnd(c, start, freshId, inputs, ats, end, at);
    var e := Handle(c, Arrives(StreamStart, freshId), start);
    ApplyTwo(c.store, SetStreaming(true, false), Nothing, start.now);
    ThinkingGathers(e, inputs, ats);
    assert [] + Thoughts(inputs) == Thoughts(inputs);
  }

  lemma AddedIsNew(ms: seq<Message>, content: Text)
    ensures ms != Added(ms, content)
  {
  }

  // A server restart during a stream commits everything shown in the same way, and the
  // status idle that follows at once changes no message.
  lemma RestartCommits(c: Chat, start: At, freshId: string, inputs: seq<Input>, ats: seq<At>, at: At)
    requires StreamOf(c, start, freshId, inputs, ats)
    ensures var d := Streamed(c, start, freshId, inputs, ats);
      var after := Restarted(d, at, freshId);
      && after.store.messages == Commit(MessagesAfter(c.store.messages, inputs),
           if Shown(inputs) == [] then d.store.thinking else Shown(inputs))
      && !after.store.isStreaming && Pending(after) == []
  {
    EmptyIsNoHeartbeat();
    EndToEnd(c, start, freshId, inputs, ats, SyntheticEnd, at);
  }

  // Where the duplicate test loses text: the last message is a text of more than 50
  // characters and the stream shows it again and goes on. No message is added, and the
  // continuation is nowhere.
  lemma ResentTextIsDropped(
    c: Chat, start: At, freshId: string, inputs: seq<Input>, ats: seq<At>, end: Event, at: At,
    messages: seq<Message>, shown: Text, tail: Text)
    requires StreamOf(c, start, freshId, inputs, ats) && end.StreamEnd? && !Dropped(end)
    requires MessagesAfter(c.store.messages, inputs) == Added(messages, shown)
    requires |shown| > DUPLICATE_MIN && tail != [] && Shown(inputs) == shown + tail
    requires end.content == [] || end.content == Shown(inputs)
    ensures var after := Handle(Streamed(c, start, freshId, inputs, ats), Arrives(end, freshId), at);
      && after.store.messages == Added(messages, shown) && !Holds(after.store.messages, Shown(inputs))
      && Pending(after) == []
  {
    EndToEnd(c, start, freshId, inputs, ats, end, at);
    LongerTextIsDropped(messages, shown, tail);
  }

  // So a restarted server that sends the whole answer again loses all but what had been
  // shown before the restart.
  lemma RestartThenWholeIsDropped(
    c: Chat, start: At, freshId: string, inputs: seq<Input>, ats: seq<At>, at: At,
    again: At, inputs2: seq<Input>, ats2: seq<At>, end: Event, at2: At, tail: Text)
    requires StreamOf(c, start, freshId, inputs, ats) && |Shown(inputs)| > DUPLICATE_MIN
    requires !Duplicates(MessagesAfter(c.store.messages, inputs), Shown(inputs))
    requires var r := Restarted(Streamed(c, start, freshId, inputs, ats), at, freshId);
      StreamOf(r, again, freshId, inputs2, ats2) && MessagesAfter(r.store.messages, inputs2) == r.store.messages
    requires tail != [] && Shown(inputs2) == Shown(inputs) + tail
    requires end.StreamEnd? && !Dropped(end) && end.content == Shown(inputs2)
    ensures var r := Restarted(Streamed(c, start, freshId, inputs, ats), at, freshId);
      var after := Handle(Streamed(r, again, freshId, inputs2, ats2), Arrives(end, freshId), at2);
      && after.store.messages == Added(MessagesAfter(c.store.messages, inputs), Shown(inputs))
      && !Holds(after.store.messages, end.content)
  {
    RestartCommits(c, start, freshId, inputs, ats, at);
    ResentTextIsDropped(Restarted(Streamed(c, start, freshId, inputs, ats), at, freshId), again, freshId, inputs2, ats2,
      end, at2, MessagesAfter(c.store.messages, inputs), Shown(inputs), tail);
  }

  /******* Heartbeats *******/

  // A chunk reaches the buffer, filtered, unless one of the two marks stands in it.
  lemma ChunkIsBuffered(c: Chat, content: Text, freshId: string, at: At)
    ensures var beat := Occurs(Lit("HEARTBEAT_OK"), content) || Occurs(Lit("[HEARTBEAT]"), content);
      var after := Handle(c, Arrives(StreamChunk(content), freshId), at);
      && after.store == c.store
      && after.buf.text == c.buf.text + if beat then [] else SF.Filtered(content)
  {
    ContainsIff(content, Lit("HEARTBEAT_OK"));
    ContainsIff(content, Lit("[HEARTBEAT]"));
    assert c.buf.text + [] == c.buf.text;
  }

  // The other events that a mark keeps from being handled at all, and those it does not.
  lemma HeartbeatIsDropped(c: Chat, content: Text, synthetic: bool, freshId: string, at: At)
    requires Occurs(Lit("HEARTBEAT_OK"), content) || Occurs(Lit("[HEARTBEAT]"), content)
    ensures Handle(c, Arrives(StreamEnd(content, synthetic, []), freshId), at) == c
    ensures Handle(c, Arrives(Event.Thinking(content), freshId), at) == c
  {
    ContainsIff(content, Lit("HEARTBEAT_OK"));
    ContainsIff(content, Lit("[HEARTBEAT]"));
  }

  /******* On and off *******/

  // Outside a stream exactly these inputs turn one on; a stream_start does two seconds after
  // the last end, and with no text left over.
  lemma TurnsOnIff(c: Chat, i: Input, at: At)
    requires !c.store.isStreaming
    ensures Handle(c, i, at).store.isStreaming <==>
      match i
      case Step(id, title) => id != "" && title != ""
      case RecoveryRuns => true
      case ClearError => true
      case Sends(_) => true
      case Arrives(StreamStart, _) => c.store.streaming == [] && at.now >= c.store.lastStreamEndAt + 2000
      case Arrives(ToolStart(_, tool, _), _) => tool != ""
      case _ => false
  {
    if i.Arrives? {
      EventTurnsOnIff(c.store, i.event, at.now, i.freshId);
      EventTurnsOnIff(Flushed(c).store, i.event, at.now, i.freshId);
    }
  }

  lemma EventTurnsOnIff(s: Store, e: Event, now: int, freshId: string)
    requires !s.isStreaming
    ensures React(s, e, now, freshId).isStreaming <==>
      match e
      case StreamStart => s.streaming == [] && now >= s.lastStreamEndAt + 2000
      case ToolStart(_, tool, _) => tool != ""
      case _ => false
  {
    if e.ToolStart? && e.tool != "" {
      ToolStarts(s, e.id, e.tool, e.args, now, freshId);
    } else if Reduce(s, e, now, freshId) != [] {
      ApplyFew(s, Reduce(s, e, now, freshId), now);
    }
  }

  // During a stream exactly these turn it off.
  lemma TurnsOffIff(c: Chat, i: Input, at: At)
    requires c.store.isStreaming
    ensures !Handle(c, i, at).store.isStreaming <==>
      i.CancelConfirmed? || (i.Arrives? && Closes(i.event) && !Dropped(i.event))
  {
    if i.Arrives? && !Dropped(i.event) {
      if Closes(i.event) {
        ClosingTurnsOff(Flushed(c).store, i.event, at.now, i.freshId);
        ClosingTurnsOff(c.store, i.event, at.now, i.freshId);
      } else if i.event.StreamStart? {
        ApplyTwo(c.store, SetStreaming(true, false), Nothing, at.now);
      } else {
        ReactGoesOn(c.store, i.event, at.now, i.freshId);
      }
    }
  }

  // A cancellation commits nothing and leaves nothing of the stream.
  lemma CancelEmpties(c: Chat, at: At)
    ensures var after := Handle(c, CancelConfirmed, at);
      && after.store.messages == c.store.messages && Pending(after) == []
      && after.store.thinking == [] && after.store.tools == [] && after.store.steps == [] && after.store.plan == None
      && after.store.lastStreamEndAt == c.store.lastStreamEndAt
  {
  }

  // A step with an id and a title is listed; a cleared error is gone; neither changes what is
  // shown.
  lemma StepIsListed(c: Chat, id: string, title: string, at: At)
    ensures var after := Handle(c, Step(id, title), at);
      && (id != "" && title != "" ==> after.store.steps == c.store.steps + [id])
      && (id == "" || title == "" ==> after == c)
      && Pending(after) == Pending(c) && after.store.messages == c.store.messages
    ensures Handle(c, ClearError, at).store.error == None && Pending(Handle(c, ClearError, at)) == Pending(c)
  {
  }

  // An announcement of three characters or more, white space around it aside, becomes the
  // assistant's message as it is, unless a stream is on; then nothing happens.
  lemma AnnouncedIff(c: Chat, content: Text, at: At)
    ensures var after := Handle(c, Announced(content), at);
      if |Trim(content)| >= 3 && !c.store.isStreaming then
        && after.store.messages == c.store.messages + [Message(Assistant, content)]
        && !after.store.isStreaming && Pending(after) == Pending(c)
      else after == c
  {
  }

  /******* A tool's course *******/

  // What an event does to the call of the tool that it names.
  function ToolBy(t: ToolCall, i: Input): ToolCall
  {
    match i
    case Arrives(ToolProgress(id, tool, partial), _) =>
      var kept := (t.tool == "exec" || tool == "exec") && partial != [];
      if id != t.id then t
      else t.(progress := partial, history := if kept then t.history + [partial] else t.history)
    case Arrives(ToolEnd(id, success, result), _) =>
      if id != t.id then t else t.(status := if success then Completed else Failed, result := result)
    case Arrives(ToolResult(id, failed, result), _) =>
      if id != t.id then t else t.(status := if failed then Failed else Completed, result := result)
    case _ => t
  }

  function ToolAfter(t: ToolCall, inputs: seq<Input>): ToolCall
    decreases inputs
  {
    if inputs == [] then t else ToolAfter(ToolBy(t, inputs[0]), inputs[1..])
  }

  lemma {:induction false} FoundById(tools: seq<ToolCall>, id: string)
    ensures var t := FindTool(tools, id);
      if t.Some? then t.value.id == id else forall i :: 0 <= i < |tools| ==> tools[i].id != id
  {
    if tools != [] && tools[0].id != id { FoundById(tools[1..], id); }
  }

  lemma {:induction false} FoundFirst(tools: seq<ToolCall>, more: seq<ToolCall>, id: string)
    ensures FindTool(tools + more, id) == if FindTool(tools, id).Some? then FindTool(tools, id) else FindTool(more, id)
  {
    if tools == [] {
      assert tools + more == more;
    } else {
      assert (tools + more)[1..] == tools[1..] + more;
      FoundFirst(tools[1..], more, id);
    }
  }

  lemma {:induction false} OtherToolStays(s: Store, id: string, other: string, u: ToolUpdate, now: int)
    requires other != id
    ensures FindTool(ApplyOne(s, UpdateToolCall(other, u), now).tools, id) == FindTool(s.tools, id)
    decreases s.tools
  {
    var after := ApplyOne(s, UpdateToolCall(other, u), now).tools;
    if s.tools != [] {
      var rest := s.(tools := s.tools[1..]);
      OtherToolStays(rest, id, other, u, now);
      assert after[1..] == ApplyOne(rest, UpdateToolCall(other, u), now).tools;
    }
  }

  // The events that end a tool or tell how far it is.
  predicate IsToolUpdate(e: Event)
  {
    e.ToolProgress? || e.ToolEnd? || e.ToolResult?
  }

  lemma UpdateFollows(s: Store, e: Event, id: string, now: int, freshId: string)
    requires IsToolUpdate(e) && id != "" && FindTool(s.tools, id).Some?
    ensures FindTool(React(s, e, now, freshId).tools, id)
      == Some(ToolBy(FindTool(s.tools, id).value, Arrives(e, freshId)))
  {
    FoundById(s.tools, id);
    if e.id != id {
      var m := Reduce(s, e, now, freshId)[0];
      ApplyTwo(s, m, Nothing, now);
      if e.id != "" { OtherToolStays(s, id, e.id, m.update, now); }
    } else {
      match e {
        case ToolProgress(_, tool, partial) => ProgressIsShown(s, id, tool, partial, now, freshId);
        case ToolEnd(_, success, result) => ToolEndsAs(s, id, success, result, now, freshId);
        case ToolResult(_, failed, result) => ToolEndsAs(s, id, !failed, result, now, freshId);
      }
    }
  }

  lemma {:induction false} ToolsStay(s: Store, ms: seq<Mutation>, now: int)
    requires forall i :: 0 <= i < |ms| ==> Keeps(ms[i]) && !ms[i].AddToolCall? && !ms[i].UpdateToolCall?
    ensures Apply(s, ms, now).tools == s.tools
  {
    if ms != [] { ToolsStay(s, ms[..|ms| - 1], now); }
  }

  lemma EventFollows(s: Store, e: Event, id: string, now: int, freshId: string)
    requires !Closes(e) && !e.StreamStart? && id != "" && FindTool(s.tools, id).Some?
    ensures FindTool(React(s, e, now, freshId).tools, id)
      == Some(ToolBy(FindTool(s.tools, id).value, Arrives(e, freshId)))
  {
    if IsToolUpdate(e) {
      UpdateFollows(s, e, id, now, freshId);
    } else if e.ToolStart? && e.tool != "" {
      ToolStarts(s, e.id, e.tool, e.args, now, freshId);
      var after := React(s, e, now, freshId).tools;
      FoundFirst(s.tools, [after[|s.tools|]], id);
    } else {
      ToolsStay(s, Reduce(s, e, now, freshId), now);
    }
  }

  lemma InputFollows(c: Chat, i: Input, id: string, at: At)
    requires GoesOn(i) && !IsStart(i) && id != "" && FindTool(c.store.tools, id).Some?
    ensures FindTool(Handle(c, i, at).store.tools, id) == Some(ToolBy(FindTool(c.store.tools, id).value, i))
  {
    if i.Arrives? && !Dropped(i.event) {
      EventFollows(c.store, i.event, id, at.now, i.freshId);
      FoundById(c.store.tools, id);
    }
  }

  lemma {:induction false} ToolFollows(c: Chat, inputs: seq<Input>, ats: seq<At>, id: string)
    requires |inputs| == |ats| && forall i :: 0 <= i < |inputs| ==> GoesOn(inputs[i]) && !IsStart(inputs[i])
    requires id != "" && FindTool(c.store.tools, id).Some?
    ensures FindTool(HandleAll(c, inputs, ats).store.tools, id)
      == Some(ToolAfter(FindTool(c.store.tools, id).value, inputs))
    decreases inputs
  {
    if inputs != [] {
      InputFollows(c, inputs[0], id, ats[0]);
      ToolFollows(Handle(c, inputs[0], ats[0]), inputs[1..], ats[1..], id);
    }
  }

  lemma StartedIsFound(c: Chat, id: string, tool: string, args: Text, freshId: string, at: At)
    requires id != "" && tool != "" && FindTool(c.store.tools, id).None?
    ensures FindTool(Handle(c, Arrives(ToolStart(id, tool, args), freshId), at).store.tools, id)
      == Some(ToolCall(id, tool, args, Running, [], [], []))
  {
    ToolStarts(c.store, id, tool, args, at.now, freshId);
    FoundFirst(c.store.tools, [ToolCall(id, tool, args, Running, [], [], [])], id);
  }

  // Main result: from its start on, and as long as its stream goes on, a tool is what its own
  // events have made of it, whatever else arrives: running until it ends, its partial results
  // in order.
  lemma ToolRuns(
    c: Chat, id: string, tool: string, args: Text, freshId: string, at: At, inputs: seq<Input>, ats: seq<At>)
    requires |inputs| == |ats| && forall i :: 0 <= i < |inputs| ==> GoesOn(inputs[i]) && !IsStart(inputs[i])
    requires id != "" && tool != "" && FindTool(c.store.tools, id).None?
    ensures var started := Handle(c, Arrives(ToolStart(id, tool, args), freshId), at);
      FindTool(HandleAll(started, inputs, ats).store.tools, id)
        == Some(ToolAfter(ToolCall(id, tool, args, Running, [], [], []), inputs))
  {
    StartedIsFound(c, id, tool, args, freshId, at);
    ToolFollows(Handle(c, Arrives(ToolStart(id, tool, args), freshId), at), inputs, ats, id);
  }

  /******* The other endings *******/

  // Status idle in the place of stream_end commits what was shown exactly when it is not
  // blank and the last message, at that moment, is the user's.
  lemma IdleCommitsShownIff(c: Chat, start: At, freshId: string, inputs: seq<Input>, ats: seq<At>, at: At)
    requires StreamOf(c, start, freshId, inputs, ats) && Shown(inputs) != []
    ensures var d := Streamed(c, start, freshId, inputs, ats);
      var after, ms := Handle(d, Arrives(Status(true), freshId), at), MessagesAfter(c.store.messages, inputs);
      && (after.store.messages == Added(ms, Shown(inputs))
          <==> !IsBlank(Shown(inputs)) && LastRole(ms) == Some(User))
      && !after.store.isStreaming && Pending(after) == []
  {
    StreamHolds(c, start, freshId, inputs, ats);
    IdleCommits(Flushed(Streamed(c, start, freshId, inputs, ats)).store, Status(true), at.now, freshId);
    var ms := MessagesAfter(c.store.messages, inputs);
    AddedIsNew(ms, Shown(inputs));
    assert Added(ms, [])[|ms|].content != Added(ms, Shown(inputs))[|ms|].content;
  }

  // error and task_timeout do not flush the buffer: they commit all that was shown exactly
  // when the buffer happens to be empty and the text repeats no message.
  lemma FailureCommitsAllIff(c: Chat, start: At, freshId: string, inputs: seq<Input>, ats: seq<At>, e: Event, at: At)
    requires StreamOf(c, start, freshId, inputs, ats) && (e.Error? || e.TaskTimeout?)
    requires !IsBlank(Shown(inputs))
    ensures var d := Streamed(c, start, freshId, inputs, ats);
      var after, ms := Handle(d, Arrives(e, freshId), at), MessagesAfter(c.store.messages, inputs);
      && (after.store.messages == Added(ms, Shown(inputs)) <==> d.buf.text == [] && !Duplicates(ms, Shown(inputs)))
      && Pending(after) == d.buf.text
  {
    var d, ms := Streamed(c, start, freshId, inputs, ats), MessagesAfter(c.store.messages, inputs);
    StreamHolds(c, start, freshId, inputs, ats);
    FailureCommits(d.store, e, at.now, freshId);
    assert [] + d.buf.text == d.buf.text;
    assert d.store.streaming + d.buf.text == Shown(inputs);
    AddedIsNew(ms, Shown(inputs));
    if d.buf.text == [] {
      assert d.store.streaming == Shown(inputs);
    } else {
      assert |d.store.streaming| < |Shown(inputs)|;
      assert Added(ms, Shown(inputs))[|ms|].content == Shown(inputs);
    }
  }

  // Text left in the buffer outside a stream reaches the store with the next due frame, and
  // there it makes every later stream_start be refused.
  lemma LeftoverComesLate(d: Chat, freshId: string, frame: At, start: At)
    requires !d.store.isStreaming && d.store.streaming == [] && d.buf.text != []
    requires frame.perf - d.buf.lastFlush >= SB.FLUSH_INTERVAL_MS
    ensures var late := Handle(d, Frame, frame);
      && !late.store.isStreaming && late.store.streaming != []
      && Handle(late, Arrives(StreamStart, freshId), start) == late
  {
    SB.FlushPointIsIt(d.buf.text, SB.FlushPoint(d.buf.text));
  }

  // Such text is what a failure leaves in the buffer.
  lemma LeftoverRefusesStarts(d: Chat, e: Event, freshId: string, at: At, frame: At, start: At)
    requires (e.Error? || e.TaskTimeout?) && d.buf.text != []
    requires frame.perf - d.buf.lastFlush >= SB.FLUSH_INTERVAL_MS
    ensures var late := Handle(Handle(d, Arrives(e, freshId), at), Frame, frame);
      && !late.store.isStreaming && late.store.streaming != []
      && Handle(late, Arrives(StreamStart, freshId), start) == late
  {
    FailureCommits(d.store, e, at.now, freshId);
    LeftoverComesLate(Handle(d, Arrives(e, freshId), at), freshId, frame, start);
  }

  // A second stream_start during a stream drops text exactly when it interrupts.
  lemma SecondStartLosesIff(c: Chat, freshId: string, at: At)
    requires c.store.isStreaming
    ensures Pending(Handle(c, Arrives(StreamStart, freshId), at)) != Pending(c)
      <==> c.store.streaming == [] && c.buf.text != []
  {
  }
}

/** wsEventReducer: from a snapshot of the message store and one event to a list of
    mutations, and the store that the mutations are applied to. */
module EventReducer {
  import opened Text
  import opened Wrappers

  const STREAM_START_COOLDOWN_MS := 2000

  datatype Role = User | Assistant | System

  datatype Message = Message(role: Role, content: Text)

  datatype ToolStatus = Running | Completed | Failed

  datatype ToolCall = ToolCall(id: string, tool: string, args: Text, status: ToolStatus, result: Text,
    progress: Text, history: seq<Text>)

  datatype Phase = Idle | Planning | Executing | Verifying | Done

  datatype Plan = Plan(steps: seq<string>, currentStep: nat, totalSteps: nat, status: string)

  // The part of useMessageStore that the reducer reads or writes; steps: the ids of the
  // execution steps.
  datatype Store = Store(
    isStreaming: bool, streaming: Text, thinking: Text, tools: seq<ToolCall>, steps: seq<string>,
    messages: seq<Message>, lastStreamEndAt: int, error: Option<Text>, suggestions: seq<string>,
    plan: Option<Plan>, notice: Option<(int, int)>, phase: Phase)

  datatype Event =
    | StreamStart
    | StreamChunk(content: Text)
    | Thinking(content: Text)
    | ToolStart(id: string, tool: string, args: Text)
    | ToolProgress(id: string, tool: string, partial: Text)
    | ToolEnd(id: string, success: bool, result: Text)
    | ToolResult(id: string, failed: bool, result: Text)
    | StreamEnd(content: Text, synthetic: bool, suggestions: seq<string>) // message_done too
    | Error(message: Text)
    | TaskTimeout
    | Status(idle: bool)
    | LongRunning(elapsed: int, toolCount: int)
    | PlanProgress(plan: Plan)
    | PlanCreated
    | PlanCompleted
    | TimeoutWarning(note: Text)
    | Other // plan_phase_update and event types without a case

  datatype ToolUpdate =
    | Progress(text: Text)
    | ExecProgress(text: Text, history: seq<Text>)
    | Finished(status: ToolStatus, result: Text)

  datatype Mutation =
    | SetStreaming(on: bool, preserve: bool)
    | ClearStreaming
    | AddToolCall(tool: ToolCall)
    | UpdateToolCall(id: string, update: ToolUpdate)
    | EndStream(content: Text)
    | SetError(error: Text)
    | SetSuggestions(suggestions: seq<string>)
    | SetPlanProgress(plan: Plan)
    | SnapshotTextToTimeline
    | AppendTimelineItem(id: string)
    | AppendThinking(content: Text)
    | SetLongRunningNotice(elapsed: int, toolCount: int)
    | SetTaskPhase(phase: Phase)
    | Nothing

  const UNKNOWN_ERROR: Text := Lit("Unknown error")
  const TIMED_OUT: Text := Lit("任务超时")
  const NO_REPLY: Text := Lit("AI 未能生成回复，请重试。如果问题持续，请尝试简化问题或更换模型。")

  /******* The reducer *******/

  function FindTool(tools: seq<ToolCall>, id: string): Option<ToolCall>
  {
    if tools == [] then None else if tools[0].id == id then Some(tools[0]) else FindTool(tools[1..], id)
  }

  function LastRole(messages: seq<Message>): Option<Role>
  {
    if messages == [] then None else Some(messages[|messages| - 1].role)
  }

  // The longer of the server's text and the streamed text, and failing both the thinking.
  function FinalContent(final: Text, streamed: Text, thinking: Text): Text
  {
    var full := if |final| >= |streamed| then final else streamed;
    if full == [] then thinking else full
  }

  function CommitOrClear(s: Store): Mutation
  {
    if !IsBlank(s.streaming) then EndStream(s.streaming) else ClearStreaming
  }

  // What status idle does to a stream that is still on.
  function IdleMutations(s: Store): seq<Mutation>
  {
    var hasContent, hasTools, last := !IsBlank(s.streaming), s.tools != [], LastRole(s.messages);
    if !hasContent && !hasTools && last == Some(User) then [SetError(NO_REPLY), ClearStreaming]
    else if !hasContent && hasTools then [EndStream([])]
    else if hasContent && last == Some(User) then [EndStream(s.streaming)]
    else [ClearStreaming]
  }

  function Reduce(s: Store, e: Event, now: int, freshId: string): seq<Mutation>
  {
    match e
    case StreamStart =>
      if now - s.lastStreamEndAt < STREAM_START_COOLDOWN_MS && !s.isStreaming then [Nothing]
      else if s.streaming != [] then [Nothing]
      else [SetStreaming(true, false)]
    case StreamChunk(_) => [Nothing]
    case Thinking(content) => if content != [] then [AppendThinking(content)] else [Nothing]
    case ToolStart(id, tool, args) =>
      if tool == "" then [Nothing]
      else
        var toolId := if id != "" then id else freshId;
        (if !s.isStreaming then [SetStreaming(true, true)] else [])
        + [SnapshotTextToTimeline, AddToolCall(ToolCall(toolId, tool, args, Running, [], [], [])),
           AppendTimelineItem(toolId)]
    case ToolProgress(id, tool, partial) =>
      if id == "" then [Nothing]
      else
        var known := FindTool(s.tools, id);
        var isExec := (known.Some? && known.value.tool == "exec") || tool == "exec";
        if isExec && partial != [] then
          [UpdateToolCall(id, ExecProgress(partial, (if known.Some? then known.value.history else []) + [partial]))]
        else [UpdateToolCall(id, Progress(partial))]
    case ToolEnd(id, success, result) =>
      if id == "" then [Nothing]
      else [UpdateToolCall(id, Finished(if success then Completed else Failed, result))]
    case ToolResult(id, failed, result) =>
      if id == "" then [Nothing]
      else [UpdateToolCall(id, Finished(if failed then Failed else Completed, result))]
    case StreamEnd(content, synthetic, suggestions) =>
      if synthetic && !s.isStreaming then [Nothing]
      else
        [EndStream(FinalContent(content, s.streaming, s.thinking))]
        + if suggestions != [] then [SetSuggestions(suggestions)] else []
    case Error(message) => [CommitOrClear(s), SetError(if message != [] then message else UNKNOWN_ERROR)]
    case TaskTimeout => [CommitOrClear(s), SetError(TIMED_OUT)]
    case Status(idle) =>
      if !idle then [Nothing]
      else [SetTaskPhase(Done)] + if s.isStreaming then IdleMutations(s) else []
    case LongRunning(elapsed, toolCount) => [SetLongRunningNotice(elapsed, toolCount)]
    case PlanProgress(plan) =>
      if plan.totalSteps == 0 then []
      else [SetPlanProgress(plan)] + if plan.status == "in_progress" then [SetTaskPhase(Executing)] else []
    case PlanCreated => [SetTaskPhase(Planning)]
    case PlanCompleted => [SetTaskPhase(Verifying)]
    case TimeoutWarning(_) => [Nothing]
    case Other => [Nothing]
  }

  /******* The store *******/

  const DUPLICATE_MIN := 50
  const DUPLICATE_HEAD := 200

  function Head(t: Text): Text
  {
    if |t| <= DUPLICATE_HEAD then t else t[..DUPLICATE_HEAD]
  }

  // streamEnd takes content for a repetition of the last message: the assistant's, and the
  // same, or both are long and one contains how the other begins.
  predicate Duplicates(messages: seq<Message>, content: Text)
  {
    LastRole(messages) == Some(Assistant) &&
    var last := messages[|messages| - 1].content;
    || last == content
    || (&& |content| > DUPLICATE_MIN && |last| > DUPLICATE_MIN
        && (Contains(last, Head(content)) || Contains(content, Head(last))))
  }

  function Added(messages: seq<Message>, content: Text): seq<Message>
  {
    messages + [Message(Assistant, content)]
  }

  function Commit(messages: seq<Message>, content: Text): seq<Message>
  {
    if Duplicates(messages, content) then messages else Added(messages, content)
  }

  // What ends a stream leaves of it.
  function Emptied(s: Store): Store
  {
    s.(isStreaming := false, streaming := [], thinking := [], tools := [], steps := [], plan := None)
  }

  function UpdateTool(t: ToolCall, u: ToolUpdate): ToolCall
  {
    match u
    case Progress(text) => t.(progress := text)
    case ExecProgress(text, history) => t.(progress := text, history := history)
    case Finished(status, result) => t.(status := status, result := result)
  }

  // The user's message is there at once, and the stream is on before the server answers.
  function Sent(s: Store, content: Text): Store
  {
    Emptied(s).(isStreaming := true, messages := s.messages + [Message(User, content)], suggestions := [])
  }

  function ApplyOne(s: Store, m: Mutation, now: int): Store
  {
    match m
    case SetStreaming(on, preserve) =>
      if on && !preserve then s.(isStreaming := on, streaming := [], thinking := [], tools := [], steps := [])
      else s.(isStreaming := on)
    case ClearStreaming => Emptied(s)
    case AddToolCall(tool) => s.(tools := s.tools + [tool])
    case UpdateToolCall(id, update) =>
      s.(tools := seq(|s.tools|, i requires 0 <= i < |s.tools| =>
        if s.tools[i].id == id then UpdateTool(s.tools[i], update) else s.tools[i]))
    case EndStream(content) => Emptied(s).(lastStreamEndAt := now, messages := Commit(s.messages, content))
    case SetError(error) => s.(error := Some(error))
    case SetSuggestions(suggestions) => s.(suggestions := suggestions)
    case SetPlanProgress(plan) => s.(plan := Some(plan))
    case SnapshotTextToTimeline => s // the timeline reads the streamed text and the tools itself
    case AppendTimelineItem(_) => s
    case AppendThinking(content) => s.(thinking := s.thinking + content)
    case SetLongRunningNotice(elapsed, toolCount) => s.(notice := Some((elapsed, toolCount)))
    case SetTaskPhase(phase) => s.(phase := phase)
    case Nothing => s
  }

  function Apply(s: Store, ms: seq<Mutation>, now: int): Store
  {
    if ms == [] then s else ApplyOne(Apply(s, ms[..|ms| - 1], now), ms[|ms| - 1], now)
  }

  // The store after one event.
  function React(s: Store, e: Event, now: int, freshId: string): Store
  {
    Apply(s, Reduce(s, e, now, freshId), now)
  }

  class MessageStore {
    var state: Store

    constructor (s: Store)
      ensures state == s
    {
      state := s;
    }

    method ApplyMutations(ms: seq<Mutation>, now: int)
      modifies this
      ensures state == Apply(old(state), ms, now)
    {
      for i := 0 to |ms|
        invariant state == Apply(old(state), ms[..i], now)
      {
        state := ApplyOne(state, ms[i], now);
        assert ms[..i + 1][..i] == ms[..i];
      }
      assert ms[..|ms|] == ms;
    }

    method AppendStream(batch: Text)
      modifies this
      ensures state == old(state).(streaming := old(state).streaming + batch)
    {
      state := state.(streaming := state.streaming + batch);
    }

    method SetStreaming(on: bool, preserve: bool)
      modifies this
      ensures state == ApplyOne(old(state), Mutation.SetStreaming(on, preserve), 0)
    {
      state := state.(isStreaming := on);
      if on && !preserve {
        state := state.(streaming := [], thinking := [], tools := [], steps := []);
      }
    }

    method ClearError()
      modifies this
      ensures state == old(state).(error := None)
    {
      state := state.(error := None);
    }

    method AddStep(id: string)
      modifies this
      ensures state == old(state).(steps := old(state).steps + [id])
    {
      state := state.(steps := state.steps + [id]);
    }

    method AddMessage(m: Message)
      modifies this
      ensures state == old(state).(messages := old(state).messages + [m])
    {
      state := state.(messages := state.messages + [m]);
    }

    // sendMessage, up to the request.
    method SendMessage(content: Text)
      modifies this
      ensures state == Sent(old(state), content)
    {
      state := Emptied(state).(messages := state.messages + [Message(User, content)], suggestions := []);
      state := state.(isStreaming := true);
    }
  }

  /******* Safety *******/

  predicate Ends(m: Mutation)
  {
    m.EndStream? || m.ClearStreaming?
  }

  function CountEnds(ms: seq<Mutation>): nat
  {
    if ms == [] then 0 else (if Ends(ms[0]) then 1 else 0) + CountEnds(ms[1..])
  }

  // No list both commits and clears, or does either twice; and only events that close a
  // stream do either at all.
  lemma AtMostOneEnd(s: Store, e: Event, now: int, freshId: string)
    ensures CountEnds(Reduce(s, e, now, freshId)) <= 1
    ensures CountEnds(Reduce(s, e, now, freshId)) == 1 <==>
      match e
      case StreamEnd(_, synthetic, _) => s.isStreaming || !synthetic
      case Error(_) => true
      case TaskTimeout => true
      case Status(idle) => idle && s.isStreaming
      case _ => false
  {
    CountFew(Reduce(s, e, now, freshId));
  }

  lemma CountFew(ms: seq<Mutation>)
    requires |ms| <= 4
    ensures CountEnds(ms) ==
      (if |ms| > 0 && Ends(ms[0]) then 1 else 0) + (if |ms| > 1 && Ends(ms[1]) then 1 else 0)
      + (if |ms| > 2 && Ends(ms[2]) then 1 else 0) + (if |ms| > 3 && Ends(ms[3]) then 1 else 0)
  {
  }

  // An event after which nothing is streaming, whatever came before.
  predicate Closes(e: Event)
  {
    e.StreamEnd? || e.Error? || e.TaskTimeout? || (e.Status? && e.idle)
  }

  lemma ApplyTwo(s: Store, a: Mutation, b: Mutation, now: int)
    ensures Apply(s, [a], now) == ApplyOne(s, a, now)
    ensures Apply(s, [a, b], now) == ApplyOne(ApplyOne(s, a, now), b, now)
  {
  }

  // Applying a short list, one mutation after the other.
  lemma ApplyFew(s: Store, ms: seq<Mutation>, now: int)
    requires 1 <= |ms| <= 3
    ensures var s1 := ApplyOne(s, ms[0], now);
      Apply(s, ms, now) ==
        if |ms| == 1 then s1
        else if |ms| == 2 then ApplyOne(s1, ms[1], now)
        else ApplyOne(ApplyOne(s1, ms[1], now), ms[2], now)
  {
  }

  lemma ClosingTurnsOff(s: Store, e: Event, now: int, freshId: string)
    requires Closes(e)
    ensures !React(s, e, now, freshId).isStreaming
  {
    ApplyFew(s, Reduce(s, e, now, freshId), now);
  }

  // The last message is the assistant's and contains the text.
  predicate Holds(messages: seq<Message>, text: Text)
  {
    LastRole(messages) == Some(Assistant) && Contains(messages[|messages| - 1].content, text)
  }

  // The text is still there: in the stream, in a new message at least as long as it, or in
  // the last message as it was.
  ghost predicate Survives(before: Store, after: Store)
  {
    || after.streaming == before.streaming
    || (exists content :: after.messages == Added(before.messages, content) && |content| >= |before.streaming|)
    || (after.messages == before.messages && Holds(before.messages, before.streaming))
  }

  // Mutations that touch neither the streamed text nor the messages.
  predicate Keeps(m: Mutation)
  {
    !Ends(m) && !(m.SetStreaming? && !m.preserve)
  }

  lemma {:induction false} KeepsAll(s: Store, ms: seq<Mutation>, now: int)
    requires forall i :: 0 <= i < |ms| ==> Keeps(ms[i])
    ensures Apply(s, ms, now).streaming == s.streaming && Apply(s, ms, now).messages == s.messages
  {
    if ms != [] { KeepsAll(s, ms[..|ms| - 1], now); }
  }

  lemma {:induction false} ApplyAppend(s: Store, xs: seq<Mutation>, ys: seq<Mutation>, now: int)
    ensures Apply(s, xs + ys, now) == Apply(Apply(s, xs, now), ys, now)
  {
    if ys == [] {
      assert xs + ys == xs;
    } else {
      var n := |ys| - 1;
      ApplyAppend(s, xs, ys[..n], now);
      assert (xs + ys)[..|xs + ys| - 1] == xs + ys[..n];
    }
  }

  lemma EndThenKeep(s: Store, m: Mutation, rest: seq<Mutation>, now: int)
    requires Ends(m) && forall i :: 0 <= i < |rest| ==> Keeps(rest[i])
    ensures var after := Apply(s, [m] + rest, now);
      && after.streaming == []
      && after.messages == if m.EndStream? then Commit(s.messages, m.content) else s.messages
  {
    ApplyAppend(s, [m], rest, now);
    ApplyTwo(s, m, m, now);
    KeepsAll(ApplyOne(s, m, now), rest, now);
  }

  // stream_end and message_done commit the server's text if it is at least as long as the
  // streamed text, the streamed text if that is longer, and the thinking if both are empty.
  ghost predicate CommitsLonger(before: seq<Message>, after: seq<Message>, server: Text, shown: Text, thinking: Text)
  {
    && (server != [] && |server| >= |shown| ==> after == Commit(before, server))
    && (|shown| > |server| ==> after == Commit(before, shown))
    && (server == [] && shown == [] ==> after == Commit(before, thinking))
  }

  lemma StreamEndCommits(s: Store, e: Event, now: int, freshId: string)
    requires e.StreamEnd? && (s.isStreaming || !e.synthetic)
    ensures var after := React(s, e, now, freshId);
      && after.streaming == [] && !after.isStreaming && after.lastStreamEndAt == now
      && after.messages == Commit(s.messages, FinalContent(e.content, s.streaming, s.thinking))
      && CommitsLonger(s.messages, after.messages, e.content, s.streaming, s.thinking)
  {
    var end := EndStream(FinalContent(e.content, s.streaming, s.thinking));
    var rest := if e.suggestions != [] then [SetSuggestions(e.suggestions)] else [];
    assert Reduce(s, e, now, freshId) == [end] + rest;
    EndThenKeep(s, end, rest, now);
    ClosingTurnsOff(s, e, now, freshId);
    ApplyFew(s, Reduce(s, e, now, freshId), now);
  }

  // error and task_timeout commit the streamed text unless it is blank.
  lemma FailureCommits(s: Store, e: Event, now: int, freshId: string)
    requires e.Error? || e.TaskTimeout?
    ensures var after := React(s, e, now, freshId);
      && after.streaming == [] && !after.isStreaming
      && after.messages == if IsBlank(s.streaming) then s.messages else Commit(s.messages, s.streaming)
  {
    var ms := Reduce(s, e, now, freshId);
    assert ms == [CommitOrClear(s)] + [ms[1]];
    EndThenKeep(s, CommitOrClear(s), [ms[1]], now);
    ClosingTurnsOff(s, e, now, freshId);
  }

  // idle commits it only behind a message of the user's; blank text with tools at work
  // leaves an empty message for them.
  lemma IdleCommits(s: Store, e: Event, now: int, freshId: string)
    requires e.Status? && e.idle && s.isStreaming
    ensures var after := React(s, e, now, freshId);
      && after.streaming == [] && !after.isStreaming && after.phase == Done
      && after.messages ==
         if !IsBlank(s.streaming) && LastRole(s.messages) == Some(User) then Commit(s.messages, s.streaming)
         else if IsBlank(s.streaming) && s.tools != [] then Commit(s.messages, [])
         else s.messages
  {
    var ms, phase := IdleMutations(s), SetTaskPhase(Done);
    assert Reduce(s, e, now, freshId) == [phase] + ms;
    ApplyAppend(s, [phase], ms, now);
    ApplyTwo(s, phase, phase, now);
    var s1 := ApplyOne(s, phase, now);
    ApplyFew(s1, ms, now);
  }

  // Every other event leaves the text and the messages alone.
  lemma OthersKeep(s: Store, e: Event, now: int, freshId: string)
    requires !Closes(e) && (e.StreamStart? ==> s.streaming != [])
    ensures var after := React(s, e, now, freshId);
      after.streaming == s.streaming && after.messages == s.messages
  {
    KeepsAll(s, Reduce(s, e, now, freshId), now);
  }

  // An event that takes the text away: its commit is turned down as a duplicate by a message
  // that does not contain the text, or it is status idle during a stream, and the last
  // message is neither the user's nor one that contains the text.
  predicate Loses(s: Store, e: Event)
  {
    match e
    case StreamEnd(content, synthetic, _) =>
      (s.isStreaming || !synthetic) && !Holds(s.messages, s.streaming)
      && Duplicates(s.messages, FinalContent(content, s.streaming, s.thinking))
    case Error(_) => Duplicates(s.messages, s.streaming) && !Holds(s.messages, s.streaming)
    case TaskTimeout => Duplicates(s.messages, s.streaming) && !Holds(s.messages, s.streaming)
    case Status(idle) =>
      idle && s.isStreaming && LastRole(s.messages) != Some(User) && !Holds(s.messages, s.streaming)
    case _ => false
  }

  // The fate of the text in an event that leaves none in the stream.
  lemma CommitDecides(before: Store, after: Store, content: Text)
    requires before.streaming != [] && after.streaming == [] && |content| >= |before.streaming|
    requires after.messages == Commit(before.messages, content)
    ensures Survives(before, after) <==>
      !(Duplicates(before.messages, content) && !Holds(before.messages, before.streaming))
  {
  }

  lemma ClearDecides(before: Store, after: Store)
    requires before.streaming != [] && after.streaming == [] && after.messages == before.messages
    ensures Survives(before, after) <==> Holds(before.messages, before.streaming)
  {
  }

  // Main result: streamed text that is not blank survives every event but those that Loses
  // names.
  lemma SurvivesIff(s: Store, e: Event, now: int, freshId: string)
    requires !IsBlank(s.streaming)
    ensures Survives(s, React(s, e, now, freshId)) <==> !Loses(s, e)
  {
    assert s.streaming != [] by { assert IsBlank([]); }
    var after := React(s, e, now, freshId);
    if !Closes(e) {
      OthersKeep(s, e, now, freshId);
    } else if e.Error? || e.TaskTimeout? {
      FailureCommits(s, e, now, freshId);
      CommitDecides(s, after, s.streaming);
    } else if e.StreamEnd? && (s.isStreaming || !e.synthetic) {
      StreamEndCommits(s, e, now, freshId);
      CommitDecides(s, after, FinalContent(e.content, s.streaming, s.thinking));
    } else if e.Status? && s.isStreaming {
      IdleCommits(s, e, now, freshId);
      if LastRole(s.messages) == Some(User) {
        CommitDecides(s, after, s.streaming);
      } else {
        ClearDecides(s, after);
      }
    } else {
      KeepsAll(s, Reduce(s, e, now, freshId), now);
    }
  }

  /******* Duplicates *******/

  // In numbers: behind an assistant's message of the same text; or when both texts have more
  // than 50 characters and the first 200 of one, or all if there are fewer, stand somewhere
  // in the other.
  lemma DuplicatesIff(messages: seq<Message>, last: Message, content: Text)
    ensures var n := if |content| < 200 then |content| else 200;
      var k := if |last.content| < 200 then |last.content| else 200;
      Duplicates(messages + [last], content) <==>
        && last.role == Assistant
        && (|| last.content == content
            || (&& |content| > 50 && |last.content| > 50
                && (Occurs(content[..n], last.content) || Occurs(last.content[..k], content))))
    ensures !Duplicates([], content)
  {
    var n, k := if |content| < 200 then |content| else 200, if |last.content| < 200 then |last.content| else 200;
    assert Head(content) == content[..n] && Head(last.content) == last.content[..k];
    ContainsIff(last.content, content[..n]);
    ContainsIff(content, last.content[..k]);
  }

  lemma {:induction false} ContainsIsNoLonger(s: Text, p: Text)
    requires Contains(s, p)
    ensures |p| <= |s|
  {
    if !StartsWith(s, p) { ContainsIsNoLonger(s[1..], p); }
  }

  // A text that goes on where the last message, of more than 50 characters, ended is taken
  // for a duplicate: its tail is in no message, and no longer in the stream.
  lemma LongerTextIsDropped(messages: seq<Message>, shown: Text, tail: Text)
    requires |shown| > DUPLICATE_MIN && tail != []
    ensures var ms, whole := Added(messages, shown), shown + tail;
      Duplicates(ms, whole) && Commit(ms, whole) == ms && !Holds(ms, whole)
  {
    var ms, whole := Added(messages, shown), shown + tail;
    assert ms[|ms| - 1].content == shown;
    assert whole[..|shown|] == shown;
    assert whole[..|Head(shown)|] == Head(shown);
    if Contains(shown, whole) { ContainsIsNoLonger(shown, whole); }
  }

  /******* Thinking *******/

  // Mutations that leave the thinking alone.
  predicate KeepsThinking(m: Mutation)
  {
    Keeps(m) && !m.AppendThinking?
  }

  lemma {:induction false} ThinkingStays(s: Store, ms: seq<Mutation>, now: int)
    requires forall i :: 0 <= i < |ms| ==> KeepsThinking(ms[i])
    ensures Apply(s, ms, now).thinking == s.thinking
  {
    if ms != [] { ThinkingStays(s, ms[..|ms| - 1], now); }
  }

  lemma NoThinking(s: Store, e: Event, now: int, freshId: string)
    requires !Closes(e) && !e.StreamStart? && !e.Thinking?
    ensures var ms := Reduce(s, e, now, freshId); forall i :: 0 <= i < |ms| ==> KeepsThinking(ms[i])
  {
  }

  // In a stream only thinking events add to the thinking, each its content.
  lemma ThinkingGrows(s: Store, e: Event, now: int, freshId: string)
    requires !Closes(e) && !e.StreamStart?
    ensures React(s, e, now, freshId).thinking == s.thinking + if e.Thinking? then e.content else []
  {
    assert s.thinking + [] == s.thinking;
    if e.Thinking? {
      ApplyTwo(s, AppendThinking(e.content), Nothing, now);
      ApplyTwo(s, Nothing, Nothing, now);
    } else {
      NoThinking(s, e, now, freshId);
      ThinkingStays(s, Reduce(s, e, now, freshId), now);
    }
  }

  /******* Tools *******/

  function NonEmpty(ps: seq<Text>): seq<Text>
  {
    if ps == [] then [] else (if ps[0] != [] then [ps[0]] else []) + NonEmpty(ps[1..])
  }

  // The progress events of one tool, one after the other.
  function Progressed(s: Store, id: string, ps: seq<Text>, now: int): Store
    decreases ps
  {
    if ps == [] then s else Progressed(React(s, ToolProgress(id, "exec", ps[0]), now, ""), id, ps[1..], now)
  }

  lemma {:induction false} UpdateFinds(s: Store, id: string, u: ToolUpdate, now: int)
    requires FindTool(s.tools, id).Some?
    ensures FindTool(ApplyOne(s, UpdateToolCall(id, u), now).tools, id)
      == Some(UpdateTool(FindTool(s.tools, id).value, u))
    decreases s.tools
  {
    var after := ApplyOne(s, UpdateToolCall(id, u), now).tools;
    if s.tools[0].id != id {
      var rest := s.(tools := s.tools[1..]);
      UpdateFinds(rest, id, u, now);
      assert after[1..] == ApplyOne(rest, UpdateToolCall(id, u), now).tools;
    }
  }

  // A running exec tool collects every non-empty partial result, in order, and nothing else.
  lemma {:induction false} ExecHistoryCollects(s: Store, id: string, ps: seq<Text>, now: int)
    requires id != "" && FindTool(s.tools, id).Some?
    ensures var t := FindTool(Progressed(s, id, ps, now).tools, id);
      t.Some? && t.value.history == FindTool(s.tools, id).value.history + NonEmpty(ps)
    decreases ps
  {
    var history := FindTool(s.tools, id).value.history;
    if ps == [] {
      assert history + [] == history;
    } else {
      var m := Reduce(s, ToolProgress(id, "exec", ps[0]), now, "")[0];
      ApplyTwo(s, m, m, now);
      UpdateFinds(s, id, m.update, now);
      ExecHistoryCollects(ApplyOne(s, m, now), id, ps[1..], now);
      assert (history + [ps[0]]) + NonEmpty(ps[1..]) == history + ([ps[0]] + NonEmpty(ps[1..]));
      assert [] + NonEmpty(ps[1..]) == NonEmpty(ps[1..]);
    }
  }

  lemma UpdateEvent(s: Store, e: Event, id: string, u: ToolUpdate, now: int, freshId: string)
    requires FindTool(s.tools, id).Some? && Reduce(s, e, now, freshId) == [UpdateToolCall(id, u)]
    ensures FindTool(React(s, e, now, freshId).tools, id) == Some(UpdateTool(FindTool(s.tools, id).value, u))
  {
    ApplyTwo(s, UpdateToolCall(id, u), Nothing, now);
    UpdateFinds(s, id, u, now);
  }

  // A tool that has ended carries its result, and says whether it succeeded; what it was
  // called with and had reported stays. Both events that end one say so.
  lemma ToolEndsAs(s: Store, id: string, good: bool, result: Text, now: int, freshId: string)
    requires id != "" && FindTool(s.tools, id).Some?
    ensures var t := FindTool(s.tools, id).value;
      var ended := t.(status := if good then Completed else Failed, result := result);
      && FindTool(React(s, ToolEnd(id, good, result), now, freshId).tools, id) == Some(ended)
      && FindTool(React(s, ToolResult(id, !good, result), now, freshId).tools, id) == Some(ended)
  {
    var u := Finished(if good then Completed else Failed, result);
    UpdateEvent(s, ToolEnd(id, good, result), id, u, now, freshId);
    UpdateEvent(s, ToolResult(id, !good, result), id, u, now, freshId);
  }

  // A tool that starts is running and last in the list, under its own id or a fresh one, and
  // the stream is on.
  lemma ToolStarts(s: Store, id: string, tool: string, args: Text, now: int, freshId: string)
    requires tool != ""
    ensures var after := React(s, ToolStart(id, tool, args), now, freshId);
      && after.isStreaming && after.streaming == s.streaming
      && after.tools == s.tools + [ToolCall(if id != "" then id else freshId, tool, args, Running, [], [], [])]
  {
    var call := ToolCall(if id != "" then id else freshId, tool, args, Running, [], [], []);
    var on := if !s.isStreaming then [SetStreaming(true, true)] else [];
    var rest := [SnapshotTextToTimeline, AddToolCall(call), AppendTimelineItem(call.id)];
    ApplyAppend(s, on, rest, now);
    ApplyTwo(s, SetStreaming(true, true), Nothing, now);
    ApplyFew(Apply(s, on, now), rest, now);
  }

  // Progress is shown as it comes; only an exec tool, so named by its call or by the event,
  // keeps a history of what was not empty.
  lemma ProgressIsShown(s: Store, id: string, tool: string, partial: Text, now: int, freshId: string)
    requires id != "" && FindTool(s.tools, id).Some?
    ensures var t := FindTool(s.tools, id).value;
      var after := FindTool(React(s, ToolProgress(id, tool, partial), now, freshId).tools, id);
      var exec := (t.tool == "exec" || tool == "exec") && partial != [];
      after == Some(t.(progress := partial, history := if exec then t.history + [partial] else t.history))
  {
    var t := FindTool(s.tools, id).value;
    var exec := (t.tool == "exec" || tool == "exec") && partial != [];
    var u := if exec then ExecProgress(partial, t.history + [partial]) else Progress(partial);
    UpdateEvent(s, ToolProgress(id, tool, partial), id, u, now, freshId);
  }

  /******* What else is told *******/

  // The close of a stream leaves no thinking, no tools, no steps and no plan of it.
  lemma ClosingEmpties(s: Store, e: Event, now: int, freshId: string)
    requires Closes(e) && (e.StreamEnd? && e.synthetic ==> s.isStreaming) && (e.Status? ==> s.isStreaming)
    ensures var after := React(s, e, now, freshId);
      after.streaming == after.thinking == [] && after.tools == [] && after.steps == [] && after.plan == None
  {
    ApplyFew(s, Reduce(s, e, now, freshId), now);
  }

  // An accepted stream_start begins with nothing shown, thought or done, and keeps the
  // messages.
  lemma StartClears(s: Store, now: int, freshId: string)
    requires s.streaming == [] && (s.isStreaming || now - s.lastStreamEndAt >= 2000)
    ensures var after := React(s, StreamStart, now, freshId);
      && after.isStreaming && after.streaming == after.thinking == [] && after.tools == [] && after.steps == []
      && after.messages == s.messages && after.plan == s.plan && after.lastStreamEndAt == s.lastStreamEndAt
  {
    ApplyTwo(s, SetStreaming(true, false), Nothing, now);
  }

  // Within two seconds of the last end, outside a stream, or over text that is shown, it
  // changes nothing.
  lemma StartIsRefused(s: Store, now: int, freshId: string)
    requires s.streaming != [] || (!s.isStreaming && now - s.lastStreamEndAt < 2000)
    ensures React(s, StreamStart, now, freshId) == s
  {
    ApplyTwo(s, Nothing, Nothing, now);
  }

  // A failure is told with its own words, or some; a stream that goes idle with nothing to
  // show behind the user's message is told as a missing reply; and no other end tells any.
  lemma FailuresAreTold(s: Store, message: Text, now: int, freshId: string)
    ensures message != [] ==> React(s, Error(message), now, freshId).error == Some(message)
    ensures React(s, Error([]), now, freshId).error == Some(Lit("Unknown error"))
    ensures React(s, TaskTimeout, now, freshId).error.Some?
  {
    ApplyFew(s, Reduce(s, Error(message), now, freshId), now);
    ApplyFew(s, Reduce(s, Error([]), now, freshId), now);
    ApplyFew(s, Reduce(s, TaskTimeout, now, freshId), now);
  }

  lemma MissingReplyIff(s: Store, now: int, freshId: string)
    requires s.isStreaming && s.error == None
    ensures React(s, Status(true), now, freshId).error.Some?
      <==> IsBlank(s.streaming) && s.tools == [] && LastRole(s.messages) == Some(User)
  {
    ApplyFew(s, Reduce(s, Status(true), now, freshId), now);
  }

  // Suggestions come with the end of an answer, and go with the next question.
  lemma SuggestionsFollow(s: Store, content: Text, suggestions: seq<string>, question: Text, now: int, freshId: string)
    ensures React(s, StreamEnd(content, false, suggestions), now, freshId).suggestions
      == if suggestions != [] then suggestions else s.suggestions
    ensures Sent(s, question).suggestions == [] && Sent(s, question).tools == [] && Sent(s, question).thinking == []
  {
    ApplyFew(s, Reduce(s, StreamEnd(content, false, suggestions), now, freshId), now);
  }

  // The task's phase: planning, executing while the plan is in progress, verifying, done. A
  // plan without steps is no plan.
  lemma PhasesFollow(s: Store, plan: Plan, now: int, freshId: string)
    ensures React(s, PlanCreated, now, freshId).phase == Planning
    ensures React(s, PlanCompleted, now, freshId).phase == Verifying
    ensures React(s, Status(true), now, freshId).phase == Done
    ensures plan.totalSteps == 0 ==> React(s, PlanProgress(plan), now, freshId) == s
    ensures plan.totalSteps > 0 ==>
      React(s, PlanProgress(plan), now, freshId)
        == s.(plan := Some(plan), phase := if plan.status == "in_progress" then Executing else s.phase)
  {
    ApplyFew(s, Reduce(s, PlanCreated, now, freshId), now);
    ApplyFew(s, Reduce(s, PlanCompleted, now, freshId), now);
    ApplyFew(s, Reduce(s, Status(true), now, freshId), now);
    PlanFollows(s, plan, now, freshId);
  }

  lemma PlanFollows(s: Store, plan: Plan, now: int, freshId: string)
    ensures React(s, PlanProgress(plan), now, freshId) ==
      if plan.totalSteps == 0 then s
      else s.(plan := Some(plan), phase := if plan.status == "in_progress" then Executing else s.phase)
  {
    if plan.totalSteps > 0 { ApplyFew(s, Reduce(s, PlanProgress(plan), now, freshId), now); }
  }

  // What is left out of a stream's course altogether.
  lemma NoticesOnly(s: Store, elapsed: int, toolCount: int, now: int, freshId: string)
    ensures React(s, LongRunning(elapsed, toolCount), now, freshId) == s.(notice := Some((elapsed, toolCount)))
    ensures React(s, Other, now, freshId) == s && React(s, Status(false), now, freshId) == s
  {
    ApplyFew(s, Reduce(s, LongRunning(elapsed, toolCount), now, freshId), now);
    ApplyFew(s, Reduce(s, Other, now, freshId), now);
    ApplyFew(s, Reduce(s, Status(false), now, freshId), now);
  }
}

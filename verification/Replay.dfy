/** Polling takes over in the middle of a stream: the hook starts at cursor zero, so the whole
    log of the task comes again, behind the text that is already shown. */
module Replay {
  import opened Text
  import opened EventReducer
  import opened ChatStream
  import HP = HttpPolling

  // The inputs of a log, each entry decoded on its own.
  function Decoded(log: seq<HP.Event>, decode: HP.Event -> Input): seq<Input>
  {
    seq(|log|, i requires 0 <= i < |log| => decode(log[i]))
  }

  // The inputs without the animation frames among them.
  function Unframed(inputs: seq<Input>): seq<Input>
  {
    if inputs == [] then [] else (if inputs[0].Frame? then [] else [inputs[0]]) + Unframed(inputs[1..])
  }

  lemma {:induction false} FramesShowNothing(inputs: seq<Input>)
    ensures Shown(Unframed(inputs)) == Shown(inputs)
  {
    if inputs != [] {
      FramesShowNothing(inputs[1..]);
      var rest := Unframed(inputs[1..]);
      if inputs[0].Frame? {
        assert [] + rest == rest && [] + Shown(inputs[1..]) == Shown(inputs[1..]);
      } else {
        assert ([inputs[0]] + rest)[1..] == rest;
      }
    }
  }

  // Main result: polling from the start of the log, whatever frames fall between the answers,
  // shows the part of the log that it has delivered a second time, behind what the socket
  // had shown.
  lemma ReplayRepeats(
    d: Chat, log: seq<HP.Event>, run: seq<HP.Step>, decode: HP.Event -> Input, inputs: seq<Input>, ats: seq<At>)
    requires d.store.isStreaming && d.store.streaming != []
    requires HP.Increasing(log)
    requires var s := HP.System(log, HP.Started(HP.Fresh.poller), [0]); HP.Possible(s, run) && HP.OneAtATime(s, run)
    requires var s := HP.Run(HP.System(log, HP.Started(HP.Fresh.poller), [0]), run);
      Unframed(inputs) == Decoded(s.poller.delivered, decode)
    requires |inputs| == |ats| && AllGoOn(inputs)
    ensures var s := HP.Run(HP.System(log, HP.Started(HP.Fresh.poller), [0]), run);
      && |s.poller.delivered| <= |s.log|
      && Pending(HandleAll(d, inputs, ats)) == Pending(d) + Shown(Decoded(s.log[..|s.poller.delivered|], decode))
  {
    var s := HP.Run(HP.System(log, HP.Started(HP.Fresh.poller), [0]), run);
    HP.PrefixExactlyFromStart(log, run);
    assert s.log[..|s.poller.delivered|] == s.poller.delivered;
    ShownTextShields(d, inputs, ats);
    RunGoesOn(d, inputs, ats);
    FramesShowNothing(inputs);
  }

  // Main result: the stream_end behind a full replay carries the server's text, which is what
  // the replay shows. It is the text committed if and only if none had reached the store
  // before; otherwise the doubled text is longer and wins.
  lemma ServerTextWinsIff(
    d: Chat, start: At, freshId: string, inputs: seq<Input>, ats: seq<At>, end: Event, at: At)
    requires StartDuring(d, start, freshId, inputs, ats)
    requires end.StreamEnd? && !Dropped(end) && end.content == Shown(inputs) != []
    ensures var full := LeftBy(d) + end.content;
      && Handle(Streamed(d, start, freshId, inputs, ats), Arrives(end, freshId), at).store.messages
         == Commit(MessagesAfter(d.store.messages, inputs), full)
      && (full == end.content <==> d.store.streaming == [])
  {
    var r := Streamed(d, start, freshId, inputs, ats);
    StartDuringHolds(d, start, freshId, inputs, ats);
    LongerWins(LeftBy(d), end.content, r.store.thinking);
    StreamEndCommits(Flushed(r).store, end, at.now, freshId);
  }
}

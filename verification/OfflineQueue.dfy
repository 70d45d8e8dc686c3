/** wsSend with its offline queue, the recover_task that waits for chat_bound, and what a new
    connection does to a stream. */
module OfflineQueue {
  import opened Text
  import opened Wrappers
  import ER = EventReducer

  // The text of a chat as chatStreams keeps it, and its copy in local storage.
  datatype Shown = Shown(content: Text, thinking: Text)

  datatype Snapshot = Snapshot(chatId: string, shown: Shown)

  // snapshotHash is the string h<total>_<tail>.
  datatype Meta = Meta(total: nat, tail: nat, lastChunkSeq: nat)

  datatype Recovery = Recovery(msgId: string, chatId: string, meta: Meta)

  datatype Message =
    | Data(kind: string, body: nat)
    | RecoverTask(recovery: Recovery, lastEventTs: int)

  // handed: what the raw sender has been given; activeMsg and storedMsg, storedChat: the
  // task being tracked, in memory and in local storage; lastEventTs: 0 when not in storage.
  datatype Link = Link(
    connected: bool, queue: seq<Message>, handed: seq<Message>, pending: Option<Recovery>,
    activeMsg: Option<string>, storedMsg: Option<string>, storedChat: Option<string>,
    streams: map<string, Shown>, snapshot: Option<Snapshot>, lastEventTs: int)

  predicate Queueable(m: Message)
  {
    m.RecoverTask? || (m.kind != "ping" && m.kind != "pong")
  }

  // Sent at once when connected, behind whatever was waiting; otherwise queued, unless it is
  // a heartbeat, which is dropped.
  predicate Accepted(l: Link, m: Message)
  {
    l.connected || Queueable(m)
  }

  function Sent(l: Link, m: Message): Link
  {
    if l.connected then l.(handed := l.handed + l.queue + [m], queue := [])
    else if Queueable(m) then l.(queue := l.queue + [m])
    else l
  }

  lemma SentHands(l: Link, m: Message)
    ensures Sent(l, m).connected == l.connected && l.handed <= Sent(l, m).handed
    ensures !l.connected ==> Sent(l, m).handed == l.handed
  {
  }

  predicate Given(a: Option<string>)
  {
    a.Some? && a.value != ""
  }

  function Or(a: Option<string>, b: Option<string>): Option<string>
  {
    if Given(a) then a else if Given(b) then b else None
  }

  function StreamOf(l: Link, chat: string): Shown
  {
    if chat in l.streams then l.streams[chat] else Shown([], [])
  }

  // The length of t with every run of white space counted once.
  function Collapsed(t: Text): nat
  {
    if t == [] then 0
    else (if |t| > 1 && IsSpace(t[0]) && IsSpace(t[1]) then 0 else 1) + Collapsed(t[1..])
  }

  const BAR: Text := Lit("|")
  const TAIL := 32

  function MetaOf(s: Shown): Meta
  {
    var text := s.content + BAR + s.thinking;
    Meta(|text|, Collapsed(if |text| > TAIL then text[|text| - TAIL..] else text), |s.content|)
  }

  // A connection lost in the middle of a task leaves the chat's text in local storage.
  function ConnectionChanged(l: Link, up: bool, streaming: bool, currentChat: Option<string>): Link
  {
    var n := l.(connected := up);
    if l.connected && !up && Given(l.activeMsg) && streaming && Given(currentChat)
      && StreamOf(l, currentChat.value).content != []
    then n.(snapshot := Some(Snapshot(currentChat.value, StreamOf(l, currentChat.value))))
    else n
  }

  // What the effect on a new connection finds: a task to recover in a chat, or nothing.
  predicate Finds(l: Link, currentChat: Option<string>)
  {
    Or(l.activeMsg, l.storedMsg).Some? && Or(currentChat, l.storedChat).Some?
  }

  // A snapshot of the chat goes back to its stream if it is longer, and is used up.
  function Rehydrated(l: Link, chat: string): Link
  {
    if l.snapshot.None? || l.snapshot.value.shown.content == [] || l.snapshot.value.chatId != chat then l
    else
      var snap, known := l.snapshot.value.shown, StreamOf(l, chat);
      var thinking := if snap.thinking != [] then snap.thinking else known.thinking;
      var longer := l.streams[chat := Shown(snap.content, thinking)];
      l.(snapshot := None, streams := if |known.content| < |snap.content| then longer else l.streams)
  }

  function Reconnected(l: Link, currentChat: Option<string>): Link
  {
    if !Finds(l, currentChat) then l
    else Armed(l, Or(l.activeMsg, l.storedMsg).value, Or(currentChat, l.storedChat).value)
  }

  function Armed(l: Link, msg: string, chat: string): Link
  {
    var n := Rehydrated(l, chat);
    n.(activeMsg := Some(msg), pending := Some(Recovery(msg, chat, MetaOf(StreamOf(n, chat)))))
  }

  // The message store's part: a task to recover turns the stream on; a stream without one
  // is an orphan, and ends with what it has shown.
  function Rejoined(s: ER.Store, l: Link, currentChat: Option<string>, now: int): ER.Store
  {
    if Or(currentChat, l.storedChat).None? then s
    else if Finds(l, currentChat) then s.(isStreaming := true)
    else if s.isStreaming then ER.ApplyOne(s, ER.CommitOrClear(s), now)
    else s
  }

  // handleWsEvent stamps every event but heartbeats before it looks at it.
  function Stamped(l: Link, now: int): Link
  {
    l.(lastEventTs := now)
  }

  function ChatBound(l: Link, now: int): Link
  {
    var n := Stamped(l, now);
    if n.pending.None? then n
    else Sent(n.(pending := None), RecoverTask(n.pending.value, n.lastEventTs))
  }

  // task_recovery: the stamp goes again, and the task named is the one tracked.
  function TaskRecovered(l: Link, msgId: string): Link
  {
    var n := l.(lastEventTs := 0);
    if msgId == "" then n else n.(activeMsg := Some(msgId), storedMsg := Some(msgId))
  }

  function TaskOver(l: Link): Link
  {
    l.(activeMsg := None, storedMsg := None, storedChat := None)
  }

  class ChatLink {
    const store: ER.MessageStore
    var connected: bool
    var queue: seq<Message>
    var handed: seq<Message>
    var pendingRecovery: Option<Recovery>
    var activeMsgId: Option<string>
    var storedMsgId: Option<string>
    var storedChatId: Option<string>
    var chatStreams: map<string, Shown>
    var snapshot: Option<Snapshot>
    var lastEventTs: int

    ghost function Abs(): Link
      reads this
    {
      Link(connected, queue, handed, pendingRecovery, activeMsgId, storedMsgId, storedChatId,
           chatStreams, snapshot, lastEventTs)
    }

    constructor (store: ER.MessageStore, storedMsgId: Option<string>, storedChatId: Option<string>,
      snapshot: Option<Snapshot>, lastEventTs: int)
      ensures this.store == store
      ensures Abs() == Link(false, [], [], None, None, storedMsgId, storedChatId, map[], snapshot, lastEventTs)
    {
      this.store := store;
      connected, queue, handed, pendingRecovery, activeMsgId, chatStreams := false, [], [], None, None, map[];
      this.storedMsgId, this.storedChatId := storedMsgId, storedChatId;
      this.snapshot, this.lastEventTs := snapshot, lastEventTs;
    }

    method RawSend(m: Message)
      modifies this`handed
      ensures handed == old(handed) + [m]
    {
      handed := handed + [m];
    }

    method WsSend(m: Message)
      modifies this`queue, this`handed
      ensures Abs() == Sent(old(Abs()), m)
    {
      if connected {
        if |queue| > 0 {
          var waiting := queue;
          queue := [];
          for i := 0 to |waiting|
            invariant queue == [] && handed == old(handed) + waiting[..i]
          {
            RawSend(waiting[i]);
          }
          assert waiting[..|waiting|] == waiting;
        }
        assert handed == old(handed) + old(queue) && queue == [];
        RawSend(m);
      } else {
        var queueable := m.RecoverTask? || (m.kind != "ping" && m.kind != "pong");
        if queueable {
          queue := queue + [m];
        }
      }
    }

    // Returns the task that polling starts for.
    method OnConnectionChange(up: bool, currentChat: Option<string>) returns (polled: Option<string>)
      modifies this`connected, this`snapshot
      ensures Abs() == ConnectionChanged(old(Abs()), up, store.state.isStreaming, currentChat)
      ensures polled ==
        if old(connected) && !up && Given(activeMsgId) && store.state.isStreaming then activeMsgId else None
    {
      var wasConnected := connected;
      connected := up;
      polled := None;
      if !up && wasConnected && Given(activeMsgId) && store.state.isStreaming {
        polled := activeMsgId;
        if Given(currentChat) {
          var cs := if currentChat.value in chatStreams then chatStreams[currentChat.value] else Shown([], []);
          if cs.content != [] {
            snapshot := Some(Snapshot(currentChat.value, cs));
          }
        }
      }
    }

    method Rehydrate(chat: string)
      modifies this`chatStreams, this`snapshot
      ensures Abs() == Rehydrated(old(Abs()), chat)
    {
      if snapshot.Some? && snapshot.value.shown.content != [] && snapshot.value.chatId == chat {
        var snap := snapshot.value.shown;
        var cs := if chat in chatStreams then chatStreams[chat] else Shown([], []);
        if cs.content == [] || |cs.content| < |snap.content| {
          var thinking := if snap.thinking != [] then snap.thinking else cs.thinking;
          chatStreams := chatStreams[chat := Shown(snap.content, thinking)];
        }
        snapshot := None;
      }
    }

    method Arm(msg: string, chat: string)
      modifies this`activeMsgId, this`pendingRecovery, this`chatStreams, this`snapshot
      ensures Abs() == Armed(old(Abs()), msg, chat)
    {
      activeMsgId := Some(msg);
      Rehydrate(chat);
      var meta := MetaOf(if chat in chatStreams then chatStreams[chat] else Shown([], []));
      pendingRecovery := Some(Recovery(msg, chat, meta));
    }

    method CommitOrphan(now: int)
      modifies store
      ensures store.state == ER.ApplyOne(old(store.state), ER.CommitOrClear(old(store.state)), now)
    {
      var m := ER.CommitOrClear(store.state);
      ER.ApplyTwo(store.state, m, m, now);
      store.ApplyMutations([m], now);
    }

    // The effect on a new connection. Returns the chat that bind_chat is sent for, and whether
    // the messages are to be refreshed.
    method OnReconnected(currentChat: Option<string>, now: int) returns (bound: Option<string>, refreshes: bool)
      modifies this`activeMsgId, this`pendingRecovery, this`chatStreams, this`snapshot, store
      ensures Abs() == Reconnected(old(Abs()), currentChat)
      ensures store.state == Rejoined(old(store.state), old(Abs()), currentChat, now)
      ensures bound == Or(currentChat, storedChatId)
      ensures refreshes <==> bound.Some? && !Finds(old(Abs()), currentChat) && !old(store.state).isStreaming
    {
      var effectiveMsgId := Or(activeMsgId, storedMsgId);
      bound := Or(currentChat, storedChatId);
      refreshes := false;
      if bound.None? { return; }
      if effectiveMsgId.Some? {
        store.SetStreaming(true, true);
        Arm(effectiveMsgId.value, bound.value);
      } else if store.state.isStreaming {
        CommitOrphan(now);
      } else {
        refreshes := true;
      }
    }

    // Every event but heartbeats.
    method Stamp(now: int)
      modifies this`lastEventTs
      ensures Abs() == Stamped(old(Abs()), now)
    {
      lastEventTs := now;
    }

    // Says whether the watchdog starts anew.
    method OnChatBound(now: int) returns (resetsWatchdog: bool)
      modifies this`pendingRecovery, this`queue, this`handed, this`lastEventTs
      ensures Abs() == ChatBound(old(Abs()), now)
      ensures resetsWatchdog <==> old(pendingRecovery).Some?
    {
      Stamp(now);
      var pending := pendingRecovery;
      if pending.Some? {
        pendingRecovery := None;
        WsSend(RecoverTask(pending.value, lastEventTs));
      }
      resetsWatchdog := pending.Some?;
    }

    method OnTaskRecovery(msgId: string, now: int)
      modifies this`activeMsgId, this`storedMsgId, this`lastEventTs
      ensures Abs() == TaskRecovered(Stamped(old(Abs()), now), msgId)
    {
      Stamp(now);
      lastEventTs := 0;
      if msgId != "" {
        activeMsgId := Some(msgId);
        storedMsgId := Some(msgId);
      }
    }

    method OnTaskOver()
      modifies this`activeMsgId, this`storedMsgId, this`storedChatId
      ensures Abs() == TaskOver(old(Abs()))
    {
      activeMsgId := None;
      storedMsgId := None;
      storedChatId := None;
    }
  }

  /******* Runs *******/

  datatype Step =
    | Send(kind: string, body: nat)
    | Connection(up: bool, streaming: bool, currentChat: Option<string>)
    | Effect(currentChat: Option<string>) // runs after a connection has come up
    | Arrives(now: int)                   // any other event
    | Bound(now: int)                     // chat_bound arrives
    | Recovers(msgId: string)             // task_recovery arrives
    | Tracks(msgId: string)               // setActiveMsgId, and its copy in local storage
    | Over                                // the task's stream has ended

  function Next(l: Link, a: Step): Link
  {
    match a
    case Send(kind, body) => Sent(l, Data(kind, body))
    case Connection(up, streaming, currentChat) => ConnectionChanged(l, up, streaming, currentChat)
    case Effect(currentChat) => Reconnected(l, currentChat)
    case Arrives(now) => Stamped(l, now)
    case Bound(now) => ChatBound(l, now)
    case Recovers(msgId) => TaskRecovered(l, msgId)
    case Tracks(msgId) => l.(activeMsg := Some(msgId), storedMsg := Some(msgId))
    case Over => TaskOver(l)
  }

  function Run(l: Link, run: seq<Step>): Link
    decreases run
  {
    if run == [] then l else Run(Next(l, run[0]), run[1..])
  }

  // What a step gives to wsSend and wsSend accepts.
  function AcceptedBy(l: Link, a: Step): seq<Message>
  {
    match a
    case Send(kind, body) => if Accepted(l, Data(kind, body)) then [Data(kind, body)] else []
    case Bound(now) => if l.pending.Some? then [RecoverTask(l.pending.value, now)] else []
    case _ => []
  }

  function AllAccepted(l: Link, run: seq<Step>): seq<Message>
    decreases run
  {
    if run == [] then [] else AcceptedBy(l, run[0]) + AllAccepted(Next(l, run[0]), run[1..])
  }

  // Main result: over every run of connections and sends, what was handed to the raw sender
  // followed by the queue is what was accepted, in order, each message once.
  lemma {:induction false} NothingLostOrReordered(l: Link, run: seq<Step>)
    ensures var r := Run(l, run);
      r.handed + r.queue == l.handed + l.queue + AllAccepted(l, run)
    decreases run
  {
    if run == [] {
      assert l.handed + l.queue + [] == l.handed + l.queue;
    } else {
      var n, added, rest := Next(l, run[0]), AcceptedBy(l, run[0]), AllAccepted(Next(l, run[0]), run[1..]);
      assert n.handed + n.queue == l.handed + l.queue + added;
      NothingLostOrReordered(n, run[1..]);
      assert (l.handed + l.queue + added) + rest == l.handed + l.queue + (added + rest);
    }
  }

  // What one send does, by the kind of the message: up, the queue and then the message go
  // out; down, it waits at the end of the queue, unless it is a heartbeat.
  lemma SendsOrQueues(l: Link, kind: string, body: nat)
    ensures var n, m := Next(l, Send(kind, body)), Data(kind, body);
      if l.connected then n.handed == l.handed + l.queue + [m] && n.queue == []
      else if kind == "ping" || kind == "pong" then n == l
      else n.handed == l.handed && n.queue == l.queue + [m]
  {
  }

  // The connection is what was last reported.
  function ConnectedAfter(up: bool, run: seq<Step>): bool
    decreases run
  {
    if run == [] then up else ConnectedAfter(if run[0].Connection? then run[0].up else up, run[1..])
  }

  lemma {:induction false} ConnectedIsReported(l: Link, run: seq<Step>)
    ensures Run(l, run).connected == ConnectedAfter(l.connected, run)
    decreases run
  {
    if run != [] { ConnectedIsReported(Next(l, run[0]), run[1..]); }
  }

  /******* The task that is tracked *******/

  // The id in memory, or failing that the one in local storage; none is empty.
  function TaskOf(l: Link): string
  {
    if l.activeMsg.Some? && l.activeMsg.value != "" then l.activeMsg.value
    else if l.storedMsg.Some? then l.storedMsg.value
    else ""
  }

  // The task after one step: the one it names, none when it is over, the same otherwise.
  function TaskNow(task: string, a: Step): string
  {
    match a
    case Tracks(msgId) => msgId
    case Recovers(msgId) => if msgId != "" then msgId else task
    case Over => ""
    case _ => task
  }

  function TaskAfter(task: string, run: seq<Step>): string
    decreases run
  {
    if run == [] then task else TaskAfter(TaskNow(task, run[0]), run[1..])
  }

  lemma StepTracks(l: Link, a: Step)
    ensures TaskOf(Next(l, a)) == TaskNow(TaskOf(l), a)
  {
  }

  // Main result: over every run of connections and events the task tracked is the last one
  // named, or none when that one is over.
  lemma {:induction false} TaskIsTracked(l: Link, run: seq<Step>)
    ensures TaskOf(Run(l, run)) == TaskAfter(TaskOf(l), run)
    decreases run
  {
    if run != [] {
      StepTracks(l, run[0]);
      TaskIsTracked(Next(l, run[0]), run[1..]);
    }
  }

  // Naming a task names it in local storage too, and its end forgets it in both, with its
  // chat.
  lemma TaskIsStored(l: Link, msgId: string)
    ensures Next(l, Tracks(msgId)).storedMsg == Next(l, Tracks(msgId)).activeMsg == Some(msgId)
    ensures msgId != "" ==> Next(l, Recovers(msgId)).storedMsg == Next(l, Recovers(msgId)).activeMsg == Some(msgId)
    ensures Next(l, Over).storedMsg == Next(l, Over).activeMsg == Next(l, Over).storedChat == None
  {
  }

  // A new connection arms the recovery of the task tracked, in the current chat or failing
  // that the one in local storage; without a task or a chat it arms none.
  lemma EffectArms(l: Link, currentChat: Option<string>)
    ensures var n := Next(l, Effect(currentChat));
      var chat := if currentChat.Some? && currentChat.value != "" then currentChat.value
        else if l.storedChat.Some? then l.storedChat.value else "";
      if TaskOf(l) != "" && chat != "" then
        && n.pending.Some? && n.pending.value.msgId == TaskOf(l) && n.pending.value.chatId == chat
        && n.activeMsg == Some(TaskOf(l))
      else n == l
  {
  }

  /******* Recovery *******/

  function Recoveries(ms: seq<Message>): nat
  {
    if ms == [] then 0 else (if ms[0].RecoverTask? then 1 else 0) + Recoveries(ms[1..])
  }

  lemma {:induction false} RecoveriesAppend(a: seq<Message>, b: seq<Message>)
    ensures Recoveries(a + b) == Recoveries(a) + Recoveries(b)
  {
    if a == [] {
      assert a + b == b;
    } else {
      assert (a + b)[1..] == a[1..] + b;
      RecoveriesAppend(a[1..], b);
    }
  }

  // Reconnections that find a task to recover.
  function Arms(l: Link, run: seq<Step>): nat
    decreases run
  {
    if run == [] then 0
    else
      (if run[0].Effect? && Finds(l, run[0].currentChat) then 1 else 0) + Arms(Next(l, run[0]), run[1..])
  }

  // Between two such reconnections: one recover_task if one was pending and chat_bound
  // comes, and none otherwise.
  lemma {:induction false} OneRecoveryPerReconnect(l: Link, run: seq<Step>)
    requires Arms(l, run) == 0
    ensures Recoveries(AllAccepted(l, run)) == if l.pending.Some? && (exists a :: a in run && a.Bound?) then 1 else 0
    decreases run
  {
    if run != [] {
      var n := Next(l, run[0]);
      OneRecoveryPerReconnect(n, run[1..]);
      RecoveriesAppend(AcceptedBy(l, run[0]), AllAccepted(n, run[1..]));
      assert forall a :: a in run <==> a == run[0] || a in run[1..];
    }
  }

  function Waiting(l: Link): nat
  {
    if l.pending.Some? then 1 else 0
  }

  lemma StepArms(l: Link, a: Step)
    ensures Recoveries(AcceptedBy(l, a)) + Waiting(Next(l, a))
      <= (if a.Effect? && Finds(l, a.currentChat) then 1 else 0) + Waiting(l)
  {
  }

  // Main result: over every run, at most one recover_task per reconnection that finds a
  // task, counting the one that may be pending at the start.
  lemma {:induction false} RecoveriesBounded(l: Link, run: seq<Step>)
    ensures Recoveries(AllAccepted(l, run)) + Waiting(Run(l, run)) <= Arms(l, run) + Waiting(l)
    decreases run
  {
    if run != [] {
      var n := Next(l, run[0]);
      StepArms(l, run[0]);
      RecoveriesBounded(n, run[1..]);
      RecoveriesAppend(AcceptedBy(l, run[0]), AllAccepted(n, run[1..]));
    }
  }

  /******* What a recovery carries *******/

  // Every recover_task of a run, with the time at which its chat_bound was handled.
  function Bounds(run: seq<Step>): seq<int>
  {
    if run == [] then [] else (if run[0].Bound? then [run[0].now] else []) + Bounds(run[1..])
  }

  // Main result: handling chat_bound stamps it first, so the lastEventTs that every
  // recover_task carries is the time of that chat_bound itself; when the last event before
  // the connection was lost came is not told.
  lemma {:induction false} RecoveryTellsItsOwnTime(l: Link, run: seq<Step>)
    ensures forall m :: m in AllAccepted(l, run) && m.RecoverTask? ==> m.lastEventTs in Bounds(run)
    decreases run
  {
    if run != [] {
      RecoveryTellsItsOwnTime(Next(l, run[0]), run[1..]);
      forall m | m in AllAccepted(l, run) && m.RecoverTask? ensures m.lastEventTs in Bounds(run) {
        assert m in AcceptedBy(l, run[0]) || m in AllAccepted(Next(l, run[0]), run[1..]);
      }
    }
  }

  function WithoutArrivals(run: seq<Step>): seq<Step>
  {
    if run == [] then [] else (if run[0].Arrives? then [] else [run[0]]) + WithoutArrivals(run[1..])
  }

  // What a step other than an arrival makes of the stamp.
  function StampAfter(x: int, a: Step): int
  {
    if a.Bound? then a.now else if a.Recovers? then 0 else x
  }

  lemma ConnectionMindsNoStamp(l: Link, x: int, up: bool, streaming: bool, currentChat: Option<string>)
    ensures ConnectionChanged(Stamped(l, x), up, streaming, currentChat)
      == Stamped(ConnectionChanged(l, up, streaming, currentChat), x)
  {
  }

  lemma ReconnectedMindsNoStamp(l: Link, x: int, currentChat: Option<string>)
    ensures Reconnected(Stamped(l, x), currentChat) == Stamped(Reconnected(l, currentChat), x)
  {
    if Finds(l, currentChat) {
      var chat := Or(currentChat, l.storedChat).value;
      assert Rehydrated(Stamped(l, x), chat) == Stamped(Rehydrated(l, chat), x);
    }
  }

  lemma StepMindsNoStamp(l: Link, x: int, a: Step)
    requires !a.Arrives?
    ensures AcceptedBy(Stamped(l, x), a) == AcceptedBy(l, a)
    ensures Next(Stamped(l, x), a) == Stamped(Next(l, a), StampAfter(x, a))
  {
    match a {
      case Connection(up, streaming, currentChat) => ConnectionMindsNoStamp(l, x, up, streaming, currentChat);
      case Effect(currentChat) => ReconnectedMindsNoStamp(l, x, currentChat);
      case _ =>
    }
  }

  // And so nothing that is sent depends on when, or whether, any other event came.
  lemma {:induction false} StampsAreUnused(l: Link, x: int, run: seq<Step>)
    ensures AllAccepted(Stamped(l, x), WithoutArrivals(run)) == AllAccepted(l, run)
    decreases run
  {
    if run != [] {
      var rest := WithoutArrivals(run[1..]);
      if run[0].Arrives? {
        StampsAreUnused(Stamped(l, run[0].now), x, run[1..]);
        assert [] + rest == rest && [] + AllAccepted(Next(l, run[0]), run[1..]) == AllAccepted(l, run);
      } else {
        StepMindsNoStamp(l, x, run[0]);
        StampsAreUnused(Next(l, run[0]), StampAfter(x, run[0]), run[1..]);
        assert ([run[0]] + rest)[1..] == rest;
      }
    }
  }

  /******* Snapshots *******/

  // A snapshot of the chat that is connected again goes back to its stream if it is longer
  // than what is there, keeps the thinking that is there if it has none, and is used up; a
  // snapshot of another chat stays where it is.
  lemma SnapshotComesBack(l: Link, snap: Snapshot, chat: string)
    requires l.snapshot == Some(snap) && snap.shown.content != []
    ensures var n, known := Rehydrated(l, chat), StreamOf(l, chat);
      if snap.chatId != chat then n == l
      else
        && n.snapshot == None
        && (|snap.shown.content| > |known.content| ==>
            && StreamOf(n, chat).content == snap.shown.content
            && StreamOf(n, chat).thinking == if snap.shown.thinking != [] then snap.shown.thinking else known.thinking)
        && (|snap.shown.content| <= |known.content| ==> StreamOf(n, chat) == known)
        && forall other :: other != chat ==> StreamOf(n, other) == StreamOf(l, other)
  {
  }

  // Losing the connection in the middle of a task's stream saves the chat's text, if it has
  // any, and nothing else is saved.
  lemma LossSaves(l: Link, streaming: bool, chat: string)
    ensures var n := Next(l, Connection(false, streaming, Some(chat)));
      var saves := l.connected && streaming && chat != "" && l.activeMsg.Some? && l.activeMsg.value != "";
      n.snapshot ==
        if saves && StreamOf(l, chat).content != [] then Some(Snapshot(chat, StreamOf(l, chat))) else l.snapshot
  {
  }

  // The hash's second number: ink counts one by one, and each run of white space once.
  lemma {:induction false} CollapsedCounts(space: Text, ink: CodeUnit, rest: Text)
    requires (forall i :: 0 <= i < |space| ==> IsSpace(space[i])) && !IsSpace(ink)
    ensures Collapsed(space + [ink] + rest) == (if space == [] then 0 else 1) + 1 + Collapsed(rest)
    ensures Collapsed(space) == if space == [] then 0 else 1
    decreases space
  {
    var t := space + [ink] + rest;
    if space == [] {
      assert t[0] == ink && t[1..] == rest;
    } else {
      CollapsedCounts(space[1..], ink, rest);
      assert t[1..] == space[1..] + [ink] + rest;
    }
  }

  // And of what: of the last 32 characters of both texts with a bar between.
  lemma MetaIsOf(s: Shown)
    ensures var meta, text := MetaOf(s), s.content + [0x7C] + s.thinking;
      && meta.total == |s.content| + 1 + |s.thinking| && meta.lastChunkSeq == |s.content|
      && (|text| <= 32 ==> meta.tail == Collapsed(text))
      && (|text| > 32 ==> meta.tail == Collapsed(text[|text| - 32..]))
  {
    assert BAR == [0x7C];
  }

  // No text is kept for any chat, nor in local storage, nor told in a recovery under way.
  ghost predicate NothingKept(l: Link)
  {
    && (forall chat :: chat in l.streams ==> l.streams[chat].content == [] && l.streams[chat].thinking == [])
    && l.snapshot == None
    && (l.pending.Some? ==> l.pending.value.meta == Meta(1, 1, 0))
  }

  lemma MetaOfNothing()
    ensures MetaOf(Shown([], [])) == Meta(1, 1, 0)
  {
    assert [] + BAR + [] == BAR == [0x7C];
    assert Collapsed([0x7C]) == 1;
  }

  lemma StepKeepsNothing(l: Link, a: Step)
    requires NothingKept(l)
    ensures NothingKept(Next(l, a))
  {
    if a.Effect? { MetaOfNothing(); }
  }

  // Main result: streaming writes to no chat's stream, so a page that starts without a
  // snapshot never saves one, restores none, and recovers with sequence 0 and the hash of
  // no text, whatever has been shown.
  lemma {:induction false} SnapshotsAreInert(l: Link, run: seq<Step>)
    requires NothingKept(l)
    ensures NothingKept(Run(l, run))
    ensures forall m :: m in AllAccepted(l, run) && m.RecoverTask? ==> m.recovery.meta == Meta(1, 1, 0)
    decreases run
  {
    if run != [] {
      StepKeepsNothing(l, run[0]);
      SnapshotsAreInert(Next(l, run[0]), run[1..]);
      forall m | m in AllAccepted(l, run) && m.RecoverTask? ensures m.recovery.meta == Meta(1, 1, 0) {
        assert m in AcceptedBy(l, run[0]) || m in AllAccepted(Next(l, run[0]), run[1..]);
      }
    }
  }

  /******* A stream across a reconnection *******/

  // A task to recover turns the stream on and changes nothing else; without a chat nothing
  // is done at all.
  lemma RejoinTurnsOn(s: ER.Store, l: Link, currentChat: Option<string>, now: int)
    ensures Or(currentChat, l.storedChat).None? ==> Rejoined(s, l, currentChat, now) == s
    ensures Finds(l, currentChat) ==> Rejoined(s, l, currentChat, now) == s.(isStreaming := true)
    ensures !Finds(l, currentChat) && Or(currentChat, l.storedChat).Some? ==>
      !Rejoined(s, l, currentChat, now).isStreaming
  {
  }

  // Text that is not blank survives a new connection exactly unless its stream is an orphan
  // and the text repeats the last message without being in it.
  lemma RejoinSurvivesIff(s: ER.Store, l: Link, currentChat: Option<string>, now: int)
    requires !IsBlank(s.streaming)
    ensures ER.Survives(s, Rejoined(s, l, currentChat, now)) <==>
      !(&& Or(currentChat, l.storedChat).Some? && !Finds(l, currentChat) && s.isStreaming
        && ER.Duplicates(s.messages, s.streaming) && !ER.Holds(s.messages, s.streaming))
  {
  }
}

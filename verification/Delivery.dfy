/** The offline queue above the WebSocket manager: which messages handed to the raw sender reach
    an open socket. The raw sender drops the others. */
module Delivery {
  import opened Wrappers
  import opened WebSocketManager
  import opened WebSocketSafety
  import OQ = OfflineQueue

  // wsSend takes the connection for up, and the raw sender finds no open socket.
  predicate Lossy(m: Manager)
  {
    m.state == Connected && !IsOpen(m)
  }

  // What Inv does not say. Who is connected has been, and not closed on purpose; an open
  // current socket has its handlers, is pinged, shows as connected and leaves no attempts
  // counted; closed on purpose shows as disconnected, and a pending timer, once there was a
  // connection, as reconnecting.
  predicate Sound(m: Manager)
  {
    && (m.state == Connected ==> m.hadConnection && !m.intentionalClose)
    && (IsOpen(m) ==> CurrentLive(m) && m.heartbeatTimer && m.state == Connected && m.attempt == 0)
    && (m.intentionalClose ==> m.state == Disconnected)
    && (m.reconnectTimer && m.hadConnection ==> m.state == Reconnecting)
  }

  // A socket that lost its handlers was closed then, and is not connecting.
  ghost predicate Mute(m: Manager)
  {
    forall i :: 0 <= i < |m.sockets| ==> WellMuted(m.sockets[i])
  }

  predicate WellMuted(s: Socket)
  {
    !s.handlers ==> s.ready in {Closing, Closed}
  }

  ghost predicate Known(m: Manager, maxAttempts: nat)
  {
    Inv(m, maxAttempts) && Sound(m) && Mute(m)
  }

  // The steps that break an open connection without its close event: a pong that is
  // missing, and a connect by whoever calls it.
  predicate Breaks(m: Manager, a: Step)
  {
    m.state == Connected && (a.PongFires? || (a.Connect? && a.created))
  }

  // What a step makes of the connection.
  ghost predicate Leads(m: Manager, n: Manager, breaks: bool)
  {
    Sound(n) && Mute(n) && (!Lossy(m) ==> (Lossy(n) <==> breaks))
  }

  lemma ConnectsMute(m: Manager, maxAttempts: nat, created: bool)
    requires Mute(m)
    ensures Mute(Connects(m, maxAttempts, created))
  {
    var s := Discarded(m);
    assert forall i :: 0 <= i < |s| ==> WellMuted(s[i]);
  }

  lemma ConnectsLeads(m: Manager, maxAttempts: nat, created: bool)
    requires m.ws.Some? ==> m.ws.value < |m.sockets|
    requires m.state == Connected ==> m.hadConnection
    ensures var n := Connects(m, maxAttempts, created);
      Sound(n) && !IsOpen(n) && (Lossy(n) <==> m.state == Connected && created)
  {
  }

  lemma ConnectLeads(m: Manager, maxAttempts: nat, created: bool)
    requires Known(m, maxAttempts)
    ensures Leads(m, Connects(m, maxAttempts, created), m.state == Connected && created)
  {
    ConnectsMute(m, maxAttempts, created);
    ConnectsLeads(m, maxAttempts, created);
  }

  lemma TimerLeads(m: Manager, maxAttempts: nat, created: bool)
    requires Known(m, maxAttempts) && m.reconnectTimer
    ensures Leads(m, TimerReconnects(m, maxAttempts, created), false)
  {
    var k := m.(reconnectTimer := false, attempt := m.attempt + 1);
    ConnectsMute(k, maxAttempts, created);
    ConnectsLeads(k, maxAttempts, created);
  }

  lemma OnlineLeads(m: Manager, maxAttempts: nat, created: bool)
    requires Known(m, maxAttempts)
    ensures Leads(m, CameOnline(m, maxAttempts, created), false)
  {
    var k := m.(attempt := 0, reconnectTimer := false);
    ConnectsMute(k, maxAttempts, created);
    ConnectsLeads(k, maxAttempts, created);
  }

  lemma VisibleLeads(m: Manager, maxAttempts: nat, created: bool)
    requires Known(m, maxAttempts)
    ensures Leads(m, BecameVisible(m, maxAttempts, created), false)
  {
    var k := m.(visibilityTimer := false, attempt := 0, reconnectTimer := false);
    ConnectsMute(k, maxAttempts, created);
    ConnectsLeads(k, maxAttempts, created);
  }

  lemma SetReadyMute(m: Manager, id: nat, ready: ReadyState)
    requires Mute(m) && id < |m.sockets| && (ready == Open ==> m.sockets[id].ready == Connecting)
    requires ready != Connecting
    ensures Mute(SetReady(m, id, ready))
  {
    assert WellMuted(m.sockets[id]);
  }

  lemma OpensLeads(m: Manager, id: nat, maxAttempts: nat)
    requires Known(m, maxAttempts) && Enabled(m, Opens(id))
    ensures Leads(m, Opened(m, id), false)
  {
    SetReadyMute(m, id, Open);
    assert WellMuted(m.sockets[id]);
    assert Live(m, id);
  }

  lemma ClosesLeads(m: Manager, id: nat, code: int, maxAttempts: nat)
    requires Known(m, maxAttempts) && Enabled(m, Closes(id, code))
    ensures Leads(m, ClosedBy(m, id, code, maxAttempts), false)
  {
    SetReadyMute(m, id, Closed);
  }

  lemma PongFiresLeads(m: Manager, maxAttempts: nat)
    requires Known(m, maxAttempts)
    ensures Leads(m, PongTimedOut(m), m.state == Connected)
  {
    if IsOpen(m) { SetReadyMute(m.(pongTimer := None), m.ws.value, Closing); }
  }

  lemma DisconnectLeads(m: Manager, maxAttempts: nat)
    requires Known(m, maxAttempts)
    ensures Leads(m, Disconnects(m), false)
  {
  }

  lemma QuietLeads(m: Manager, a: Step, maxAttempts: nat)
    requires Known(m, maxAttempts) && Enabled(m, a)
    requires a.Pong? || a.HeartbeatFires? || a.TabVisible? || a.TabHidden?
    ensures Leads(m, Next(m, a, maxAttempts), false)
  {
  }

  lemma StepLeads(m: Manager, a: Step, maxAttempts: nat)
    requires Known(m, maxAttempts) && Enabled(m, a)
    ensures Leads(m, Next(m, a, maxAttempts), Breaks(m, a))
  {
    match a {
      case Connect(created) => ConnectLeads(m, maxAttempts, created);
      case Disconnect => DisconnectLeads(m, maxAttempts);
      case Opens(id) => OpensLeads(m, id, maxAttempts);
      case Closes(id, code) => ClosesLeads(m, id, code, maxAttempts);
      case ReconnectFires(created) => TimerLeads(m, maxAttempts, created);
      case PongFires => PongFiresLeads(m, maxAttempts);
      case Online(created) => OnlineLeads(m, maxAttempts, created);
      case VisibleFires(created) => VisibleLeads(m, maxAttempts, created);
      case _ => QuietLeads(m, a, maxAttempts);
    }
  }

  // Main result, one step: from a state in which nothing would be lost the step leads to one
  // in which messages are lost exactly when it breaks the connection.
  lemma LossyAfterIff(m: Manager, a: Step, maxAttempts: nat)
    requires Known(m, maxAttempts) && Enabled(m, a) && Safe(m, a) && !Lossy(m)
    ensures Lossy(Next(m, a, maxAttempts)) <==> Breaks(m, a)
    ensures Known(Next(m, a, maxAttempts), maxAttempts)
  {
    StepKeepsInv(m, a, maxAttempts);
    StepLeads(m, a, maxAttempts);
  }

  lemma {:induction false} RunKeepsKnown(m: Manager, run: seq<Step>, maxAttempts: nat)
    requires Known(m, maxAttempts) && Possible(m, run, maxAttempts)
    ensures Known(Run(m, run, maxAttempts), maxAttempts)
    decreases run
  {
    if run != [] {
      StepKeepsInv(m, run[0], maxAttempts);
      StepLeads(m, run[0], maxAttempts);
      RunKeepsKnown(Next(m, run[0], maxAttempts), run[1..], maxAttempts);
    }
  }

  // Main result: in every reachable state an open current socket is pinged, shows as
  // connected and has reset the attempts, and what else is shown is so.
  lemma ShownIsSo(created: bool, run: seq<Step>, maxAttempts: nat)
    requires Possible(Connects(Initial, maxAttempts, created), run, maxAttempts)
    ensures Sound(Run(Connects(Initial, maxAttempts, created), run, maxAttempts))
  {
    ConnectsKeeps(Initial, maxAttempts, created);
    ConnectsLeads(Initial, maxAttempts, created);
    ConnectsMute(Initial, maxAttempts, created);
    RunKeepsKnown(Connects(Initial, maxAttempts, created), run, maxAttempts);
  }

  /******* Messages over runs *******/

  // The manager, the queue above it, and the messages that reached an open socket.
  datatype Both = Both(m: Manager, l: OQ.Link, reached: seq<OQ.Message>)

  datatype Event =
    | Net(step: Step)      // a step of the manager, which reports its state
    | Chat(call: OQ.Step)  // a step of the queue other than that report

  predicate Happens(b: Both, e: Event)
  {
    match e
    case Net(a) => Enabled(b.m, a)
    case Chat(a) => !a.Connection?
  }

  // What a step hands to the raw sender.
  function HandedBy(l: OQ.Link, n: OQ.Link): seq<OQ.Message>
  {
    if |l.handed| <= |n.handed| then n.handed[|l.handed|..] else []
  }

  function After(b: Both, e: Event, maxAttempts: nat): Both
    requires Happens(b, e)
  {
    match e
    case Net(a) =>
      var n := Next(b.m, a, maxAttempts);
      b.(m := n, l := b.l.(connected := n.state == Connected))
    case Chat(a) =>
      var n := OQ.Next(b.l, a);
      b.(l := n, reached := b.reached + if IsOpen(b.m) then HandedBy(b.l, n) else [])
  }

  // A run in which nothing breaks an open connection without its close event.
  ghost predicate Unbroken(b: Both, es: seq<Event>, maxAttempts: nat)
    decreases es
  {
    es == [] ||
    (&& Happens(b, es[0])
     && (es[0].Net? ==> Safe(b.m, es[0].step) && !Breaks(b.m, es[0].step))
     && Unbroken(After(b, es[0], maxAttempts), es[1..], maxAttempts))
  }

  ghost function AfterAll(b: Both, es: seq<Event>, maxAttempts: nat): Both
    requires Unbroken(b, es, maxAttempts)
    decreases es
  {
    if es == [] then b else AfterAll(After(b, es[0], maxAttempts), es[1..], maxAttempts)
  }

  ghost predicate InStep(b: Both, maxAttempts: nat)
  {
    && Known(b.m, maxAttempts) && !Lossy(b.m)
    && (b.l.connected <==> b.m.state == Connected)
    && b.reached == b.l.handed
  }

  lemma ChatHandsOver(l: OQ.Link, a: OQ.Step)
    requires !a.Connection?
    ensures var n := OQ.Next(l, a);
      && n.connected == l.connected && n.handed == l.handed + HandedBy(l, n)
      && (HandedBy(l, n) != [] ==> l.connected)
  {
    if a.Bound? && l.pending.Some? {
      OQ.SentHands(OQ.Stamped(l, a.now).(pending := None), OQ.RecoverTask(l.pending.value, a.now));
    } else if a.Send? {
      OQ.SentHands(l, OQ.Data(a.kind, a.body));
    }
  }

  lemma EventInStep(b: Both, e: Event, maxAttempts: nat)
    requires InStep(b, maxAttempts) && Happens(b, e)
    requires e.Net? ==> Safe(b.m, e.step) && !Breaks(b.m, e.step)
    ensures InStep(After(b, e, maxAttempts), maxAttempts)
  {
    match e {
      case Net(a) => LossyAfterIff(b.m, a, maxAttempts);
      case Chat(a) => ChatHandsOver(b.l, a);
    }
  }

  // Main result: over every run of the manager and the queue in which no pong is missed and
  // nobody connects over an open connection, every message handed to the raw sender reaches
  // an open socket.
  lemma {:induction false} AllReach(b: Both, es: seq<Event>, maxAttempts: nat)
    requires InStep(b, maxAttempts) && Unbroken(b, es, maxAttempts)
    ensures var r := AfterAll(b, es, maxAttempts); r.reached == r.l.handed && InStep(r, maxAttempts)
    decreases es
  {
    if es != [] {
      EventInStep(b, es[0], maxAttempts);
      AllReach(After(b, es[0], maxAttempts), es[1..], maxAttempts);
    }
  }

  // From the first connect on, with anything in the queue.
  lemma AllReachFromStart(created: bool, l: OQ.Link, es: seq<Event>, maxAttempts: nat)
    requires l.handed == [] && !l.connected
    requires Unbroken(Both(Connects(Initial, maxAttempts, created), l, []), es, maxAttempts)
    ensures var r := AfterAll(Both(Connects(Initial, maxAttempts, created), l, []), es, maxAttempts);
      r.reached == r.l.handed
  {
    ConnectsKeeps(Initial, maxAttempts, created);
    ConnectsLeads(Initial, maxAttempts, created);
    ConnectsMute(Initial, maxAttempts, created);
    AllReach(Both(Connects(Initial, maxAttempts, created), l, []), es, maxAttempts);
  }

  // Where it ends: once the connection is broken, the next message and all that waited with
  // it are handed over, taken off the queue, and lost.
  lemma BrokenLosesMessages(b: Both, a: Step, kind: string, body: nat, maxAttempts: nat)
    requires InStep(b, maxAttempts) && Enabled(b.m, a) && Safe(b.m, a) && Breaks(b.m, a)
    ensures var n := After(b, Net(a), maxAttempts);
      var r := After(n, Chat(OQ.Send(kind, body)), maxAttempts);
      && r.l.handed == b.l.handed + b.l.queue + [OQ.Data(kind, body)] && r.l.queue == []
      && r.reached == b.reached
  {
    LossyAfterIff(b.m, a, maxAttempts);
    if a.PongFires? {
      assert Next(b.m, a, maxAttempts).state == Connected;
    } else {
      ConnectsLeads(b.m, maxAttempts, true);
    }
  }
}

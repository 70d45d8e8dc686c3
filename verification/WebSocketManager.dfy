/** useWebSocket: one socket, its timers, and reconnection. Every socket ever created stays
    in the model, because a discarded one can still deliver events to its handlers. */
module WebSocketManager {
  import Rounding
  import opened Wrappers

  datatype ReadyState = Connecting | Open | Closing | Closed

  datatype Socket = Socket(ready: ReadyState, handlers: bool)

  datatype ConnectionState = Connected | Disconnected | Reconnecting

  datatype Manager = Manager(
    sockets: seq<Socket>, ws: Option<nat>,
    reconnectTimer: bool, heartbeatTimer: bool, pongTimer: Option<nat>, visibilityTimer: bool,
    attempt: nat, intentionalClose: bool, hadConnection: bool,
    state: ConnectionState, neverConnectedFailed: bool)

  const Initial := Manager([], None, false, false, None, false, 0, false, false, Disconnected, false)

  /******* The manager's functions *******/

  function TimersCleared(m: Manager): Manager
  {
    m.(reconnectTimer := false, heartbeatTimer := false, pongTimer := None)
  }

  function ScheduledReconnect(m: Manager, maxAttempts: nat): Manager
  {
    if m.intentionalClose || m.reconnectTimer then m
    else if m.attempt >= maxAttempts && !m.hadConnection then m.(state := Disconnected, neverConnectedFailed := true)
    else m.(reconnectTimer := true, state := if m.hadConnection then Reconnecting else m.state)
  }

  function IsOpen(m: Manager): bool
  {
    m.ws.Some? && m.ws.value < |m.sockets| && m.sockets[m.ws.value].ready == Open
  }

  function Close(s: Socket): Socket
  {
    if s.ready == Closed then s else s.(ready := Closing)
  }

  // The current socket loses its handlers and is closed.
  function Discarded(m: Manager): seq<Socket>
  {
    if m.ws.Some? && m.ws.value < |m.sockets| then
      m.sockets[m.ws.value := Close(m.sockets[m.ws.value]).(handlers := false)]
    else m.sockets
  }

  // created: whether the WebSocket constructor succeeds.
  function Connects(m: Manager, maxAttempts: nat, created: bool): Manager
  {
    var n := TimersCleared(m).(sockets := Discarded(m), intentionalClose := false);
    if created then n.(sockets := n.sockets + [Socket(Connecting, true)], ws := Some(|n.sockets|))
    else ScheduledReconnect(n, maxAttempts)
  }

  function Disconnects(m: Manager): Manager
  {
    var n := TimersCleared(m).(intentionalClose := true, state := Disconnected, ws := None);
    if m.ws.Some? && m.ws.value < |m.sockets| then
      n.(sockets := m.sockets[m.ws.value := Close(m.sockets[m.ws.value])])
    else n
  }

  // Online, and the tab becoming visible: start over at once.
  function ForcesReconnect(m: Manager, maxAttempts: nat, created: bool): Manager
  {
    Connects(m.(attempt := 0, reconnectTimer := false), maxAttempts, created)
  }

  function BaseDelay(attempt: nat, maxAttempts: nat): real
  {
    if attempt >= maxAttempts then 30000.0 else Rounding.Min(1000.0 * Rounding.Pow2(attempt) as real, 30000.0)
  }

  // A wait lies between its base, in whole milliseconds, and a fifth more; so every wait lies
  // between one second and 36.
  ghost predicate WaitsFor(delay: int, attempt: nat, maxAttempts: nat)
  {
    BaseDelay(attempt, maxAttempts) <= delay as real <= 1.2 * BaseDelay(attempt, maxAttempts)
  }

  lemma DelayBounds(attempt: nat, maxAttempts: nat, random: real)
    requires 0.0 <= random < 1.0
    ensures WaitsFor(Rounding.Jittered(BaseDelay(attempt, maxAttempts), random), attempt, maxAttempts)
    ensures 1000 <= Rounding.Jittered(BaseDelay(attempt, maxAttempts), random) <= 36000
  {
    var seconds := WholeBase(attempt, maxAttempts);
    Rounding.JitterOfSeconds(seconds, random);
    assert 1.2 * BaseDelay(attempt, maxAttempts) == (1200 * seconds) as real;
  }

  // The base is a whole number of seconds.
  lemma WholeBase(attempt: nat, maxAttempts: nat) returns (seconds: nat)
    ensures 1 <= seconds <= 30 && BaseDelay(attempt, maxAttempts) == 1000.0 * seconds as real
  {
    seconds := if attempt >= maxAttempts || Rounding.Pow2(attempt) > 30 then 30 else Rounding.Pow2(attempt);
  }

  /******* The steps *******/

  datatype Step =
    | Connect(created: bool)
    | Disconnect
    | Opens(id: nat)
    | Closes(id: nat, code: int)
    | Pong(id: nat)
    | ReconnectFires(created: bool)
    | HeartbeatFires
    | PongFires
    | Online(created: bool)
    | TabVisible
    | TabHidden
    | VisibleFires(created: bool)

  predicate Enabled(m: Manager, a: Step)
  {
    match a
    case Opens(id) => id < |m.sockets| && m.sockets[id].ready == Connecting
    case Closes(id, _) => id < |m.sockets| && m.sockets[id].ready != Closed
    case Pong(id) => id < |m.sockets| && m.sockets[id].ready in {Open, Closing}
    case ReconnectFires(_) => m.reconnectTimer
    case HeartbeatFires => m.heartbeatTimer
    case PongFires => m.pongTimer.Some?
    case VisibleFires(_) => m.visibilityTimer
    case _ => true
  }

  function SetReady(m: Manager, id: nat, ready: ReadyState): Manager
    requires id < |m.sockets|
  {
    m.(sockets := m.sockets[id := m.sockets[id].(ready := ready)])
  }

  function Opened(m: Manager, id: nat): Manager
    requires id < |m.sockets|
  {
    var n := SetReady(m, id, Open);
    if !m.sockets[id].handlers then n
    else n.(attempt := 0, hadConnection := true, state := Connected, heartbeatTimer := true)
  }

  function ClosedBy(m: Manager, id: nat, code: int, maxAttempts: nat): Manager
    requires id < |m.sockets|
  {
    var n := SetReady(m, id, Closed);
    if !m.sockets[id].handlers then n
    else if m.intentionalClose then TimersCleared(n).(state := Disconnected)
    else
      var attempt := if code == 1012 || code == 1013 then 0 else m.attempt;
      ScheduledReconnect(TimersCleared(n).(attempt := attempt), maxAttempts)
  }

  function PongTimedOut(m: Manager): Manager
  {
    var n := m.(pongTimer := None);
    if IsOpen(m) then SetReady(n, m.ws.value, Closing) else n
  }

  function CameOnline(m: Manager, maxAttempts: nat, created: bool): Manager
  {
    if !m.intentionalClose && !IsOpen(m) then ForcesReconnect(m, maxAttempts, created) else m
  }

  function BecameVisible(m: Manager, maxAttempts: nat, created: bool): Manager
  {
    var n := m.(visibilityTimer := false);
    if !IsOpen(m) then ForcesReconnect(n, maxAttempts, created) else n
  }

  function TimerReconnects(m: Manager, maxAttempts: nat, created: bool): Manager
  {
    Connects(m.(reconnectTimer := false, attempt := m.attempt + 1), maxAttempts, created)
  }

  function Next(m: Manager, a: Step, maxAttempts: nat): Manager
    requires Enabled(m, a)
  {
    match a
    case Connect(created) => Connects(m, maxAttempts, created)
    case Disconnect => Disconnects(m)
    case Opens(id) => Opened(m, id)
    case Closes(id, code) => ClosedBy(m, id, code, maxAttempts)
    case Pong(id) => if m.sockets[id].handlers then m.(pongTimer := None) else m
    case ReconnectFires(created) => TimerReconnects(m, maxAttempts, created)
    case HeartbeatFires => if IsOpen(m) then m.(pongTimer := m.ws) else m
    case PongFires => PongTimedOut(m)
    case Online(created) => CameOnline(m, maxAttempts, created)
    case TabVisible => if !m.intentionalClose then m.(visibilityTimer := true) else m
    case TabHidden => m.(visibilityTimer := false)
    case VisibleFires(created) => BecameVisible(m, maxAttempts, created)
  }

  /******* The hook *******/

  class UseWebSocket {
    const maxReconnectAttempts: nat
    var sockets: seq<Socket>
    var ws: Option<nat>
    var reconnectTimer: bool
    var heartbeatTimer: bool
    var pongTimer: Option<nat>
    var visibilityTimer: bool
    var reconnectAttempt: nat
    var intentionalClose: bool
    var hadConnection: bool
    var state: ConnectionState
    var neverConnectedFailed: bool
    var delay: int // of the last reconnect timer set
    var boundChat: Option<string>

    ghost function Abs(): Manager
      reads this
    {
      Manager(sockets, ws, reconnectTimer, heartbeatTimer, pongTimer, visibilityTimer,
              reconnectAttempt, intentionalClose, hadConnection, state, neverConnectedFailed)
    }

    constructor (maxReconnectAttempts: nat := 20)
      ensures Abs() == Initial && boundChat == None && this.maxReconnectAttempts == maxReconnectAttempts
    {
      this.maxReconnectAttempts := maxReconnectAttempts;
      sockets, ws, reconnectTimer, heartbeatTimer, pongTimer, visibilityTimer := [], None, false, false, None, false;
      reconnectAttempt, intentionalClose, hadConnection := 0, false, false;
      state, neverConnectedFailed, delay, boundChat := Disconnected, false, 0, None;
    }

    method ClearTimers()
      modifies this`reconnectTimer, this`heartbeatTimer, this`pongTimer
      ensures Abs() == TimersCleared(old(Abs()))
    {
      if reconnectTimer { reconnectTimer := false; }
      if heartbeatTimer { heartbeatTimer := false; }
      if pongTimer.Some? { pongTimer := None; }
    }

    method ScheduleReconnect(random: real)
      requires 0.0 <= random < 1.0
      modifies this`state, this`neverConnectedFailed, this`delay, this`reconnectTimer
      ensures Abs() == ScheduledReconnect(old(Abs()), maxReconnectAttempts)
      ensures reconnectTimer && !old(reconnectTimer) ==> WaitsFor(delay, reconnectAttempt, maxReconnectAttempts)
    {
      if intentionalClose { return; }
      if reconnectTimer { return; }
      var isLowFreqMode := reconnectAttempt >= maxReconnectAttempts;
      if isLowFreqMode && !hadConnection {
        state := Disconnected;
        neverConnectedFailed := true;
        return;
      }
      if hadConnection { state := Reconnecting; }
      DelayBounds(reconnectAttempt, maxReconnectAttempts, random);
      delay := Rounding.Jittered(BaseDelay(reconnectAttempt, maxReconnectAttempts), random);
      reconnectTimer := true;
    }

    method Connect(created: bool, random: real)
      requires 0.0 <= random < 1.0
      modifies this
      ensures Abs() == Next(old(Abs()), Step.Connect(created), maxReconnectAttempts)
    {
      if ws.Some? && ws.value < |sockets| {
        var previous := sockets[ws.value].(handlers := false);
        if previous.ready == Open || previous.ready == Connecting {
          previous := previous.(ready := Closing);
        }
        sockets := sockets[ws.value := previous];
      }
      ClearTimers();
      intentionalClose := false;
      if created {
        ws := Some(|sockets|);
        sockets := sockets + [Socket(Connecting, true)];
      } else {
        ScheduleReconnect(random);
      }
    }

    // bindChat: remembered for every later opening; says whether bind_chat goes out now.
    method BindChat(chatId: string) returns (sent: bool)
      modifies this`boundChat
      ensures boundChat == Some(chatId) && sent == IsOpen(Abs())
    {
      boundChat := Some(chatId);
      sent := ws.Some? && ws.value < |sockets| && sockets[ws.value].ready == Open;
    }

    // Returns the chat that bind_chat is sent for, unasked.
    method OnOpen(id: nat) returns (rebound: Option<string>)
      requires id < |sockets| && sockets[id].ready == Connecting
      modifies this
      ensures Abs() == Next(old(Abs()), Opens(id), maxReconnectAttempts) && boundChat == old(boundChat)
      ensures rebound == if old(sockets)[id].handlers && boundChat != Some("") then boundChat else None
    {
      rebound := None;
      sockets := sockets[id := sockets[id].(ready := Open)];
      if sockets[id].handlers {
        reconnectAttempt := 0;
        hadConnection := true;
        state := Connected;
        heartbeatTimer := true;
        if boundChat != Some("") { rebound := boundChat; }
      }
    }

    // Says whether the close is a server restart, for which a synthetic stream_end and a
    // status idle are handed on before anything is scheduled.
    method OnClose(id: nat, code: int, random: real) returns (restarted: bool)
      requires id < |sockets| && sockets[id].ready != Closed && 0.0 <= random < 1.0
      modifies this
      ensures Abs() == Next(old(Abs()), Closes(id, code), maxReconnectAttempts) && boundChat == old(boundChat)
      ensures restarted <==> old(sockets)[id].handlers && code in {1012, 1013}
    {
      sockets := sockets[id := sockets[id].(ready := Closed)];
      if !sockets[id].handlers { return false; }
      var isServerRestart := code == 1012 || code == 1013;
      restarted := isServerRestart;
      ClearTimers();
      if !intentionalClose {
        if isServerRestart { reconnectAttempt := 0; }
        ScheduleReconnect(random);
      } else {
        state := Disconnected;
      }
    }

    method OnPong(id: nat)
      requires id < |sockets| && sockets[id].ready in {Open, Closing}
      modifies this`pongTimer
      ensures Abs() == Next(old(Abs()), Step.Pong(id), maxReconnectAttempts)
    {
      if sockets[id].handlers && pongTimer.Some? { pongTimer := None; }
    }

    method OnReconnectTimer(created: bool, random: real)
      requires reconnectTimer && 0.0 <= random < 1.0
      modifies this
      ensures Abs() == Next(old(Abs()), ReconnectFires(created), maxReconnectAttempts)
    {
      reconnectTimer := false;
      reconnectAttempt := reconnectAttempt + 1;
      ghost var counted := Abs();
      assert counted == old(Abs()).(reconnectTimer := false, attempt := old(Abs()).attempt + 1);
      Connect(created, random);
      assert Abs() == Connects(counted, maxReconnectAttempts, created);
    }

    method OnHeartbeat()
      requires heartbeatTimer
      modifies this`pongTimer
      ensures Abs() == Next(old(Abs()), HeartbeatFires, maxReconnectAttempts)
    {
      if ws.Some? && ws.value < |sockets| && sockets[ws.value].ready == Open { pongTimer := ws; }
    }

    method OnPongTimeout()
      requires pongTimer.Some?
      modifies this`pongTimer, this`sockets
      ensures Abs() == Next(old(Abs()), PongFires, maxReconnectAttempts)
    {
      pongTimer := None;
      if ws.Some? && ws.value < |sockets| && sockets[ws.value].ready == Open {
        sockets := sockets[ws.value := sockets[ws.value].(ready := Closing)];
      }
    }

    method Disconnect()
      modifies this
      ensures Abs() == Next(old(Abs()), Step.Disconnect, maxReconnectAttempts)
    {
      intentionalClose := true;
      ClearTimers();
      if ws.Some? && ws.value < |sockets| {
        sockets := sockets[ws.value := Close(sockets[ws.value])];
      }
      ws := None;
      state := Disconnected;
    }

    method OnOnline(created: bool, random: real)
      requires 0.0 <= random < 1.0
      modifies this
      ensures Abs() == Next(old(Abs()), Online(created), maxReconnectAttempts)
    {
      if !intentionalClose && !(ws.Some? && ws.value < |sockets| && sockets[ws.value].ready == Open) {
        reconnectAttempt := 0;
        reconnectTimer := false;
        Connect(created, random);
      }
    }

    method OnVisibilityChange(visible: bool)
      modifies this`visibilityTimer
      ensures Abs() == Next(old(Abs()), if visible then TabVisible else TabHidden, maxReconnectAttempts)
    {
      if visible && !intentionalClose {
        visibilityTimer := true;
      } else if !visible {
        visibilityTimer := false;
      }
    }

    method OnVisibilityTimer(created: bool, random: real)
      requires visibilityTimer && 0.0 <= random < 1.0
      modifies this
      ensures Abs() == Next(old(Abs()), VisibleFires(created), maxReconnectAttempts)
    {
      visibilityTimer := false;
      if !(ws.Some? && ws.value < |sockets| && sockets[ws.value].ready == Open) {
        reconnectAttempt := 0;
        reconnectTimer := false;
        Connect(created, random);
      }
    }
  }
}

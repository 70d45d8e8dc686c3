/** What the WebSocket manager keeps in every reachable state. */
module WebSocketSafety {
  import opened WebSocketManager
  import opened Wrappers
  import Rounding

  // A socket whose events still reach the manager.
  predicate Live(m: Manager, id: nat)
  {
    id < |m.sockets| && m.sockets[id].handlers && m.sockets[id].ready != Closed
  }

  predicate CurrentLive(m: Manager)
  {
    m.ws.Some? && Live(m, m.ws.value)
  }

  // A live socket that is no longer the current one.
  ghost predicate Stray(m: Manager)
  {
    exists id: nat :: Live(m, id) && m.ws != Some(id)
  }

  ghost predicate OneLive(m: Manager)
  {
    forall i: nat, j: nat :: Live(m, i) && Live(m, j) ==> i == j
  }

  // Not closed on purpose: a socket is at work, or a timer will make one, or the manager has
  // given up without ever having had a connection.
  predicate Working(m: Manager, maxAttempts: nat)
  {
    m.intentionalClose || CurrentLive(m) || m.reconnectTimer || (!m.hadConnection && m.attempt >= maxAttempts)
  }

  ghost predicate Inv(m: Manager, maxAttempts: nat)
  {
    && (m.ws.Some? ==> m.ws.value < |m.sockets|)
    && OneLive(m)
    // a stray socket exists only after disconnect, and is on its way out
    && (forall id: nat :: Live(m, id) && m.ws != Some(id) ==> m.intentionalClose && m.sockets[id].ready == Closing)
    && (m.intentionalClose ==> m.ws == None && !m.reconnectTimer)
    // the timers belong to the current socket
    && (m.pongTimer.Some? ==> m.pongTimer == m.ws && CurrentLive(m))
    && (m.heartbeatTimer ==> CurrentLive(m))
    && (m.reconnectTimer ==> !CurrentLive(m))
    && Working(m, maxAttempts)
  }

  // What a caller can check: nothing may create a socket while one that was closed by
  // disconnect has not yet delivered its close event.
  ghost predicate Safe(m: Manager, a: Step)
  {
    (a.Connect? || a.VisibleFires?) ==> !Stray(m)
  }

  lemma ConnectsKeeps(m: Manager, maxAttempts: nat, created: bool)
    requires m.ws.Some? ==> m.ws.value < |m.sockets|
    requires forall id: nat :: Live(m, id) ==> m.ws == Some(id)
    ensures Inv(Connects(m, maxAttempts, created), maxAttempts)
    ensures !Connects(m, maxAttempts, created).intentionalClose
  {
    var n := Connects(m, maxAttempts, created);
    var s := Discarded(m);
    assert forall id: nat :: id < |s| ==> !(s[id].handlers && s[id].ready != Closed) by {
      forall id: nat | id < |s| ensures !(s[id].handlers && s[id].ready != Closed) {
        if m.ws != Some(id) { assert !Live(m, id); }
      }
    }
    if created {
      forall id: nat | Live(n, id) ensures id == |s| {
      }
    } else {
      assert forall id: nat :: !Live(n, id);
    }
  }

  lemma StepKeepsInv(m: Manager, a: Step, maxAttempts: nat)
    requires Inv(m, maxAttempts) && Enabled(m, a) && Safe(m, a)
    ensures Inv(Next(m, a, maxAttempts), maxAttempts)
  {
    match a {
      case Connect(created) => ConnectsKeeps(m, maxAttempts, created);
      case Disconnect => DisconnectKeeps(m, maxAttempts);
      case Opens(id) => OpensKeeps(m, id, maxAttempts);
      case Closes(id, code) => ClosesKeeps(m, id, code, maxAttempts);
      case ReconnectFires(created) => ReconnectFiresKeeps(m, maxAttempts, created);
      case PongFires => PongFiresKeeps(m, maxAttempts);
      case Online(created) => OnlineKeeps(m, maxAttempts, created);
      case VisibleFires(created) => VisibleKeeps(m, maxAttempts, created);
      case _ => QuietKeeps(m, a, maxAttempts);
    }
  }

  lemma ReconnectFiresKeeps(m: Manager, maxAttempts: nat, created: bool)
    requires Inv(m, maxAttempts) && m.reconnectTimer
    ensures Inv(TimerReconnects(m, maxAttempts, created), maxAttempts)
  {
    var k := m.(reconnectTimer := false, attempt := m.attempt + 1);
    SameSockets(m, k);
    ConnectsKeeps(k, maxAttempts, created);
  }

  lemma OnlineKeeps(m: Manager, maxAttempts: nat, created: bool)
    requires Inv(m, maxAttempts)
    ensures Inv(CameOnline(m, maxAttempts, created), maxAttempts)
  {
    if !m.intentionalClose && !IsOpen(m) {
      var k := m.(attempt := 0, reconnectTimer := false);
      SameSockets(m, k);
      ConnectsKeeps(k, maxAttempts, created);
    }
  }

  lemma VisibleKeeps(m: Manager, maxAttempts: nat, created: bool)
    requires Inv(m, maxAttempts) && !Stray(m)
    ensures Inv(BecameVisible(m, maxAttempts, created), maxAttempts)
  {
    var k := m.(visibilityTimer := false, attempt := 0, reconnectTimer := false);
    SameSockets(m, k);
    SameSockets(m, m.(visibilityTimer := false));
    if !IsOpen(m) {
      ConnectsKeeps(k, maxAttempts, created);
    }
  }

  lemma QuietKeeps(m: Manager, a: Step, maxAttempts: nat)
    requires Inv(m, maxAttempts) && Enabled(m, a)
    requires a.Pong? || a.HeartbeatFires? || a.TabVisible? || a.TabHidden?
    ensures Inv(Next(m, a, maxAttempts), maxAttempts)
  {
    SameSockets(m, Next(m, a, maxAttempts));
  }

  lemma SameSockets(m: Manager, n: Manager)
    ensures m.sockets == n.sockets ==> forall id: nat :: Live(m, id) == Live(n, id)
  {
  }

  lemma DisconnectKeeps(m: Manager, maxAttempts: nat)
    requires Inv(m, maxAttempts)
    ensures Inv(Disconnects(m), maxAttempts)
  {
    var n := Disconnects(m);
    forall id: nat ensures Live(n, id) ==> Live(m, id) && n.sockets[id].ready == Closing {
      if Live(n, id) { assert Live(m, id); }
    }
  }

  lemma OpensKeeps(m: Manager, id: nat, maxAttempts: nat)
    requires Inv(m, maxAttempts) && Enabled(m, Opens(id))
    ensures Inv(Opened(m, id), maxAttempts)
  {
    assert forall j: nat :: Live(Opened(m, id), j) == Live(m, j);
    assert m.sockets[id].handlers ==> Live(m, id);
  }

  lemma ClosesKeeps(m: Manager, id: nat, code: int, maxAttempts: nat)
    requires Inv(m, maxAttempts) && Enabled(m, Closes(id, code))
    ensures Inv(ClosedBy(m, id, code, maxAttempts), maxAttempts)
  {
    var n := ClosedBy(m, id, code, maxAttempts);
    assert forall j: nat :: Live(n, j) == (Live(m, j) && j != id);
    assert m.sockets[id].handlers ==> Live(m, id);
  }

  lemma PongFiresKeeps(m: Manager, maxAttempts: nat)
    requires Inv(m, maxAttempts) && m.pongTimer.Some?
    ensures Inv(PongTimedOut(m), maxAttempts)
  {
    assert forall j: nat :: Live(PongTimedOut(m), j) == Live(m, j);
  }

  /******* Runs *******/

  ghost predicate Possible(m: Manager, run: seq<Step>, maxAttempts: nat)
    decreases run
  {
    run == [] ||
    (Enabled(m, run[0]) && Safe(m, run[0]) && Possible(Next(m, run[0], maxAttempts), run[1..], maxAttempts))
  }

  ghost function Run(m: Manager, run: seq<Step>, maxAttempts: nat): Manager
    requires Possible(m, run, maxAttempts)
    decreases run
  {
    if run == [] then m else Run(Next(m, run[0], maxAttempts), run[1..], maxAttempts)
  }

  lemma {:induction false} RunKeepsInv(m: Manager, run: seq<Step>, maxAttempts: nat)
    requires Inv(m, maxAttempts) && Possible(m, run, maxAttempts)
    ensures Inv(Run(m, run, maxAttempts), maxAttempts)
    decreases run
  {
    if run != [] {
      StepKeepsInv(m, run[0], maxAttempts);
      RunKeepsInv(Next(m, run[0], maxAttempts), run[1..], maxAttempts);
    }
  }

  // Main result: from the first connect on, in every reachable state, the manager is at
  // work or has given up as it should, no two sockets have live handlers, and the pong
  // timer belongs to the current socket.
  lemma NeverStalls(created: bool, run: seq<Step>, maxAttempts: nat)
    requires Possible(Connects(Initial, maxAttempts, created), run, maxAttempts)
    ensures var m := Run(Connects(Initial, maxAttempts, created), run, maxAttempts);
      && Working(m, maxAttempts)
      && OneLive(m)
      && (m.pongTimer.Some? ==> m.pongTimer == m.ws)
      && (m.hadConnection && !m.intentionalClose ==> CurrentLive(m) != m.reconnectTimer)
  {
    ConnectsKeeps(Initial, maxAttempts, created);
    RunKeepsInv(Connects(Initial, maxAttempts, created), run, maxAttempts);
  }

  /******* Heartbeats *******/

  // Whether a ping is unanswered after a step, going by pings and pongs alone.
  predicate AwaitsAfter(m: Manager, a: Step, awaits: bool)
    requires Enabled(m, a)
  {
    if a.HeartbeatFires? then awaits || IsOpen(m)
    else if a.Pong? && m.sockets[a.id].handlers then false
    else awaits
  }

  // A run in which the pong timer never finds a ping unanswered.
  ghost predicate AnsweredInTime(m: Manager, run: seq<Step>, awaits: bool, maxAttempts: nat)
    requires Possible(m, run, maxAttempts)
    decreases run
  {
    run == [] ||
    (&& (run[0].PongFires? ==> !awaits)
     && AnsweredInTime(Next(m, run[0], maxAttempts), run[1..], AwaitsAfter(m, run[0], awaits), maxAttempts))
  }

  // Only a heartbeat over an open socket sets the pong timer.
  lemma PingStep(m: Manager, a: Step, awaits: bool, maxAttempts: nat)
    requires Enabled(m, a) && (m.pongTimer.Some? ==> awaits) && (a.PongFires? ==> !awaits)
    ensures !a.PongFires?
    ensures Next(m, a, maxAttempts).pongTimer.Some? ==> AwaitsAfter(m, a, awaits)
  {
    match a {
      case Closes(id, code) => ClosesSetsNone(m, id, code, maxAttempts);
      case Connect(created) => ConnectsClears(m, maxAttempts, created);
      case ReconnectFires(created) =>
        ConnectsClears(m.(reconnectTimer := false, attempt := m.attempt + 1), maxAttempts, created);
      case Online(created) => OnlineSetsNone(m, maxAttempts, created);
      case VisibleFires(created) => VisibleSetsNone(m, maxAttempts, created);
      case _ => OthersSetNone(m, a, maxAttempts);
    }
  }

  lemma ConnectsClears(m: Manager, maxAttempts: nat, created: bool)
    ensures Connects(m, maxAttempts, created).pongTimer == None
  {
  }

  lemma OnlineSetsNone(m: Manager, maxAttempts: nat, created: bool)
    ensures CameOnline(m, maxAttempts, created).pongTimer.Some? ==> m.pongTimer.Some?
  {
    ConnectsClears(m.(attempt := 0, reconnectTimer := false), maxAttempts, created);
  }

  lemma VisibleSetsNone(m: Manager, maxAttempts: nat, created: bool)
    ensures BecameVisible(m, maxAttempts, created).pongTimer.Some? ==> m.pongTimer.Some?
  {
    ConnectsClears(m.(visibilityTimer := false, attempt := 0, reconnectTimer := false), maxAttempts, created);
  }

  lemma ClosesSetsNone(m: Manager, id: nat, code: int, maxAttempts: nat)
    requires id < |m.sockets|
    ensures ClosedBy(m, id, code, maxAttempts).pongTimer.Some? ==> m.pongTimer.Some?
  {
  }

  lemma OthersSetNone(m: Manager, a: Step, maxAttempts: nat)
    requires Enabled(m, a)
    requires a.Disconnect? || a.Opens? || a.Pong? || a.HeartbeatFires? || a.PongFires? || a.TabVisible? || a.TabHidden?
    ensures Next(m, a, maxAttempts).pongTimer.Some? ==>
      || (m.pongTimer.Some? && !a.PongFires? && !(a.Pong? && m.sockets[a.id].handlers))
      || (a.HeartbeatFires? && IsOpen(m))
  {
  }

  // Main result: in a run in which every ping over an open socket is answered before its
  // timer, that timer never fires.
  lemma {:induction false} AnsweredPingsAreSafe(m: Manager, run: seq<Step>, awaits: bool, maxAttempts: nat)
    requires Possible(m, run, maxAttempts) && AnsweredInTime(m, run, awaits, maxAttempts)
    requires m.pongTimer.Some? ==> awaits
    ensures forall i :: 0 <= i < |run| ==> !run[i].PongFires?
    decreases run
  {
    if run != [] {
      var a := run[0];
      PingStep(m, a, awaits, maxAttempts);
      AnsweredPingsAreSafe(Next(m, a, maxAttempts), run[1..], AwaitsAfter(m, a, awaits), maxAttempts);
      assert forall i :: 1 <= i < |run| ==> run[i] == run[1..][i - 1];
    }
  }

  // A pong from a socket that is listened to leaves no pong timer, and none is set before
  // the next heartbeat.
  lemma {:induction false} PongDisarms(m: Manager, id: nat, run: seq<Step>, maxAttempts: nat)
    requires Enabled(m, Pong(id)) && m.sockets[id].handlers
    requires Possible(Next(m, Pong(id), maxAttempts), run, maxAttempts)
    requires forall i :: 0 <= i < |run| ==> !run[i].HeartbeatFires?
    ensures Next(m, Pong(id), maxAttempts) == m.(pongTimer := None)
    ensures forall i :: 0 <= i < |run| ==> !run[i].PongFires?
  {
    NoPingNoTimer(Next(m, Pong(id), maxAttempts), run, maxAttempts);
  }

  lemma {:induction false} NoPingNoTimer(m: Manager, run: seq<Step>, maxAttempts: nat)
    requires m.pongTimer == None && Possible(m, run, maxAttempts)
    requires forall i :: 0 <= i < |run| ==> !run[i].HeartbeatFires?
    ensures forall i :: 0 <= i < |run| ==> !run[i].PongFires?
    decreases run
  {
    if run != [] {
      PingStep(m, run[0], false, maxAttempts);
      NoPingNoTimer(Next(m, run[0], maxAttempts), run[1..], maxAttempts);
      assert forall i :: 1 <= i < |run| ==> run[i] == run[1..][i - 1];
    }
  }

  // An open current socket stays open over every step but its own close event, a missed
  // pong, a connect and a disconnect.
  lemma OpenStaysOpen(m: Manager, a: Step, maxAttempts: nat)
    requires Inv(m, maxAttempts) && IsOpen(m) && m.sockets[m.ws.value].handlers && Enabled(m, a)
    requires !a.PongFires? && !a.Connect? && !a.Disconnect? && (a.Closes? ==> m.ws != Some(a.id))
    ensures var n := Next(m, a, maxAttempts); IsOpen(n) && n.ws == m.ws && n.sockets[n.ws.value].handlers
  {
    assert Live(m, m.ws.value) && CurrentLive(m);
  }

  // Main result: so a connection on which every ping is answered in time stays up, until its
  // own close event, a connect or a disconnect.
  lemma {:induction false} HealthyStaysOpen(m: Manager, run: seq<Step>, awaits: bool, maxAttempts: nat)
    requires Inv(m, maxAttempts) && IsOpen(m) && m.sockets[m.ws.value].handlers
    requires Possible(m, run, maxAttempts) && AnsweredInTime(m, run, awaits, maxAttempts)
    requires m.pongTimer.Some? ==> awaits
    requires forall a :: a in run ==> !a.Connect? && !a.Disconnect? && (a.Closes? ==> m.ws != Some(a.id))
    ensures IsOpen(Run(m, run, maxAttempts)) && Run(m, run, maxAttempts).ws == m.ws
    decreases run
  {
    if run != [] {
      var a, n := run[0], Next(m, run[0], maxAttempts);
      PingStep(m, a, awaits, maxAttempts);
      OpenStaysOpen(m, a, maxAttempts);
      StepKeepsInv(m, a, maxAttempts);
      HealthyStaysOpen(n, run[1..], AwaitsAfter(m, a, awaits), maxAttempts);
    }
  }

  // A ping that is not answered closes the socket, and the close event then sets the timer
  // for a new one.
  lemma MissedPongReconnects(m: Manager, code: int, maxAttempts: nat)
    requires Inv(m, maxAttempts) && m.heartbeatTimer && IsOpen(m) && m.hadConnection && !m.intentionalClose
    ensures var id := m.ws.value;
      var pinged := Next(m, HeartbeatFires, maxAttempts);
      && Enabled(pinged, PongFires)
      && var closing := Next(pinged, PongFires, maxAttempts);
      && closing.sockets[id].ready == Closing && closing.pongTimer == None
      && Enabled(closing, Closes(id, code))
      && Next(closing, Closes(id, code), maxAttempts).reconnectTimer
  {
    assert CurrentLive(m);
  }

  /******* The tab and the network *******/

  // The network is back, and a tab is looked at again: a new socket is made at once and the
  // attempts start anew, unless the current one is open or, for the network, was closed on
  // purpose.
  lemma ComesBack(m: Manager, maxAttempts: nat)
    ensures var n := Next(m, Online(true), maxAttempts);
      if m.intentionalClose || IsOpen(m) then n == m
      else n.ws == Some(|m.sockets|) && CurrentLive(n) && n.attempt == 0 && !n.reconnectTimer
    ensures m.visibilityTimer ==>
      var n := Next(m, VisibleFires(true), maxAttempts);
      && !n.visibilityTimer
      && (IsOpen(m) ==> n.sockets == m.sockets && n.ws == m.ws)
      && (!IsOpen(m) ==> n.ws == Some(|m.sockets|) && CurrentLive(n) && n.attempt == 0 && !n.reconnectTimer)
  {
    assert |Discarded(m)| == |m.sockets|;
  }

  // Looking at the tab sets the timer unless closed on purpose, hiding it again calls it off,
  // and firing uses it up; no other step does anything to it.
  lemma TabSetsTimer(m: Manager, maxAttempts: nat)
    ensures Next(m, TabVisible, maxAttempts) == m.(visibilityTimer := m.visibilityTimer || !m.intentionalClose)
    ensures Next(m, TabHidden, maxAttempts) == m.(visibilityTimer := false)
  {
  }

  lemma OthersMindNoTab(m: Manager, a: Step, maxAttempts: nat)
    requires Enabled(m, a) && !a.TabVisible? && !a.TabHidden? && !a.VisibleFires?
    ensures Next(m, a, maxAttempts).visibilityTimer == m.visibilityTimer
  {
    match a {
      case Connect(created) => ConnectsMindsNoTab(m, maxAttempts, created);
      case ReconnectFires(created) =>
        ConnectsMindsNoTab(m.(reconnectTimer := false, attempt := m.attempt + 1), maxAttempts, created);
      case Online(created) => OnlineMindsNoTab(m, maxAttempts, created);
      case Closes(id, code) => ClosesMindsNoTab(m, id, code, maxAttempts);
      case _ => QuietMindsNoTab(m, a, maxAttempts);
    }
  }

  lemma QuietMindsNoTab(m: Manager, a: Step, maxAttempts: nat)
    requires Enabled(m, a) && !a.TabVisible? && !a.TabHidden? && !a.VisibleFires?
    requires !a.Connect? && !a.ReconnectFires? && !a.Online? && !a.Closes?
    ensures Next(m, a, maxAttempts).visibilityTimer == m.visibilityTimer
  {
    match a {
      case Disconnect =>
      case Opens(_) =>
      case Pong(_) =>
      case HeartbeatFires =>
      case PongFires =>
    }
  }

  lemma ConnectsMindsNoTab(m: Manager, maxAttempts: nat, created: bool)
    ensures Connects(m, maxAttempts, created).visibilityTimer == m.visibilityTimer
  {
  }

  lemma OnlineMindsNoTab(m: Manager, maxAttempts: nat, created: bool)
    ensures CameOnline(m, maxAttempts, created).visibilityTimer == m.visibilityTimer
  {
    ConnectsMindsNoTab(m.(attempt := 0, reconnectTimer := false), maxAttempts, created);
  }

  lemma ClosesMindsNoTab(m: Manager, id: nat, code: int, maxAttempts: nat)
    requires id < |m.sockets|
    ensures ClosedBy(m, id, code, maxAttempts).visibilityTimer == m.visibilityTimer
  {
  }

  /******* Opening and disconnecting *******/

  // An opening that is listened to shows as connected, starts the heartbeat and resets the
  // attempts.
  lemma OpeningConnects(m: Manager, id: nat, maxAttempts: nat)
    requires Enabled(m, Opens(id))
    ensures var n := Next(m, Opens(id), maxAttempts);
      && |n.sockets| == |m.sockets| && n.sockets[id].ready == Open
      && (m.sockets[id].handlers ==> n.state == Connected && n.heartbeatTimer && n.hadConnection && n.attempt == 0)
  {
  }

  // Disconnecting forgets the socket, which is closing or closed from then on, stops all
  // timers but the tab's and shows as disconnected.
  lemma DisconnectStops(m: Manager, maxAttempts: nat)
    ensures var n := Next(m, Disconnect, maxAttempts);
      && n.ws == None && n.intentionalClose && n.state == Disconnected
      && !n.reconnectTimer && !n.heartbeatTimer && n.pongTimer == None
      && (m.ws.Some? && m.ws.value < |m.sockets| ==>
          |n.sockets| == |m.sockets| && n.sockets[m.ws.value].ready in {Closing, Closed})
  {
  }

  // Nothing is scheduled beside a pending timer or after a close on purpose; and giving up
  // shows as disconnected.
  lemma SchedulesOnce(m: Manager, maxAttempts: nat)
    ensures m.intentionalClose || m.reconnectTimer ==> ScheduledReconnect(m, maxAttempts) == m
    ensures var n := ScheduledReconnect(m, maxAttempts);
      n.neverConnectedFailed && !m.neverConnectedFailed ==> n.state == Disconnected && !n.reconnectTimer
  {
  }

  /******* Waits *******/

  // The wait before a reconnection, unjittered: a second at first, twice as long after every
  // further attempt, never more than thirty seconds, and just these once attempts are over.
  lemma BackoffDoubles(attempt: nat, maxAttempts: nat)
    ensures BaseDelay(attempt, maxAttempts) ==
      if attempt >= maxAttempts then 30000.0
      else if attempt == 0 then 1000.0
      else Rounding.Min(2.0 * BaseDelay(attempt - 1, maxAttempts), 30000.0)
  {
  }

  // A connection that was open, and a server that says it restarts, are followed by the
  // shortest wait.
  lemma FreshWait(m: Manager, id: nat, code: int, maxAttempts: nat, random: real)
    requires id < |m.sockets| && m.sockets[id].handlers && !m.intentionalClose
    requires 1 <= maxAttempts && 0.0 <= random < 1.0
    ensures Enabled(m, Opens(id)) ==> Next(m, Opens(id), maxAttempts).attempt == 0
    ensures Enabled(m, Closes(id, code)) && (code == 1012 || code == 1013 || m.attempt == 0) ==>
      var n := Next(m, Closes(id, code), maxAttempts);
      && n.reconnectTimer && n.attempt == 0
      && 1000 <= Rounding.Jittered(BaseDelay(n.attempt, maxAttempts), random) <= 1200
  {
    DelayBounds(0, maxAttempts, random);
  }

  // Any other close leaves the count, and so the wait, as it was.
  lemma OtherCloseKeepsCount(m: Manager, id: nat, code: int, maxAttempts: nat)
    requires Enabled(m, Closes(id, code)) && code != 1012 && code != 1013
    ensures Next(m, Closes(id, code), maxAttempts).attempt == m.attempt
  {
  }

  /******* Where the guarantee ends *******/

  // Connecting is safe exactly when no socket closed by disconnect is still to report.
  lemma ConnectSafeIff(m: Manager, maxAttempts: nat)
    requires Inv(m, maxAttempts)
    ensures OneLive(Connects(m, maxAttempts, true)) <==> !Stray(m)
  {
    var n := Connects(m, maxAttempts, true);
    if Stray(m) {
      var id: nat :| Live(m, id) && m.ws != Some(id);
      assert Live(n, id) && Live(n, |Discarded(m)|);
    } else {
      ConnectsKeeps(m, maxAttempts, true);
    }
  }

  // And the close event of such a socket then sets a timer that tears down the new one,
  // exactly unless the manager has never been connected and is out of attempts.
  lemma StrayCloseSchedulesReconnect(m: Manager, maxAttempts: nat, id: nat, code: int)
    requires Inv(m, maxAttempts) && Live(m, id) && m.ws != Some(id)
    ensures var n := Connects(m, maxAttempts, true);
      Enabled(n, Closes(id, code)) &&
      var k := Next(n, Closes(id, code), maxAttempts);
      var attempt := if code == 1012 || code == 1013 then 0 else m.attempt;
      CurrentLive(k) && (k.reconnectTimer <==> m.hadConnection || attempt < maxAttempts)
  {
  }

  // The steps that no one calls: all but connect.
  predicate Unasked(a: Step)
  {
    !a.Connect?
  }

  ghost predicate Enables(m: Manager, run: seq<Step>, maxAttempts: nat)
    decreases run
  {
    run == [] ||
    (Enabled(m, run[0]) && Unasked(run[0]) && Enables(Next(m, run[0], maxAttempts), run[1..], maxAttempts))
  }

  ghost function Proceeds(m: Manager, run: seq<Step>, maxAttempts: nat): Manager
    requires Enables(m, run, maxAttempts)
    decreases run
  {
    if run == [] then m else Proceeds(Next(m, run[0], maxAttempts), run[1..], maxAttempts)
  }

  lemma {:induction false} StaysDown(m: Manager, run: seq<Step>, maxAttempts: nat)
    requires m.intentionalClose && m.ws == None && !m.reconnectTimer && !m.visibilityTimer
    requires Enables(m, run, maxAttempts)
    ensures var n := Proceeds(m, run, maxAttempts);
      n.intentionalClose && n.ws == None && !n.reconnectTimer && |n.sockets| == |m.sockets|
    decreases run
  {
    if run != [] { StaysDown(Next(m, run[0], maxAttempts), run[1..], maxAttempts); }
  }

  // disconnect is final, whatever the network and the tab do, exactly when no visibility
  // timer was pending: that timer's callback does not ask whether the close was on purpose.
  lemma DisconnectFinalIff(m: Manager, maxAttempts: nat)
    ensures !m.visibilityTimer ==>
      forall run :: Enables(Next(m, Disconnect, maxAttempts), run, maxAttempts) ==>
        Proceeds(Next(m, Disconnect, maxAttempts), run, maxAttempts).intentionalClose
    ensures m.visibilityTimer ==>
      exists run :: Enables(Next(m, Disconnect, maxAttempts), run, maxAttempts) &&
        !Proceeds(Next(m, Disconnect, maxAttempts), run, maxAttempts).intentionalClose
  {
    var d := Next(m, Disconnect, maxAttempts);
    if m.visibilityTimer {
      var run := [VisibleFires(true)];
      var up := Next(d, run[0], maxAttempts);
      assert run[1..] == [] && Enables(up, [], maxAttempts) && Proceeds(up, [], maxAttempts) == up;
      assert Enables(d, run, maxAttempts) && !Proceeds(d, run, maxAttempts).intentionalClose;
    } else {
      forall run | Enables(d, run, maxAttempts) ensures Proceeds(d, run, maxAttempts).intentionalClose {
        StaysDown(d, run, maxAttempts);
      }
    }
  }

  /******* Giving up *******/

  // A connection attempt that ends in a close event without ever opening.
  function FailedTry(m: Manager, start: Step, maxAttempts: nat): Manager
    requires Enabled(m, start) && (start == Connect(true) || start == ReconnectFires(true))
  {
    Next(Next(m, start, maxAttempts), Closes(|m.sockets|, 1006), maxAttempts)
  }

  // Up to n more attempts fail, each started by the timer, for as long as it is set.
  function Failing(m: Manager, n: nat, maxAttempts: nat): Manager
    decreases n
  {
    if n == 0 || !m.reconnectTimer then m
    else Failing(FailedTry(m, ReconnectFires(true), maxAttempts), n - 1, maxAttempts)
  }

  lemma FailedTryFacts(m: Manager, start: Step, maxAttempts: nat)
    requires Enabled(m, start) && (start == Connect(true) || start == ReconnectFires(true)) && !m.hadConnection
    ensures var n, attempt := FailedTry(m, start, maxAttempts), if start.Connect? then m.attempt else m.attempt + 1;
      && n.attempt == attempt && !n.hadConnection
      && n.reconnectTimer == (attempt < maxAttempts)
      && n.neverConnectedFailed == (m.neverConnectedFailed || attempt >= maxAttempts)
  {
  }

  lemma {:induction false} FailingFacts(m: Manager, n: nat, maxAttempts: nat)
    requires !m.hadConnection && m.attempt + n <= maxAttempts
    requires m.reconnectTimer == (m.attempt < maxAttempts) && m.neverConnectedFailed == (m.attempt == maxAttempts)
    ensures var r := Failing(m, n, maxAttempts);
      && r.attempt == m.attempt + n && !r.hadConnection
      && r.reconnectTimer == (r.attempt < maxAttempts)
      && r.neverConnectedFailed == (r.attempt == maxAttempts)
    decreases n
  {
    if n > 0 {
      FailedTryFacts(m, ReconnectFires(true), maxAttempts);
      FailingFacts(FailedTry(m, ReconnectFires(true), maxAttempts), n - 1, maxAttempts);
    }
  }

  // Without ever connecting, the manager tries again after each of the first maxAttempts
  // failures and gives up on the next.
  lemma GivesUpExactly(n: nat, maxAttempts: nat)
    requires n <= maxAttempts
    ensures var m := Failing(FailedTry(Initial, Connect(true), maxAttempts), n, maxAttempts);
      m.reconnectTimer == (n < maxAttempts) && m.neverConnectedFailed == (n == maxAttempts) && m.attempt == n
  {
    FailedTryFacts(Initial, Connect(true), maxAttempts);
    FailingFacts(FailedTry(Initial, Connect(true), maxAttempts), n, maxAttempts);
  }
}

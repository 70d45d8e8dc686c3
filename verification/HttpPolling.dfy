/** The HTTP polling fallback: a cursor over the server's event log, advanced by answers that
    may overlap, fail or come out of order. */
module HttpPolling {
  import opened Wrappers

  datatype Event = Event(ts: int, body: string)

  // What the server can answer: 404, or a status with the events behind the cursor.
  datatype Status = Running | Completed | Failed

  datatype Answer =
    | NotFound
    | State(events: seq<Event>, status: Status)
    | NetworkError

  /******* The hook *******/

  // since: the cursor; delivered and completions: what the callbacks have been given.
  datatype Poller = Poller(
    since: int, timer: bool, isPolling: bool, delivered: seq<Event>, completions: seq<Status>, errors: nat)

  function Stopped(p: Poller): Poller
  {
    p.(timer := false, isPolling := false)
  }

  function Started(p: Poller): Poller
  {
    p.(since := 0, timer := true, isPolling := true)
  }

  function Answered(p: Poller, a: Answer): Poller
  {
    match a
    case NetworkError => p.(errors := p.errors + 1)
    case NotFound => Stopped(p)
    case State(events, status) =>
      var q := if events == [] then p else p.(delivered := p.delivered + events, since := events[|events| - 1].ts);
      if status == Running then q else Stopped(q).(completions := q.completions + [status])
  }

  class UseHttpPolling {
    var pollSince: int
    var pollTimer: bool
    var isPolling: bool
    var delivered: seq<Event>
    var completions: seq<Status>
    var errors: nat

    ghost function Abs(): Poller
      reads this
    {
      Poller(pollSince, pollTimer, isPolling, delivered, completions, errors)
    }

    constructor ()
      ensures Abs() == Poller(0, false, false, [], [], 0)
    {
      pollSince, pollTimer, isPolling, delivered, completions, errors := 0, false, false, [], [], 0;
    }

    method StopPolling()
      modifies this
      ensures Abs() == Stopped(old(Abs()))
    {
      if pollTimer {
        pollTimer := false;
      }
      isPolling := false;
    }

    // Returns the cursor of the first poll, which goes out at once.
    method StartPolling(msgId: string) returns (first: Option<int>)
      modifies this
      ensures Abs() == if msgId == "" then Stopped(old(Abs())) else Started(old(Abs()))
      ensures first == if msgId == "" then None else Some(0)
    {
      StopPolling();
      if msgId == "" { return None; }
      pollSince := 0;
      isPolling := true;
      first := Some(pollSince);
      pollTimer := true;
    }

    method ProcessPolledEvents(events: seq<Event>)
      modifies this`delivered
      ensures delivered == old(delivered) + events
    {
      for i := 0 to |events|
        invariant delivered == old(delivered) + events[..i]
      {
        delivered := delivered + [events[i]];
      }
      assert events[..|events|] == events;
    }

    // The answer to one poll, whenever it comes.
    method OnAnswer(a: Answer)
      modifies this
      ensures Abs() == Answered(old(Abs()), a)
    {
      match a {
        case NetworkError => errors := errors + 1;
        case NotFound => StopPolling();
        case State(events, status) =>
          if |events| > 0 {
            ProcessPolledEvents(events);
            pollSince := events[|events| - 1].ts;
          }
          if status == Completed || status == Failed {
            StopPolling();
            completions := completions + [status];
          }
      }
    }
  }

  /******* The protocol *******/

  // The server's log grows while polls are under way; a poll remembers its cursor.
  datatype System = System(log: seq<Event>, poller: Poller, inFlight: seq<int>)

  datatype Step =
    | Logs(e: Event)                           // the server logs an event
    | Starts                                   // startPolling, again for the same task
    | Stops                                    // stopPolling, by whoever calls it
    | TimerFires
    | Answers(i: nat, seen: nat, status: Status) // poll i, answered from the first seen events
    | Vanishes(i: nat)                         // 404
    | Fails(i: nat)

  function Since(log: seq<Event>, since: int): seq<Event>
  {
    if log == [] then []
    else
      var n := |log| - 1;
      Since(log[..n], since) + if log[n].ts > since then [log[n]] else []
  }

  function Without(s: seq<int>, i: nat): seq<int>
    requires i < |s|
  {
    s[..i] + s[i + 1..]
  }

  predicate Enabled(s: System, a: Step)
  {
    match a
    case Logs(e) => e.ts > 0 && (s.log != [] ==> e.ts > s.log[|s.log| - 1].ts)
    case TimerFires => s.poller.timer
    case Answers(i, seen, _) => i < |s.inFlight| && seen <= |s.log|
    case Vanishes(i) => i < |s.inFlight|
    case Fails(i) => i < |s.inFlight|
    case _ => true
  }

  function Next(s: System, a: Step): System
    requires Enabled(s, a)
  {
    match a
    case Logs(e) => s.(log := s.log + [e])
    case Starts => s.(poller := Started(s.poller), inFlight := s.inFlight + [0])
    case Stops => s.(poller := Stopped(s.poller))
    case TimerFires => s.(inFlight := s.inFlight + [s.poller.since])
    case Answers(i, seen, status) =>
      var events := Since(s.log[..seen], s.inFlight[i]);
      s.(poller := Answered(s.poller, State(events, status)), inFlight := Without(s.inFlight, i))
    case Vanishes(i) => s.(poller := Answered(s.poller, NotFound), inFlight := Without(s.inFlight, i))
    case Fails(i) => s.(poller := Answered(s.poller, NetworkError), inFlight := Without(s.inFlight, i))
  }

  ghost predicate Possible(s: System, run: seq<Step>)
    decreases run
  {
    run == [] || (Enabled(s, run[0]) && Possible(Next(s, run[0]), run[1..]))
  }

  function Run(s: System, run: seq<Step>): System
    requires Possible(s, run)
    decreases run
  {
    if run == [] then s else Run(Next(s, run[0]), run[1..])
  }

  const Fresh: System := System([], Poller(0, false, false, [], [], 0), [])

  /******* On and off *******/

  // Whether polling is on after a run: the last of the steps that switch it decides.
  function OnAfter(on: bool, run: seq<Step>): bool
    decreases run
  {
    if run == [] then on
    else
      OnAfter(
        match run[0]
        case Starts => true
        case Stops => false
        case Vanishes(_) => false
        case Answers(_, _, status) => on && status == Running
        case _ => on, run[1..])
  }

  // Main result: polling goes on exactly until somebody stops it, the server does not know
  // the task, or an answer says that the task has ended; the interval and the flag agree.
  lemma {:induction false} OnUntilStopped(s: System, run: seq<Step>)
    requires Possible(s, run)
    ensures Run(s, run).poller.timer == OnAfter(s.poller.timer, run)
    ensures Run(s, run).poller.isPolling == OnAfter(s.poller.isPolling, run)
    decreases run
  {
    if run != [] { OnUntilStopped(Next(s, run[0]), run[1..]); }
  }

  // Once it is off no poll goes out until it is started again.
  lemma {:induction false} OffStaysQuiet(s: System, run: seq<Step>)
    requires Possible(s, run) && !s.poller.timer && forall i :: 0 <= i < |run| ==> !run[i].Starts?
    ensures !Run(s, run).poller.timer && |Run(s, run).inFlight| <= |s.inFlight|
    ensures forall i :: 0 <= i < |run| ==> !run[i].TimerFires?
    decreases run
  {
    if run != [] {
      OffStaysQuiet(Next(s, run[0]), run[1..]);
      assert forall i :: 1 <= i < |run| ==> run[i] == run[1..][i - 1];
    }
  }

  // A 404 and an answer with an end, and every run behind them without a new start.
  lemma EndIsQuiet(s: System, a: Step, run: seq<Step>)
    requires Enabled(s, a) && (a.Vanishes? || a.Stops? || (a.Answers? && a.status != Running))
    requires Possible(Next(s, a), run) && forall i :: 0 <= i < |run| ==> !run[i].Starts?
    ensures forall i :: 0 <= i < |run| ==> !run[i].TimerFires?
    ensures var r := Run(Next(s, a), run);
      !r.poller.timer && !r.poller.isPolling && |r.inFlight| <= |s.inFlight|
  {
    var n := Next(s, a);
    OffStaysQuiet(n, run);
    OnUntilStopped(n, run);
    OffStaysOff(run);
  }

  lemma {:induction false} OffStaysOff(run: seq<Step>)
    requires forall i :: 0 <= i < |run| ==> !run[i].Starts?
    ensures !OnAfter(false, run)
  {
    if run != [] { OffStaysOff(run[1..]); }
  }

  // A poll that fails, and one that the server answers with 404, bring nothing and leave the
  // cursor where it was; a failure leaves polling on for the next try.
  lemma BadAnswersBringNothing(s: System, i: nat)
    requires i < |s.inFlight|
    ensures var p, f, v := s.poller, Next(s, Fails(i)).poller, Next(s, Vanishes(i)).poller;
      && f == p.(errors := p.errors + 1)
      && v == p.(timer := false, isPolling := false)
  {
  }

  // Starting, again or for the first time, polls from the beginning of the log at once.
  lemma StartsFromTheBeginning(s: System)
    ensures var n := Next(s, Starts);
      n.poller.timer && n.poller.isPolling && n.poller.since == 0 && n.inFlight == s.inFlight + [0]
  {
  }

  // The polls of a run and the answers to them, and what the server logs meanwhile.
  function Sent(run: seq<Step>): nat
  {
    if run == [] then 0 else (if run[0].Starts? || run[0].TimerFires? then 1 else 0) + Sent(run[1..])
  }

  function Settled(run: seq<Step>): nat
  {
    if run == [] then 0
    else (if run[0].Answers? || run[0].Vanishes? || run[0].Fails? then 1 else 0) + Settled(run[1..])
  }

  function LoggedBy(run: seq<Step>): seq<Event>
  {
    if run == [] then [] else (if run[0].Logs? then [run[0].e] else []) + LoggedBy(run[1..])
  }

  // Every poll that has gone out is under way until its one answer comes.
  lemma {:induction false} PollsBalance(s: System, run: seq<Step>)
    requires Possible(s, run)
    ensures |Run(s, run).inFlight| + Settled(run) == |s.inFlight| + Sent(run)
    ensures Run(s, run).log == s.log + LoggedBy(run)
    decreases run
  {
    assert s.log + [] == s.log;
    if run != [] {
      var n := Next(s, run[0]);
      PollsBalance(n, run[1..]);
      var now := if run[0].Logs? then [run[0].e] else [];
      assert n.log == s.log + now;
      assert (s.log + now) + LoggedBy(run[1..]) == s.log + (now + LoggedBy(run[1..]));
    }
  }

  /******* No gap *******/

  ghost predicate Increasing(log: seq<Event>)
  {
    && (forall i :: 0 <= i < |log| ==> log[i].ts > 0)
    && (forall i, j :: 0 <= i < j < |log| ==> log[i].ts < log[j].ts)
  }

  // Every logged event up to this time has been delivered, and the log reaches it.
  ghost predicate CaughtUp(s: System, since: int)
  {
    && (forall e :: e in s.log && e.ts <= since ==> e in s.poller.delivered)
    && (since > 0 ==> s.log != [] && since <= s.log[|s.log| - 1].ts)
  }

  ghost predicate NoGap(s: System)
  {
    && Increasing(s.log)
    && CaughtUp(s, s.poller.since)
    && (forall k :: k in s.inFlight ==> CaughtUp(s, k))
  }

  lemma {:induction false} SinceFacts(log: seq<Event>, since: int)
    requires Increasing(log)
    ensures forall e :: e in Since(log, since) <==> e in log && e.ts > since
    ensures var r := Since(log, since);
      r != [] ==> log != [] && r[|r| - 1] == log[|log| - 1]
  {
    if log != [] {
      SinceFacts(log[..|log| - 1], since);
      assert log == log[..|log| - 1] + [log[|log| - 1]];
    }
  }

  // With the events up to since delivered, an answer leaves none missing up to its last one.
  lemma AnswerCovers(log: seq<Event>, delivered: seq<Event>, seen: nat, since: int)
    requires Increasing(log) && seen <= |log|
    requires forall e :: e in log && e.ts <= since ==> e in delivered
    ensures var r := Since(log[..seen], since);
      r != [] ==>
        && 0 < r[|r| - 1].ts <= log[|log| - 1].ts
        && forall e :: e in log && e.ts <= r[|r| - 1].ts ==> e in delivered + r
  {
    var r := Since(log[..seen], since);
    SinceFacts(log[..seen], since);
    if r != [] {
      assert r[|r| - 1] == log[seen - 1];
      forall e | e in log && since < e.ts <= r[|r| - 1].ts ensures e in r {
        var j :| 0 <= j < |log| && log[j] == e;
        assert log[..seen][j] == e;
      }
    }
  }

  lemma AnswerCatchesUp(s: System, i: nat, seen: nat, status: Status)
    requires NoGap(s) && i < |s.inFlight| && seen <= |s.log|
    ensures var t := Next(s, Answers(i, seen, status)); CaughtUp(t, t.poller.since)
  {
    var t, k := Next(s, Answers(i, seen, status)), s.inFlight[i];
    assert CaughtUp(s, k);
    AnswerCovers(s.log, s.poller.delivered, seen, k);
    MoreDelivered(s, t, s.poller.since);
  }

  lemma AnswerKeepsNoGap(s: System, i: nat, seen: nat, status: Status)
    requires NoGap(s) && i < |s.inFlight| && seen <= |s.log|
    ensures NoGap(Next(s, Answers(i, seen, status)))
  {
    var t := Next(s, Answers(i, seen, status));
    AnswerCatchesUp(s, i, seen, status);
    forall j | j in t.inFlight ensures CaughtUp(t, j) {
      assert j in s.inFlight;
      MoreDelivered(s, t, j);
    }
  }

  lemma MoreDelivered(s: System, t: System, since: int)
    requires CaughtUp(s, since) && t.log == s.log && s.poller.delivered <= t.poller.delivered
    ensures CaughtUp(t, since)
  {
  }

  lemma StepKeepsNoGap(s: System, a: Step)
    requires NoGap(s) && Enabled(s, a)
    ensures NoGap(Next(s, a))
  {
    var t := Next(s, a);
    match a {
      case Logs(e) =>
        forall k | k == t.poller.since || k in t.inFlight ensures CaughtUp(t, k) {
          assert CaughtUp(s, k);
        }
      case Answers(i, seen, status) => AnswerKeepsNoGap(s, i, seen, status);
      case _ =>
        forall k | k in t.inFlight ensures CaughtUp(t, k) {
          assert k in s.inFlight || k == s.poller.since || k == 0;
        }
    }
  }

  // Main result: with polls overlapping, failing, answered late or out of order, over every
  // run, nothing at or before the cursor is missing from what was delivered.
  lemma {:induction false} NeverAGap(s: System, run: seq<Step>)
    requires NoGap(s) && Possible(s, run)
    ensures NoGap(Run(s, run))
    decreases run
  {
    if run != [] {
      StepKeepsNoGap(s, run[0]);
      NeverAGap(Next(s, run[0]), run[1..]);
    }
  }

  lemma NeverAGapFromStart(run: seq<Step>)
    requires Possible(Fresh, run)
    ensures var s := Run(Fresh, run);
      forall e :: e in s.log && e.ts <= s.poller.since ==> e in s.poller.delivered
  {
    NeverAGap(Fresh, run);
  }

  /******* One poll at a time *******/

  // The run never has a second poll under way, and starts polling once.
  ghost predicate OneAtATime(s: System, run: seq<Step>)
    requires Possible(s, run)
    decreases run
  {
    run == [] ||
    (&& !run[0].Starts? && (run[0].TimerFires? ==> s.inFlight == [])
     && OneAtATime(Next(s, run[0]), run[1..]))
  }

  // Delivered is a prefix of the log, the cursor stands at its end, and a poll under way
  // left with this cursor. Completion is reported once, and stops everything.
  ghost predicate InStep(s: System)
  {
    && Increasing(s.log)
    && At(s.log, s.poller, |s.poller.delivered|)
    && |s.inFlight| <= 1 && (s.inFlight == [] || s.inFlight == [s.poller.since])
    && |s.poller.completions| <= 1
    && (s.poller.completions != [] ==> !s.poller.timer && s.inFlight == [])
  }

  lemma {:induction false} SinceNothing(log: seq<Event>, since: int)
    requires forall i :: 0 <= i < |log| ==> log[i].ts <= since
    ensures Since(log, since) == []
  {
    if log != [] { SinceNothing(log[..|log| - 1], since); }
  }

  function TsOf(log: seq<Event>, n: nat): int
    requires n <= |log|
  {
    if n == 0 then 0 else log[n - 1].ts
  }

  lemma {:induction false} SinceIsSuffix(log: seq<Event>, n: nat)
    requires Increasing(log) && n <= |log|
    ensures Since(log, TsOf(log, n)) == log[n..]
  {
    var last := |log| - 1;
    if n <= last {
      SinceIsSuffix(log[..last], n);
      assert log[n..] == log[..last][n..] + [log[last]];
    } else {
      SinceNothing(log, TsOf(log, n));
    }
  }

  // What one poll at the end of the delivered prefix brings in.
  lemma AnswerExtends(log: seq<Event>, n: nat, seen: nat)
    requires Increasing(log) && n <= |log| && seen <= |log|
    ensures var r := Since(log[..seen], TsOf(log, n));
      && log[..n] + r == log[..if seen <= n then n else seen]
      && (r != [] ==> n < seen && r[|r| - 1].ts == TsOf(log, seen))
      && (r == [] ==> seen <= n)
  {
    if seen <= n {
      SinceNothing(log[..seen], TsOf(log, n));
    } else {
      SinceIsSuffix(log[..seen], n);
      assert TsOf(log[..seen], n) == TsOf(log, n);
      assert log[..n] + log[..seen][n..] == log[..seen];
    }
  }

  // The log, and a poller whose cursor stands behind the first n events, all delivered.
  ghost predicate At(log: seq<Event>, p: Poller, n: nat)
  {
    n <= |log| && p.delivered == log[..n] && p.since == TsOf(log, n)
  }

  lemma AnswerMoves(log: seq<Event>, p: Poller, n: nat, seen: nat, status: Status)
    requires Increasing(log) && At(log, p, n) && seen <= |log|
    ensures At(log, Answered(p, State(Since(log[..seen], p.since), status)), if seen <= n then n else seen)
  {
    AnswerExtends(log, n, seen);
  }

  lemma WithoutOnly(s: seq<int>, i: nat)
    requires |s| <= 1 && i < |s|
    ensures Without(s, i) == [] && i == 0
  {
  }

  lemma LogsInStep(s: System, e: Event)
    requires InStep(s) && Enabled(s, Logs(e))
    ensures InStep(Next(s, Logs(e)))
  {
  }

  lemma StepInStep(s: System, a: Step)
    requires InStep(s) && Enabled(s, a) && !a.Starts? && (a.TimerFires? ==> s.inFlight == [])
    ensures InStep(Next(s, a))
  {
    var n := |s.poller.delivered|;
    match a {
      case Logs(e) => LogsInStep(s, e);
      case Answers(i, seen, status) =>
        WithoutOnly(s.inFlight, i);
        AnswerMoves(s.log, s.poller, n, seen, status);
      case Vanishes(i) => WithoutOnly(s.inFlight, i);
      case Fails(i) => WithoutOnly(s.inFlight, i);
      case _ =>
    }
  }

  // Main result: while no two polls overlap, what was delivered is a prefix of the log, each
  // event once and in order, and completion is reported at most once.
  lemma {:induction false} PrefixExactly(s: System, run: seq<Step>)
    requires InStep(s) && Possible(s, run) && OneAtATime(s, run)
    ensures InStep(Run(s, run))
    decreases run
  {
    if run != [] {
      StepInStep(s, run[0]);
      PrefixExactly(Next(s, run[0]), run[1..]);
    }
  }

  // From the start: the log as it grew before polling began, then one poll at a time.
  lemma PrefixExactlyFromStart(log: seq<Event>, run: seq<Step>)
    requires Increasing(log)
    requires var s := System(log, Started(Fresh.poller), [0]); Possible(s, run) && OneAtATime(s, run)
    ensures var s := Run(System(log, Started(Fresh.poller), [0]), run);
      && s.poller.delivered <= s.log
      && |s.poller.completions| <= 1
  {
    PrefixExactly(System(log, Started(Fresh.poller), [0]), run);
  }

  /******* Overlapping polls *******/

  ghost predicate Distinct(es: seq<Event>)
  {
    forall i, j :: 0 <= i < j < |es| ==> es[i] != es[j]
  }

  // A poll's answer brings an event again.
  ghost predicate Repeats(s: System, a: Step)
    requires Enabled(s, a)
  {
    a.Answers? && exists e :: e in s.log[..a.seen] && e.ts > s.inFlight[a.i] && e in s.poller.delivered
  }

  // The answer is not empty, and its poll's own cursor is stale: something behind that
  // cursor has been delivered by now. The hook could look at this before it delivers.
  ghost predicate Stale(s: System, a: Step)
    requires Enabled(s, a)
  {
    && a.Answers?
    && (exists e :: e in s.log[..a.seen] && e.ts > s.inFlight[a.i])
    && (exists f :: f in s.poller.delivered && f.ts > s.inFlight[a.i])
  }

  // Whatever is delivered is in the log, and so has been everything logged before it.
  ghost predicate DownwardClosed(s: System)
  {
    && (forall f :: f in s.poller.delivered ==> f in s.log)
    && (forall e, f :: e in s.log && f in s.poller.delivered && e.ts <= f.ts ==> e in s.poller.delivered)
  }

  // The events of an answer and those before them, down to the start of the log.
  lemma AnswerIsClosed(s: System, i: nat, seen: nat, e: Event, f: Event)
    requires NoGap(s) && i < |s.inFlight| && seen <= |s.log|
    requires f in Since(s.log[..seen], s.inFlight[i]) && e in s.log && e.ts <= f.ts
    ensures f in s.log && e in s.poller.delivered + Since(s.log[..seen], s.inFlight[i])
  {
    var k := s.inFlight[i];
    assert CaughtUp(s, k);
    AnswerCovers(s.log, s.poller.delivered, seen, k);
    SinceFacts(s.log[..seen], k);
    NewestOfLog(s.log[..seen], f);
  }

  lemma AnswerStaysClosed(s: System, i: nat, seen: nat, status: Status)
    requires NoGap(s) && DownwardClosed(s) && i < |s.inFlight| && seen <= |s.log|
    ensures DownwardClosed(Next(s, Answers(i, seen, status)))
  {
    var r := Since(s.log[..seen], s.inFlight[i]);
    forall e, f | e in s.log && f in s.poller.delivered + r && e.ts <= f.ts
      ensures f in s.log && e in s.poller.delivered + r
    {
      if f in r { AnswerIsClosed(s, i, seen, e, f); }
    }
    forall f | f in s.poller.delivered + r ensures f in s.log {
      if f in r { SinceFacts(s.log[..seen], s.inFlight[i]); }
    }
    assert Next(s, Answers(i, seen, status)).poller.delivered == s.poller.delivered + r;
  }

  lemma NewestOfLog(log: seq<Event>, f: Event)
    requires Increasing(log) && f in log
    ensures f.ts <= log[|log| - 1].ts
  {
  }

  lemma LogsStaysClosed(s: System, e: Event)
    requires Increasing(s.log) && DownwardClosed(s) && Enabled(s, Logs(e))
    ensures DownwardClosed(Next(s, Logs(e)))
  {
    forall f | f in s.poller.delivered ensures f.ts < e.ts {
      NewestOfLog(s.log, f);
    }
  }

  lemma StepStaysClosed(s: System, a: Step)
    requires NoGap(s) && DownwardClosed(s) && Enabled(s, a)
    ensures DownwardClosed(Next(s, a))
  {
    match a {
      case Logs(e) => LogsStaysClosed(s, e);
      case Answers(i, seen, status) => AnswerStaysClosed(s, i, seen, status);
      case _ =>
    }
  }

  // An answer repeats exactly when its cursor is stale.
  lemma RepeatsIffStale(s: System, a: Step)
    requires Increasing(s.log) && DownwardClosed(s) && Enabled(s, a)
    ensures Repeats(s, a) <==> Stale(s, a)
  {
    if Stale(s, a) {
      var e :| e in s.log[..a.seen] && e.ts > s.inFlight[a.i];
      var f :| f in s.poller.delivered && f.ts > s.inFlight[a.i];
      if f.ts < e.ts { SeenToo(s.log, a.seen, e, f); }
    }
  }

  lemma SeenToo(log: seq<Event>, seen: nat, e: Event, f: Event)
    requires Increasing(log) && seen <= |log| && e in log[..seen] && f in log && f.ts < e.ts
    ensures f in log[..seen]
  {
    var i :| 0 <= i < seen && log[i] == e;
    var j :| 0 <= j < |log| && log[j] == f;
    assert j < i;
    assert log[..seen][j] == f;
  }

  lemma {:induction false} SinceDistinct(log: seq<Event>, since: int)
    requires Increasing(log)
    ensures Distinct(Since(log, since))
  {
    if log != [] {
      var n := |log| - 1;
      SinceDistinct(log[..n], since);
      SinceFacts(log[..n], since);
      forall e | e in Since(log[..n], since) ensures e != log[n] {
        assert e in log[..n];
      }
    }
  }

  lemma DistinctAppend(a: seq<Event>, b: seq<Event>)
    requires Distinct(b)
    ensures Distinct(a + b) <==> Distinct(a) && forall e :: e in b ==> e !in a
  {
    var c := a + b;
    assert forall i :: 0 <= i < |a| ==> c[i] == a[i];
    assert forall i :: 0 <= i < |b| ==> c[|a| + i] == b[i];
    if Distinct(c) {
      forall i, j | 0 <= i < j < |a| ensures a[i] != a[j] {
        assert c[i] != c[j];
      }
    } else {
      var i, j :| 0 <= i < j < |c| && c[i] == c[j];
      assert i < |a| <= j ==> c[j] in b && c[i] in a;
    }
  }

  lemma AnswerRepeatsIff(s: System, a: Step)
    requires Increasing(s.log) && Enabled(s, a)
    ensures Distinct(Next(s, a).poller.delivered) <==> Distinct(s.poller.delivered) && !Repeats(s, a)
  {
    match a {
      case Answers(i, seen, _) =>
        var r := Since(s.log[..seen], s.inFlight[i]);
        SinceFacts(s.log[..seen], s.inFlight[i]);
        SinceDistinct(s.log[..seen], s.inFlight[i]);
        DistinctAppend(s.poller.delivered, r);
        assert s.poller.delivered + [] == s.poller.delivered;
      case _ =>
    }
  }

  ghost predicate NeverStale(s: System, run: seq<Step>)
    requires Possible(s, run)
    decreases run
  {
    run == [] || (!Stale(s, run[0]) && NeverStale(Next(s, run[0]), run[1..]))
  }

  // The answers that report an end of the task.
  function Endings(run: seq<Step>): nat
  {
    if run == [] then 0 else (if run[0].Answers? && run[0].status != Running then 1 else 0) + Endings(run[1..])
  }

  // Main result: over every run, with polls overlapping as they may, each event is delivered
  // at most once exactly when no answer that brings something comes to a poll whose cursor
  // has gone stale; and every answer with an end reports it.
  lemma {:induction false} DeliveredOnceIff(s: System, run: seq<Step>)
    requires NoGap(s) && DownwardClosed(s) && Possible(s, run)
    ensures Distinct(Run(s, run).poller.delivered) <==> Distinct(s.poller.delivered) && NeverStale(s, run)
    ensures |Run(s, run).poller.completions| == |s.poller.completions| + Endings(run)
    decreases run
  {
    if run != [] {
      AnswerRepeatsIff(s, run[0]);
      RepeatsIffStale(s, run[0]);
      StepKeepsNoGap(s, run[0]);
      StepStaysClosed(s, run[0]);
      DeliveredOnceIff(Next(s, run[0]), run[1..]);
    }
  }

  lemma DeliveredOnceFromStart(run: seq<Step>)
    requires Possible(Fresh, run)
    ensures Distinct(Run(Fresh, run).poller.delivered) <==> NeverStale(Fresh, run)
  {
    DeliveredOnceIff(Fresh, run);
  }

  // Two polls under way with one cursor deliver the same event twice, and report the end twice.
  lemma OverlapRepeats(e: Event)
    requires e.ts > 0
    ensures var end := Answers(0, 1, Completed);
      var s1 := Next(System([e], Started(Fresh.poller), [0]), TimerFires);
      && Enabled(s1, end)
      && var s2 := Next(s1, end);
      && Enabled(s2, end)
      && Next(s2, end).poller.delivered == [e, e]
      && Next(s2, end).poller.completions == [Completed, Completed]
  {
    var s1 := Next(System([e], Started(Fresh.poller), [0]), TimerFires);
    assert s1.inFlight == [0, 0];
    OverlapAnswer(e, s1);
    OverlapAnswer(e, Next(s1, Answers(0, 1, Completed)));
  }

  lemma OverlapAnswer(e: Event, s: System)
    requires e.ts > 0 && s.log == [e] && s.inFlight != [] && s.inFlight[0] == 0
    ensures var t := Next(s, Answers(0, 1, Completed));
      && t.log == [e] && t.inFlight == s.inFlight[1..]
      && t.poller.delivered == s.poller.delivered + [e]
      && t.poller.completions == s.poller.completions + [Completed]
  {
    assert [e][..1] == [e] && [e][..0] == [];
    assert Since([e], 0) == [e];
    assert s.inFlight[..0] + s.inFlight[1..] == s.inFlight[1..];
  }
}

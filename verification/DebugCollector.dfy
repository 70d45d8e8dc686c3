/** The debug collector: three capped buffers, emptied into reports and refilled from the
    reports that fail. */
module DebugCollector {

  const CONSOLE_CAP: nat := 500
  const NETWORK_CAP: nat := 200
  const UI_CAP: nat := 500

  // Keeps the newest cap entries.
  function Pruned<T>(buffer: seq<T>, cap: nat): seq<T>
  {
    if |buffer| > cap then buffer[|buffer| - cap..] else buffer
  }

  function Dropped<T>(buffer: seq<T>, cap: nat): seq<T>
  {
    if |buffer| > cap then buffer[..|buffer| - cap] else []
  }

  /******* One of the three lanes over time *******/

  // A lane's entries are produced one by one. Its reports are under way, or have arrived, or
  // have failed and been put back; pruned entries are gone.
  datatype Lane<T> =
    Lane(produced: seq<T>, buffer: seq<T>, inFlight: seq<seq<T>>, reported: seq<T>, pruned: seq<T>)

  datatype Act<T> =
    | Log(entry: T)
    | Report
    | Succeed(i: nat)
    | Fail(i: nat)

  predicate Enabled<T>(l: Lane<T>, a: Act<T>)
  {
    match a
    case Succeed(i) => i < |l.inFlight|
    case Fail(i) => i < |l.inFlight|
    case _ => true
  }

  function Refilled<T>(l: Lane<T>, buffer: seq<T>, cap: nat): Lane<T>
  {
    l.(buffer := Pruned(buffer, cap), pruned := l.pruned + Dropped(buffer, cap))
  }

  function Landed<T>(l: Lane<T>, i: nat): Lane<T>
    requires i < |l.inFlight|
  {
    l.(inFlight := l.inFlight[..i] + l.inFlight[i + 1..])
  }

  function Next<T>(l: Lane<T>, a: Act<T>, cap: nat): Lane<T>
    requires Enabled(l, a)
  {
    match a
    case Log(entry) => Refilled(l, l.buffer + [entry], cap).(produced := l.produced + [entry])
    case Report => l.(buffer := [], inFlight := l.inFlight + [l.buffer])
    case Succeed(i) => Landed(l, i).(reported := l.reported + l.inFlight[i])
    case Fail(i) => Refilled(Landed(l, i), l.inFlight[i] + l.buffer, cap)
  }

  ghost predicate Possible<T>(l: Lane<T>, acts: seq<Act<T>>, cap: nat)
    decreases acts
  {
    acts == [] || (Enabled(l, acts[0]) && Possible(Next(l, acts[0], cap), acts[1..], cap))
  }

  function Run<T>(l: Lane<T>, acts: seq<Act<T>>, cap: nat): Lane<T>
    requires Possible(l, acts, cap)
    decreases acts
  {
    if acts == [] then l else Run(Next(l, acts[0], cap), acts[1..], cap)
  }

  function Empty<T>(): Lane<T>
  {
    Lane([], [], [], [], [])
  }

  /******* The class *******/

  datatype Payload<T> = Payload(consoleLogs: seq<T>, networkRequests: seq<T>, uiEvents: seq<T>)

  // Each buffer is the buffer of a lane, and the reports of the three lanes go together.
  class Collector<T> {
    var consoleLogs: seq<T>
    var networkRequests: seq<T>
    var uiEvents: seq<T>
    ghost var console: Lane<T>
    ghost var network: Lane<T>
    ghost var ui: Lane<T>

    ghost predicate Valid()
      reads this
    {
      && consoleLogs == console.buffer && networkRequests == network.buffer && uiEvents == ui.buffer
      && |console.inFlight| == |network.inFlight| == |ui.inFlight|
    }

    // What report i carries.
    ghost function UnderWay(i: nat): Payload<T>
      requires Valid() && i < |ui.inFlight|
      reads this
    {
      Payload(console.inFlight[i], network.inFlight[i], ui.inFlight[i])
    }

    constructor ()
      ensures Valid() && consoleLogs == networkRequests == uiEvents == []
      ensures console == network == ui == Empty()
    {
      consoleLogs, networkRequests, uiEvents := [], [], [];
      console, network, ui := Empty(), Empty(), Empty();
    }

    method LogConsole(entry: T)
      requires Valid()
      modifies this`consoleLogs, this`console
      ensures Valid() && console == Next(old(console), Log(entry), CONSOLE_CAP)
    {
      consoleLogs := PruneBuffer(consoleLogs + [entry], CONSOLE_CAP);
      console := Next(console, Log(entry), CONSOLE_CAP);
    }

    method LogNetwork(entry: T)
      requires Valid()
      modifies this`networkRequests, this`network
      ensures Valid() && network == Next(old(network), Log(entry), NETWORK_CAP)
    {
      networkRequests := PruneBuffer(networkRequests + [entry], NETWORK_CAP);
      network := Next(network, Log(entry), NETWORK_CAP);
    }

    method LogUiEvent(entry: T)
      requires Valid()
      modifies this`uiEvents, this`ui
      ensures Valid() && ui == Next(old(ui), Log(entry), UI_CAP)
    {
      uiEvents := PruneBuffer(uiEvents + [entry], UI_CAP);
      ui := Next(ui, Log(entry), UI_CAP);
    }

    // Takes everything out of the buffers; with nothing to send there is no request.
    method ReportLogs() returns (sent: bool, p: Payload<T>)
      requires Valid()
      modifies this
      ensures Valid() && (sent <==> p != Payload([], [], []))
      ensures p == Payload(old(consoleLogs), old(networkRequests), old(uiEvents))
      ensures if sent then
          && console == Next(old(console), Report, CONSOLE_CAP)
          && network == Next(old(network), Report, NETWORK_CAP)
          && ui == Next(old(ui), Report, UI_CAP)
          && p == UnderWay(|ui.inFlight| - 1)
        else console == old(console) && network == old(network) && ui == old(ui)
    {
      p := Payload(consoleLogs, networkRequests, uiEvents);
      consoleLogs, networkRequests, uiEvents := [], [], [];
      sent := |p.consoleLogs| > 0 || |p.networkRequests| > 0 || |p.uiEvents| > 0;
      if sent {
        console := Next(console, Report, CONSOLE_CAP);
        network := Next(network, Report, NETWORK_CAP);
        ui := Next(ui, Report, UI_CAP);
      }
    }

    // Report i arrived: the page forgets it.
    ghost method Arrived(i: nat)
      requires Valid() && i < |ui.inFlight|
      modifies this`console, this`network, this`ui
      ensures Valid() && console == Next(old(console), Succeed(i), CONSOLE_CAP)
      ensures network == Next(old(network), Succeed(i), NETWORK_CAP) && ui == Next(old(ui), Succeed(i), UI_CAP)
    {
      console := Next(console, Succeed(i), CONSOLE_CAP);
      network := Next(network, Succeed(i), NETWORK_CAP);
      ui := Next(ui, Succeed(i), UI_CAP);
    }

    // Report i failed: its data goes back in front, within the caps.
    method PutBack(p: Payload<T>, ghost i: nat)
      requires Valid() && i < |ui.inFlight| && p == UnderWay(i)
      modifies this
      ensures Valid() && console == Next(old(console), Fail(i), CONSOLE_CAP)
      ensures network == Next(old(network), Fail(i), NETWORK_CAP) && ui == Next(old(ui), Fail(i), UI_CAP)
    {
      consoleLogs := PruneBuffer(p.consoleLogs + consoleLogs, CONSOLE_CAP);
      networkRequests := PruneBuffer(p.networkRequests + networkRequests, NETWORK_CAP);
      uiEvents := PruneBuffer(p.uiEvents + uiEvents, UI_CAP);
      console := Next(console, Fail(i), CONSOLE_CAP);
      network := Next(network, Fail(i), NETWORK_CAP);
      ui := Next(ui, Fail(i), UI_CAP);
    }
  }

  method PruneBuffer<T>(buffer: seq<T>, cap: nat) returns (r: seq<T>)
    ensures r == Pruned(buffer, cap) && |r| == (if |buffer| <= cap then |buffer| else cap)
    ensures Dropped(buffer, cap) + r == buffer
  {
    r := buffer;
    if |r| > cap { r := r[|r| - cap..]; }
  }

  /******* Conservation *******/

  function Flat<T>(bs: seq<seq<T>>): seq<T>
  {
    if bs == [] then [] else bs[0] + Flat(bs[1..])
  }

  function Everywhere<T>(l: Lane<T>): multiset<T>
  {
    multiset(l.reported) + multiset(Flat(l.inFlight)) + multiset(l.buffer) + multiset(l.pruned)
  }

  ghost predicate Conserved<T>(l: Lane<T>, cap: nat)
  {
    Everywhere(l) == multiset(l.produced) && |l.buffer| <= cap
  }

  lemma {:induction false} FlatAppend<T>(xs: seq<seq<T>>, ys: seq<seq<T>>)
    ensures Flat(xs + ys) == Flat(xs) + Flat(ys)
  {
    if xs == [] {
      assert xs + ys == ys;
    } else {
      assert (xs + ys)[1..] == xs[1..] + ys;
      FlatAppend(xs[1..], ys);
    }
  }

  lemma {:induction false} FlatTake<T>(bs: seq<seq<T>>, i: nat)
    requires i < |bs|
    ensures multiset(Flat(bs)) == multiset(Flat(bs[..i] + bs[i + 1..])) + multiset(bs[i])
    decreases i
  {
    var left := bs[..i] + bs[i + 1..];
    if i == 0 {
      assert left == bs[1..];
    } else {
      FlatTake(bs[1..], i - 1);
      assert left[1..] == bs[1..][..i - 1] + bs[1..][i..];
      assert left[0] == bs[0];
    }
  }

  lemma RefillConserves<T>(l: Lane<T>, buffer: seq<T>, cap: nat)
    ensures Everywhere(Refilled(l, buffer, cap)) == Everywhere(l.(buffer := buffer))
  {
    assert buffer == Dropped(buffer, cap) + Pruned(buffer, cap);
  }

  lemma LogConserves<T>(l: Lane<T>, entry: T, cap: nat)
    requires Conserved(l, cap)
    ensures Conserved(Next(l, Log(entry), cap), cap)
  {
    RefillConserves(l, l.buffer + [entry], cap);
    assert multiset(l.buffer + [entry]) == multiset(l.buffer) + multiset{entry};
  }

  lemma ReportConserves<T>(l: Lane<T>, cap: nat)
    requires Conserved(l, cap)
    ensures Conserved(Next(l, Report, cap), cap)
  {
    FlatAppend(l.inFlight, [l.buffer]);
    assert Flat([l.buffer]) == l.buffer;
    assert multiset(Flat(l.inFlight) + l.buffer) == multiset(Flat(l.inFlight)) + multiset(l.buffer);
  }

  lemma AnswerConserves<T>(l: Lane<T>, i: nat, cap: nat)
    requires Conserved(l, cap) && i < |l.inFlight|
    ensures Conserved(Next(l, Succeed(i), cap), cap) && Conserved(Next(l, Fail(i), cap), cap)
  {
    var batch := l.inFlight[i];
    FlatTake(l.inFlight, i);
    assert multiset(l.reported + batch) == multiset(l.reported) + multiset(batch);
    RefillConserves(Landed(l, i), batch + l.buffer, cap);
    assert multiset(batch + l.buffer) == multiset(batch) + multiset(l.buffer);
  }

  lemma {:induction false} StepConserves<T>(l: Lane<T>, a: Act<T>, cap: nat)
    requires Conserved(l, cap) && Enabled(l, a)
    ensures Conserved(Next(l, a, cap), cap)
  {
    match a {
      case Log(entry) => LogConserves(l, entry, cap);
      case Report => ReportConserves(l, cap);
      case Succeed(i) => AnswerConserves(l, i, cap);
      case Fail(i) => AnswerConserves(l, i, cap);
    }
  }

  lemma {:induction false} RunConserves<T>(l: Lane<T>, acts: seq<Act<T>>, cap: nat)
    requires Conserved(l, cap) && Possible(l, acts, cap)
    ensures Conserved(Run(l, acts, cap), cap)
    decreases acts
  {
    if acts != [] {
      StepConserves(l, acts[0], cap);
      RunConserves(Next(l, acts[0], cap), acts[1..], cap);
    }
  }

  // Main result: with any number of reports overlapping, every entry is, as often as it was
  // produced, in exactly one place: reported, under way, buffered or pruned; and the cap holds.
  lemma EachEntryOnce<T>(acts: seq<Act<T>>, cap: nat, x: T)
    requires Possible(Empty(), acts, cap)
    ensures var l := Run(Empty(), acts, cap);
      && multiset(l.reported)[x] + multiset(Flat(l.inFlight))[x] + multiset(l.buffer)[x] + multiset(l.pruned)[x]
         == multiset(l.produced)[x]
      && |l.buffer| <= cap
  {
    RunConserves(Empty(), acts, cap);
  }

  // The entries that a run logs, in order.
  function Logged<T>(acts: seq<Act<T>>): seq<T>
  {
    if acts == [] then [] else (if acts[0].Log? then [acts[0].entry] else []) + Logged(acts[1..])
  }

  // Those are the ones produced.
  lemma {:induction false} LoggedIsProduced<T>(l: Lane<T>, acts: seq<Act<T>>, cap: nat)
    requires Possible(l, acts, cap)
    ensures Run(l, acts, cap).produced == l.produced + Logged(acts)
    decreases acts
  {
    if acts == [] {
      assert l.produced + [] == l.produced;
    } else {
      var n := Next(l, acts[0], cap);
      LoggedIsProduced(n, acts[1..], cap);
      Regroup(l.produced, if acts[0].Log? then [acts[0].entry] else [], Logged(acts[1..]));
      assert l.produced + [] == l.produced;
    }
  }

  // Only what does not fit is pruned, the oldest first: a step that prunes leaves the buffer
  // full of the newest entries.
  lemma PrunesOnlyOverflow<T>(l: Lane<T>, a: Act<T>, cap: nat)
    requires Enabled(l, a)
    ensures var n := Next(l, a, cap);
      && l.pruned <= n.pruned
      && (n.pruned != l.pruned ==> |n.buffer| == cap)
      && (a.Log? ==> n.pruned[|l.pruned|..] + n.buffer == l.buffer + [a.entry])
      && (a.Fail? ==> n.pruned[|l.pruned|..] + n.buffer == l.inFlight[a.i] + l.buffer)
      && (a.Report? || a.Succeed? ==> n.pruned == l.pruned)
  {
  }

  /******* Order *******/

  // Entries are numbered as they are produced, and no two reports overlap.
  ghost predicate OneAtATime(l: Lane<nat>, acts: seq<Act<nat>>, cap: nat)
    requires Possible(l, acts, cap)
    decreases acts
  {
    acts == [] ||
    (&& (acts[0].Log? ==> acts[0].entry == |l.produced|)
     && (acts[0].Report? ==> l.inFlight == [])
     && OneAtATime(Next(l, acts[0], cap), acts[1..], cap))
  }

  ghost predicate Ascending(s: seq<nat>, below: nat)
  {
    && (forall i, j :: 0 <= i < j < |s| ==> s[i] < s[j])
    && (forall i :: 0 <= i < |s| ==> s[i] < below)
  }

  function InOrder(l: Lane<nat>): seq<nat>
  {
    l.reported + Flat(l.inFlight) + l.buffer
  }

  lemma FlatOne<T>(bs: seq<seq<T>>)
    requires |bs| <= 1
    ensures Flat(bs) == if bs == [] then [] else bs[0]
  {
  }

  lemma AscendingDrop(a: seq<nat>, b: seq<nat>, cap: nat, below: nat)
    requires Ascending(a + b, below)
    ensures Ascending(a + Pruned(b, cap), below)
  {
    if |b| > cap {
      var r, d := a + Pruned(b, cap), |b| - cap;
      forall i | 0 <= i < |r| ensures r[i] == (a + b)[if i < |a| then i else i + d] {
      }
    }
  }

  lemma StepInOrder(l: Lane<nat>, a: Act<nat>, cap: nat)
    requires Enabled(l, a) && |l.inFlight| <= 1 && Ascending(InOrder(l), |l.produced|)
    requires a.Log? ==> a.entry == |l.produced|
    requires a.Report? ==> l.inFlight == []
    ensures var n := Next(l, a, cap); |n.inFlight| <= 1 && Ascending(InOrder(n), |n.produced|)
  {
    match a {
      case Log(_) => LogInOrder(l, cap);
      case Report => ReportInOrder(l, cap);
      case Succeed(i) => SuccessInOrder(l, cap);
      case Fail(i) => FailureInOrder(l, cap);
    }
  }

  lemma LogInOrder(l: Lane<nat>, cap: nat)
    requires Ascending(InOrder(l), |l.produced|)
    ensures Ascending(InOrder(Next(l, Log(|l.produced|), cap)), |l.produced| + 1)
  {
    var front := l.reported + Flat(l.inFlight);
    assert front + (l.buffer + [|l.produced|]) == InOrder(l) + [|l.produced|];
    AscendingDrop(front, l.buffer + [|l.produced|], cap, |l.produced| + 1);
  }

  lemma ReportInOrder(l: Lane<nat>, cap: nat)
    requires l.inFlight == []
    ensures InOrder(Next(l, Report, cap)) == InOrder(l)
  {
    FlatOne([l.buffer]);
    assert l.inFlight + [l.buffer] == [l.buffer];
  }

  lemma SuccessInOrder(l: Lane<nat>, cap: nat)
    requires |l.inFlight| == 1
    ensures InOrder(Next(l, Succeed(0), cap)) == InOrder(l)
  {
  }

  lemma FailureInOrder(l: Lane<nat>, cap: nat)
    requires |l.inFlight| == 1 && Ascending(InOrder(l), |l.produced|)
    ensures Ascending(InOrder(Next(l, Fail(0), cap)), |l.produced|)
  {
    var batch := l.inFlight[0];
    FlatOne(l.inFlight);
    assert Landed(l, 0).inFlight == [];
    Regroup(l.reported, batch, l.buffer);
    AscendingDrop(l.reported, batch + l.buffer, cap, |l.produced|);
    assert l.reported + [] == l.reported;
  }

  lemma Regroup<T>(a: seq<T>, b: seq<T>, c: seq<T>)
    ensures (a + b) + c == a + (b + c)
  {
  }

  // Main result: while no two reports overlap, what was reported, what is under way and what
  // is buffered follow each other in the order of production.
  lemma {:induction false} OrderIsKept(l: Lane<nat>, acts: seq<Act<nat>>, cap: nat)
    requires Possible(l, acts, cap) && OneAtATime(l, acts, cap)
    requires |l.inFlight| <= 1 && Ascending(InOrder(l), |l.produced|)
    ensures Ascending(InOrder(Run(l, acts, cap)), |Run(l, acts, cap).produced|)
    decreases acts
  {
    if acts != [] {
      StepInOrder(l, acts[0], cap);
      OrderIsKept(Next(l, acts[0], cap), acts[1..], cap);
    }
  }

  // The first above the last, where both are.
  predicate Follows(a: seq<nat>, b: seq<nat>)
  {
    a == [] || b == [] || a[|a| - 1] < b[0]
  }

  lemma AscendingAppend(a: seq<nat>, b: seq<nat>, below: nat)
    requires Ascending(a, below) && Ascending(b, below)
    ensures Ascending(a + b, below) <==> Follows(a, b)
  {
    var c := a + b;
    if a != [] && b != [] {
      assert c[|a| - 1] == a[|a| - 1] && c[|a|] == b[0];
      if Follows(a, b) {
        forall i, j | 0 <= i < j < |c| ensures c[i] < c[j] {
          if i < |a| <= j {
            assert a[i] <= a[|a| - 1] && b[0] <= b[j - |a|];
          }
        }
      }
    } else {
      assert c == if a == [] then b else a;
    }
  }

  // The lane after report i has failed, its data has been sent again with what was logged
  // meanwhile, and that report has arrived.
  function Retried(l: Lane<nat>, i: nat, cap: nat): Lane<nat>
    requires i < |l.inFlight|
  {
    var sent := Next(Next(l, Fail(i), cap), Report, cap);
    Next(sent, Succeed(|sent.inFlight| - 1), cap)
  }

  // Main result: with reports overlapping as they may, a retry keeps the reported entries in
  // order of production exactly when what is left of the failed report precedes the buffer,
  // and nothing newer than both has been reported meanwhile.
  lemma RetryInOrderIff(l: Lane<nat>, i: nat, cap: nat, below: nat)
    requires i < |l.inFlight|
    requires Ascending(l.reported, below) && Ascending(l.inFlight[i], below) && Ascending(l.buffer, below)
    requires |l.buffer| <= cap
    ensures var room := cap - |l.buffer|;
      var kept := Pruned(l.inFlight[i], room);
      && Retried(l, i, cap).reported == l.reported + (kept + l.buffer)
      && (Ascending(Retried(l, i, cap).reported, below)
          <==> Follows(kept, l.buffer) && Follows(l.reported, kept + l.buffer))
  {
    RetryReports(l, i, cap);
    AscendingPruned(l.inFlight[i], cap - |l.buffer|, below);
    InThree(l.reported, Pruned(l.inFlight[i], cap - |l.buffer|), l.buffer, below);
  }

  lemma RetryReports(l: Lane<nat>, i: nat, cap: nat)
    requires i < |l.inFlight| && |l.buffer| <= cap
    ensures Retried(l, i, cap).reported == l.reported + (Pruned(l.inFlight[i], cap - |l.buffer|) + l.buffer)
  {
    assert Pruned(l.inFlight[i] + l.buffer, cap) == Pruned(l.inFlight[i], cap - |l.buffer|) + l.buffer;
  }

  lemma AscendingPruned(batch: seq<nat>, room: nat, below: nat)
    requires Ascending(batch, below)
    ensures Ascending(Pruned(batch, room), below)
  {
    assert [] + batch == batch && [] + Pruned(batch, room) == Pruned(batch, room);
    AscendingDrop([], batch, room, below);
  }

  lemma InThree(a: seq<nat>, b: seq<nat>, c: seq<nat>, below: nat)
    requires Ascending(a, below) && Ascending(b, below) && Ascending(c, below)
    ensures Ascending(a + (b + c), below) <==> Follows(b, c) && Follows(a, b + c)
  {
    AscendingAppend(b, c, below);
    if Follows(b, c) {
      AscendingAppend(a, b + c, below);
    } else if Ascending(a + (b + c), below) {
      AscendingRight(a, b + c, below);
    }
  }

  lemma AscendingRight(a: seq<nat>, b: seq<nat>, below: nat)
    requires Ascending(a + b, below)
    ensures Ascending(b, below)
  {
    assert forall i :: 0 <= i < |b| ==> b[i] == (a + b)[|a| + i];
  }

  // Two reports under way can leave a later entry reported before an earlier one: the second
  // arrives, the first fails and is sent again.
  lemma OverlapReorders(x: nat, y: nat, cap: nat)
    requires x < y && cap >= 1
    ensures var l := Next(Lane([], [], [[x], [y]], [], []), Succeed(1), cap);
      l.inFlight == [[x]] && Retried(l, 0, cap).reported == [y, x]
  {
  }
}

/** The AG-UI event stream as a client sees it, and what it means for one to be well
    bracketed: once by a running checker, once by quantification over positions. */
module AguiEvents {
  import opened Common

  datatype Kind = Text | Reasoning

  datatype Event =
    | RunStarted
    | RunFinished
    | RunError
    | Custom(name: string)
    | Snapshot(signature: string)
    | Start(kind: Kind, id: string)
    | Content(kind: Kind, id: string, delta: string)
    | End(kind: Kind, id: string)
    | ToolStart(call: string, name: string, parent: string)
    | ToolArgs(call: string, args: string)
    | ToolEnd(call: string)
    | ToolResult(call: string, message: string, content: string)

  predicate Terminal(e: Event) { e.RunFinished? || e.RunError? }

  // ---- the checker ------------------------------------------------------------------

  datatype ToolPhase = Called | ArgsSent | Closed
  datatype Stage = Fresh | Streaming | Finished

  /** What a client tracks while reading: the stage, the open messages, the phase of each tool call. */
  datatype Brackets = Broken
                    | Brackets(stage: Stage, open: set<(Kind, string)>, tools: map<string, ToolPhase>)

  const INITIAL := Brackets(Fresh, {}, map[])

  predicate AllClosed(tools: map<string, ToolPhase>) {
    forall c :: c in tools ==> tools[c] == Closed
  }

  function Next(b: Brackets, e: Event): Brackets {
    if b.Broken? then Broken
    else if b.stage == Fresh then (if e.RunStarted? then b.(stage := Streaming) else Broken)
    else if b.stage == Finished then Broken
    else
      match e
      case RunStarted => Broken
      case RunFinished => if b.open == {} && AllClosed(b.tools) then b.(stage := Finished) else Broken
      case RunError => if b.open == {} && AllClosed(b.tools) then b.(stage := Finished) else Broken
      case Custom(_) => b
      case Snapshot(_) => b
      case Start(k, id) => if (k, id) in b.open then Broken else b.(open := b.open + {(k, id)})
      case Content(k, id, _) => if (k, id) in b.open then b else Broken
      case End(k, id) => if (k, id) in b.open then b.(open := b.open - {(k, id)}) else Broken
      case ToolStart(c, _, _) => if c in b.tools then Broken else b.(tools := b.tools[c := Called])
      case ToolArgs(c, _) =>
        if c in b.tools && b.tools[c] == Called then b.(tools := b.tools[c := ArgsSent]) else Broken
      case ToolEnd(c) =>
        if c in b.tools && b.tools[c] == ArgsSent then b.(tools := b.tools[c := Closed]) else Broken
      case ToolResult(c, _, _) => if c in b.tools && b.tools[c] != Closed then Broken else b
  }

  function Scan(b: Brackets, trace: seq<Event>): Brackets {
    if trace == [] then b else Next(Scan(b, trace[..|trace| - 1]), trace[|trace| - 1])
  }

  lemma ScanPush(b: Brackets, trace: seq<Event>, e: Event)
    ensures Scan(b, trace + [e]) == Next(Scan(b, trace), e)
  {
    assert (trace + [e])[..|trace|] == trace;
  }

  lemma {:induction false} ScanAppend(b: Brackets, x: seq<Event>, y: seq<Event>)
    ensures Scan(b, x + y) == Scan(Scan(b, x), y)
    decreases |y|
  {
    if y == [] {
      assert x + y == x;
    } else {
      var z := y[..|y| - 1];
      assert x + y == (x + z) + [y[|y| - 1]];
      ScanAppend(b, x, z);
      ScanPush(b, x + z, y[|y| - 1]);
    }
  }

  lemma {:induction false} BrokenStaysBroken(trace: seq<Event>)
    ensures Scan(Broken, trace) == Broken
  {
    if trace != [] { BrokenStaysBroken(trace[..|trace| - 1]); }
  }

  /** A stream cut off anywhere, as a disconnect cuts it, is still well bracketed so far. */
  lemma PrefixScans(b: Brackets, trace: seq<Event>, n: nat)
    requires n <= |trace| && Scan(b, trace) != Broken
    ensures Scan(b, trace[..n]) != Broken
  {
    ScanAppend(b, trace[..n], trace[n..]);
    assert trace[..n] + trace[n..] == trace;
    if Scan(b, trace[..n]) == Broken { BrokenStaysBroken(trace[n..]); }
  }

  // ---- the same by positions ---------------------------------------------------------

  /** The latest START of this message before position `n` has no END after it. */
  ghost predicate OpenAt(trace: seq<Event>, n: nat, k: Kind, id: string)
    requires n <= |trace|
  {
    exists j :: 0 <= j < n && trace[j] == Start(k, id) && forall m :: j < m < n ==> trace[m] != End(k, id)
  }

  ghost predicate StartedBefore(trace: seq<Event>, n: nat, c: string)
    requires n <= |trace|
  {
    exists j :: 0 <= j < n && trace[j].ToolStart? && trace[j].call == c
  }

  ghost predicate ArgsBefore(trace: seq<Event>, n: nat, c: string)
    requires n <= |trace|
  {
    exists j :: 0 <= j < n && trace[j].ToolArgs? && trace[j].call == c
  }

  ghost predicate EndedBefore(trace: seq<Event>, n: nat, c: string)
    requires n <= |trace|
  {
    exists j :: 0 <= j < n && trace[j].ToolEnd? && trace[j].call == c
  }

  /** What a tool event demands of the positions before it. */
  ghost predicate CallsFitAt(trace: seq<Event>, i: nat)
    requires i < |trace|
  {
    var e := trace[i];
    && (e.ToolStart? ==> !StartedBefore(trace, i, e.call))
    && (e.ToolArgs? ==> StartedBefore(trace, i, e.call) && !ArgsBefore(trace, i, e.call))
    && (e.ToolEnd? ==> ArgsBefore(trace, i, e.call) && !EndedBefore(trace, i, e.call))
    && (e.ToolResult? ==> (StartedBefore(trace, i, e.call) ==> EndedBefore(trace, i, e.call)))
  }

  /** What each position demands of the positions before it. */
  ghost predicate FitsAt(trace: seq<Event>, i: nat)
    requires i < |trace|
  {
    var e := trace[i];
    && (e.RunStarted? <==> i == 0)
    && (i > 0 ==> !Terminal(trace[i - 1]))
    && (Terminal(e) ==> (forall k, id :: !OpenAt(trace, i, k, id))
                        && forall c :: StartedBefore(trace, i, c) ==> EndedBefore(trace, i, c))
    && (e.Start? ==> !OpenAt(trace, i, e.kind, e.id))
    && (e.Content? || e.End? ==> OpenAt(trace, i, e.kind, e.id))
    && CallsFitAt(trace, i)
  }

  ghost predicate WellBracketed(trace: seq<Event>) {
    forall i :: 0 <= i < |trace| ==> FitsAt(trace, i)
  }

  /** The checker's state says exactly what the positions say. */
  ghost predicate Describes(b: Brackets, trace: seq<Event>) {
    var n := |trace|;
    && b.Brackets?
    && (b.stage == Fresh <==> n == 0)
    && (b.stage == Finished <==> n > 0 && Terminal(trace[n - 1]))
    && (forall k, id :: (k, id) in b.open <==> OpenAt(trace, n, k, id))
    && (forall c :: c in b.tools <==> StartedBefore(trace, n, c))
    && (forall c :: c in b.tools && b.tools[c] != Called <==> ArgsBefore(trace, n, c))
    && (forall c :: c in b.tools && b.tools[c] == Closed <==> EndedBefore(trace, n, c))
  }

  lemma OpenAtPush(trace: seq<Event>, e: Event, k: Kind, id: string)
    ensures OpenAt(trace + [e], |trace| + 1, k, id) <==>
            e == Start(k, id) || (OpenAt(trace, |trace|, k, id) && e != End(k, id))
  {
    var t := trace + [e];
    var n := |trace|;
    if OpenAt(trace, n, k, id) && e != End(k, id) {
      var j :| 0 <= j < n && trace[j] == Start(k, id) && forall m :: j < m < n ==> trace[m] != End(k, id);
      assert t[j] == Start(k, id);
    }
    if e == Start(k, id) { assert t[n] == Start(k, id); }
    if OpenAt(t, n + 1, k, id) && e != Start(k, id) {
      var j :| 0 <= j < n + 1 && t[j] == Start(k, id) && forall m :: j < m < n + 1 ==> t[m] != End(k, id);
      assert t[n] == e && trace[j] == Start(k, id);
      forall m | j < m < n ensures trace[m] != End(k, id) { assert t[m] == trace[m]; }
    }
  }

  lemma ToolsPush(trace: seq<Event>, e: Event, c: string)
    ensures StartedBefore(trace + [e], |trace| + 1, c) <==>
            StartedBefore(trace, |trace|, c) || (e.ToolStart? && e.call == c)
    ensures ArgsBefore(trace + [e], |trace| + 1, c) <==>
            ArgsBefore(trace, |trace|, c) || (e.ToolArgs? && e.call == c)
    ensures EndedBefore(trace + [e], |trace| + 1, c) <==>
            EndedBefore(trace, |trace|, c) || (e.ToolEnd? && e.call == c)
  {
    var t := trace + [e];
    assert t[|trace|] == e;
    assert forall j :: 0 <= j < |trace| ==> t[j] == trace[j];
  }

  /** Positions only look back, so a longer trace changes nothing before its end. */
  lemma FitsLocally(trace: seq<Event>, e: Event, i: nat)
    requires i < |trace|
    ensures FitsAt(trace + [e], i) <==> FitsAt(trace, i)
  {
    var t := trace + [e];
    assert forall j :: 0 <= j < |trace| ==> t[j] == trace[j];
    forall k, id ensures OpenAt(t, i, k, id) <==> OpenAt(trace, i, k, id) {
      OpenAtLocal(trace, e, i, k, id);
    }
    forall c ensures (StartedBefore(t, i, c) <==> StartedBefore(trace, i, c))
                  && (ArgsBefore(t, i, c) <==> ArgsBefore(trace, i, c))
                  && (EndedBefore(t, i, c) <==> EndedBefore(trace, i, c)) {
    }
  }

  lemma OpenAtLocal(trace: seq<Event>, e: Event, i: nat, k: Kind, id: string)
    requires i <= |trace|
    ensures OpenAt(trace + [e], i, k, id) <==> OpenAt(trace, i, k, id)
  {
    var t := trace + [e];
    assert forall j :: 0 <= j < |trace| ==> t[j] == trace[j];
    if OpenAt(trace, i, k, id) {
      var j :| 0 <= j < i && trace[j] == Start(k, id) && forall m :: j < m < i ==> trace[m] != End(k, id);
      assert t[j] == Start(k, id);
    }
    if OpenAt(t, i, k, id) {
      var j :| 0 <= j < i && t[j] == Start(k, id) && forall m :: j < m < i ==> t[m] != End(k, id);
      assert trace[j] == Start(k, id);
      forall m | j < m < i ensures trace[m] != End(k, id) { assert t[m] == trace[m]; }
    }
  }

  /** The state after a trace still describes that trace as the past of its next position. */
  lemma PastOfNext(b: Brackets, trace: seq<Event>, e: Event)
    requires Describes(b, trace)
    ensures forall k, id :: OpenAt(trace + [e], |trace|, k, id) <==> (k, id) in b.open
    ensures forall c :: StartedBefore(trace + [e], |trace|, c) <==> c in b.tools
    ensures forall c :: ArgsBefore(trace + [e], |trace|, c) <==> c in b.tools && b.tools[c] != Called
    ensures forall c :: EndedBefore(trace + [e], |trace|, c) <==> c in b.tools && b.tools[c] == Closed
  {
    var n := |trace|;
    forall k, id ensures OpenAt(trace + [e], n, k, id) <==> (k, id) in b.open {
      OpenAtLocal(trace, e, n, k, id);
    }
    assert forall j :: 0 <= j < n ==> (trace + [e])[j] == trace[j];
    forall c ensures StartedBefore(trace + [e], n, c) <==> StartedBefore(trace, n, c) {}
    forall c ensures ArgsBefore(trace + [e], n, c) <==> ArgsBefore(trace, n, c) {}
    forall c ensures EndedBefore(trace + [e], n, c) <==> EndedBefore(trace, n, c) {}
  }

  /** One more event: the checker accepts it exactly when its position fits. */
  lemma CheckerStepExact(b: Brackets, trace: seq<Event>, e: Event)
    requires Describes(b, trace)
    ensures Next(b, e) != Broken <==> FitsAt(trace + [e], |trace|)
  {
    var t := trace + [e];
    var n := |trace|;
    assert t[n] == e && (n > 0 ==> t[n - 1] == trace[n - 1]);
    PastOfNext(b, trace, e);
    NothingOpen(b);
    if Terminal(e) {
      assert AllClosed(b.tools) <==> forall c :: StartedBefore(t, n, c) ==> EndedBefore(t, n, c);
    }
  }

  lemma StepDescribesMessages(b: Brackets, trace: seq<Event>, e: Event, k: Kind, id: string)
    requires Describes(b, trace) && Next(b, e) != Broken
    ensures (k, id) in Next(b, e).open <==> OpenAt(trace + [e], |trace| + 1, k, id)
  {
    OpenAtPush(trace, e, k, id);
  }

  lemma StepDescribesCalls(b: Brackets, trace: seq<Event>, e: Event, c: string)
    requires Describes(b, trace) && Next(b, e) != Broken
    ensures var tools, t, n := Next(b, e).tools, trace + [e], |trace| + 1;
      && (c in tools <==> StartedBefore(t, n, c))
      && (c in tools && tools[c] != Called <==> ArgsBefore(t, n, c))
      && (c in tools && tools[c] == Closed <==> EndedBefore(t, n, c))
  {
    ToolsPush(trace, e, c);
  }

  lemma CheckerStepDescribes(b: Brackets, trace: seq<Event>, e: Event)
    requires Describes(b, trace) && Next(b, e) != Broken
    ensures Describes(Next(b, e), trace + [e])
  {
    forall k, id ensures (k, id) in Next(b, e).open <==> OpenAt(trace + [e], |trace| + 1, k, id) {
      StepDescribesMessages(b, trace, e, k, id);
    }
    forall c ensures var tools, t, n := Next(b, e).tools, trace + [e], |trace| + 1;
      && (c in tools <==> StartedBefore(t, n, c))
      && (c in tools && tools[c] != Called <==> ArgsBefore(t, n, c))
      && (c in tools && tools[c] == Closed <==> EndedBefore(t, n, c))
    {
      StepDescribesCalls(b, trace, e, c);
    }
  }

  lemma NothingOpen(b: Brackets)
    requires b.Brackets?
    ensures b.open == {} <==> forall k, id :: (k, id) !in b.open
  {
    if b.open != {} {
      var x :| x in b.open;
      assert (x.0, x.1) in b.open;
    }
  }

  /** The checker accepts a trace exactly when every position of it fits. */
  lemma {:induction false} CheckerIsExact(trace: seq<Event>)
    ensures Scan(INITIAL, trace) != Broken <==> WellBracketed(trace)
    ensures Scan(INITIAL, trace) != Broken ==> Describes(Scan(INITIAL, trace), trace)
    decreases |trace|
  {
    if trace != [] {
      var pre, e := trace[..|trace| - 1], trace[|trace| - 1];
      assert trace == pre + [e];
      CheckerIsExact(pre);
      forall i | 0 <= i < |pre| ensures FitsAt(trace, i) <==> FitsAt(pre, i) {
        FitsLocally(pre, e, i);
      }
      if Scan(INITIAL, pre) != Broken {
        CheckerStepExact(Scan(INITIAL, pre), pre, e);
        if Scan(INITIAL, trace) != Broken { CheckerStepDescribes(Scan(INITIAL, pre), pre, e); }
      }
    }
  }

  // ---- one tool call -------------------------------------------------------------------

  /** The START, ARGS and END events of one tool call, in order. */
  function CallEvents(trace: seq<Event>, c: string): seq<Event> {
    if trace == [] then []
    else
      var e := trace[|trace| - 1];
      CallEvents(trace[..|trace| - 1], c)
      + (if (e.ToolStart? || e.ToolArgs? || e.ToolEnd?) && e.call == c then [e] else [])
  }

  ghost predicate CallShape(events: seq<Event>, tools: map<string, ToolPhase>, c: string) {
    if c !in tools then events == []
    else
      && |events| == (match tools[c] case Called => 1 case ArgsSent => 2 case Closed => 3)
      && events[0].ToolStart? && (|events| > 1 ==> events[1].ToolArgs?) && (|events| > 2 ==> events[2].ToolEnd?)
  }

  /** A beginning of START, ARGS, END. */
  predicate InOrder(events: seq<Event>) {
    && |events| <= 3
    && (|events| > 0 ==> events[0].ToolStart?) && (|events| > 1 ==> events[1].ToolArgs?)
    && (|events| > 2 ==> events[2].ToolEnd?)
  }

  lemma {:induction false} CallEventsFollowPhase(trace: seq<Event>, c: string)
    requires Scan(INITIAL, trace) != Broken
    ensures CallShape(CallEvents(trace, c), Scan(INITIAL, trace).tools, c)
    decreases |trace|
  {
    if trace != [] { CallEventsFollowPhase(trace[..|trace| - 1], c); }
  }

  /** On a finished stream each tool call has START, ARGS, END once each, in that order, or nothing. */
  lemma FinishedCallsAreWhole(trace: seq<Event>, c: string)
    requires Scan(INITIAL, trace) != Broken && Scan(INITIAL, trace).stage == Finished
    ensures var events := CallEvents(trace, c);
      events == [] || (|events| == 3 && events[0].ToolStart? && events[1].ToolArgs? && events[2].ToolEnd?)
  {
    CallEventsFollowPhase(trace, c);
    FinishedMeansClosed(trace);
  }

  lemma {:induction false} FinishedMeansClosed(trace: seq<Event>)
    requires Scan(INITIAL, trace) != Broken && Scan(INITIAL, trace).stage == Finished
    ensures Scan(INITIAL, trace).open == {} && AllClosed(Scan(INITIAL, trace).tools)
    ensures trace != [] && Terminal(trace[|trace| - 1])
    ensures forall i :: 0 <= i < |trace| - 1 ==> !Terminal(trace[i])
  {
    CheckerIsExact(trace);
    forall i | 0 <= i < |trace| - 1 ensures !Terminal(trace[i]) {
      assert FitsAt(trace, i + 1);
    }
  }

  // ---- text carried by one reasoning message ----------------------------------------------

  /** What a client shows for one message: its deltas, joined. */
  function Joined(trace: seq<Event>, k: Kind, id: string): string {
    if trace == [] then ""
    else
      var e := trace[|trace| - 1];
      Joined(trace[..|trace| - 1], k, id) + (if e.Content? && e.kind == k && e.id == id then e.delta else "")
  }

  lemma JoinedPush(trace: seq<Event>, e: Event, k: Kind, id: string)
    ensures Joined(trace + [e], k, id) ==
            Joined(trace, k, id) + (if e.Content? && e.kind == k && e.id == id then e.delta else "")
  {
    assert (trace + [e])[..|trace|] == trace;
  }

  lemma {:induction false} JoinedAppend(x: seq<Event>, y: seq<Event>, k: Kind, id: string)
    ensures Joined(x + y, k, id) == Joined(x, k, id) + Joined(y, k, id)
    decreases |y|
  {
    if y == [] {
      assert x + y == x;
      assert Joined(y, k, id) == "";
    } else {
      var z, e := y[..|y| - 1], y[|y| - 1];
      var d := if e.Content? && e.kind == k && e.id == id then e.delta else "";
      JoinedAppend(x, z, k, id);
      calc {
        Joined(x + y, k, id);
        { assert y == z + [e]; ConcatAssoc(x, z, [e]); }
        Joined((x + z) + [e], k, id);
        { JoinedPush(x + z, e, k, id); }
        Joined(x + z, k, id) + d;
        (Joined(x, k, id) + Joined(z, k, id)) + d;
        { ConcatAssoc(Joined(x, k, id), Joined(z, k, id), d); }
        Joined(x, k, id) + (Joined(z, k, id) + d);
        Joined(x, k, id) + Joined(y, k, id);
      }
    }
  }
}

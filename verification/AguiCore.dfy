/** The response without subagent text: main text, every reasoning message, every tool call and the run's
    own events. A main chunk that reuses a subagent message id upsets only subagent text, so this
    much is well bracketed for every sequence of entries. */
module AguiCore {
  import opened Common
  import opened AguiEvents
  import opened AguiStream
  import opened AguiTranslator
  import opened AguiEntries
  import opened AguiRun
  import opened AguiService

  predicate SubagentText(e: Event) {
    (e.Start? || e.Content? || e.End?) && e.kind == Text && Sub(e.id)
  }

  function Core(trace: seq<Event>): seq<Event> {
    if trace == [] then []
    else
      var e := trace[|trace| - 1];
      Core(trace[..|trace| - 1]) + if SubagentText(e) then [] else [e]
  }

  lemma CorePush(trace: seq<Event>, e: Event)
    ensures Core(trace + [e]) == Core(trace) + if SubagentText(e) then [] else [e]
  {
    assert (trace + [e])[..|trace|] == trace;
  }

  lemma {:induction false} CoreAppend(x: seq<Event>, y: seq<Event>)
    ensures Core(x + y) == Core(x) + Core(y)
    decreases |y|
  {
    if y == [] {
      assert x + y == x;
    } else {
      var z, e := y[..|y| - 1], y[|y| - 1];
      CoreAppend(x, z);
      CorePush(x + z, e);
      assert y == z + [e];
      ConcatAssoc(x, z, [e]);
      ConcatAssoc(Core(x), Core(z), if SubagentText(e) then [] else [e]);
    }
  }

  lemma {:induction false} CoreMembers(trace: seq<Event>)
    ensures forall e :: e in Core(trace) ==> e in trace && !SubagentText(e)
    ensures forall e :: e in trace && !SubagentText(e) ==> e in Core(trace)
  {
    if trace != [] { CoreMembers(trace[..|trace| - 1]); }
  }

  // ---- the checker without subagent text ---------------------------------------------------------

  ghost function CoreIds(open: set<(Kind, string)>): set<(Kind, string)> {
    set x | x in open && !(x.0 == Text && Sub(x.1))
  }

  ghost function CoreOf(b: Brackets): Brackets {
    if b.Broken? then Broken else b.(open := CoreIds(b.open))
  }

  lemma CoreStep(b: Brackets, e: Event)
    requires Next(b, e) != Broken
    ensures CoreOf(Next(b, e)) == if SubagentText(e) then CoreOf(b) else Next(CoreOf(b), e)
  {
    if e.Start? || e.End? { CoreIdsMove(b.open, (e.kind, e.id)); }
  }

  lemma CoreIdsMove(open: set<(Kind, string)>, x: (Kind, string))
    ensures x.0 == Text && Sub(x.1) ==> CoreIds(open + {x}) == CoreIds(open) == CoreIds(open - {x})
    ensures !(x.0 == Text && Sub(x.1)) ==>
              CoreIds(open + {x}) == CoreIds(open) + {x} && CoreIds(open - {x}) == CoreIds(open) - {x}
  {
  }

  /** What the checker accepts it accepts without subagent text. */
  lemma {:induction false} CoreScans(b: Brackets, trace: seq<Event>)
    requires Scan(b, trace) != Broken
    ensures Scan(CoreOf(b), Core(trace)) == CoreOf(Scan(b, trace))
    decreases |trace|
  {
    if trace != [] {
      var pre, e := trace[..|trace| - 1], trace[|trace| - 1];
      CoreScans(b, pre);
      CoreStep(Scan(b, pre), e);
      if SubagentText(e) {
        assert Core(trace) == Core(pre);
      } else {
        ScanPush(CoreOf(b), Core(pre), e);
      }
    }
  }

  ghost function CoreView(s: Snap): Brackets { CoreOf(ViewOf(s)) }

  lemma CoreViewIgnoresSubText(s: Snap, t: Snap)
    requires Typed(s.opens) && Typed(t.opens) && s.args == t.args && s.tools == t.tools
    requires s.opens.(subText := {}) == t.opens.(subText := {})
    ensures CoreView(s) == CoreView(t)
  {
    assert CoreIds(OpenIds(s.opens)) == CoreIds(OpenIds(t.opens));
  }

  // ---- every entry, colliding or not -------------------------------------------------------------------

  /** A colliding chunk up to its second START. */
  function BeforeCollision(s: Snap, m: Message): seq<Event>
    requires m.Ai?
  {
    var rid := ReasoningId(MessageId(m));
    var t := Think(s, rid, m.reasoning);
    t.events + EndIf(rid in t.snap.opens.reasoning, Reasoning, rid) + EndText(s.opens)
  }

  lemma CollisionSplits(s: Snap, m: Message)
    requires m.Ai? && m.content != "" && Ok(s) && MessageId(m) in s.opens.subText
    ensures AiText(s, m).events ==
            BeforeCollision(s, m) + [Start(Text, MessageId(m))] + [Content(Text, MessageId(m), m.content)]
  {
    var id, rid := MessageId(m), ReasoningId(MessageId(m));
    SubTextIsOpen(s.opens, id);
    AiTextSplits(s, m);
    var t := Think(s, rid, m.reasoning);
    ConcatAssoc(t.events + EndIf(rid in t.snap.opens.reasoning, Reasoning, rid), EndText(s.opens), [Start(Text, id)]);
  }

  lemma CollisionBuilds(s: Snap, m: Message)
    requires m.Ai? && m.content != "" && Ok(s)
    ensures Building(s, s.args, s.tools, BeforeCollision(s, m))
  {
    ReasoningPartFollows(s, m);
    var rid := ReasoningId(MessageId(m));
    var t := Think(s, rid, m.reasoning);
    GrowEndText(s, s.args, s.tools, t.events + EndIf(rid in t.snap.opens.reasoning, Reasoning, rid));
  }

  /** The rest of a colliding chunk moves only the subagent text. */
  lemma CollisionReplays(o: Opens, head: seq<Event>, id: string, content: string)
    requires Sub(id)
    ensures var events := head + [Start(Text, id)] + [Content(Text, id, content)];
      && Core(events) == Core(head)
      && Replay(o, events).(subText := {}) == Replay(o, head).(subText := {})
  {
    var e1, e2 := Start(Text, id), Content(Text, id, content);
    CorePush(head, e1);
    CorePush(head + [e1], e2);
    ReplayPush(o, head, e1);
    ReplayPush(o, head + [e1], e2);
  }

  /** What one entry does to the rest of the stream. */
  ghost predicate CoreKeeps(s: Snap, events: seq<Event>, after: Snap) {
    Scan(CoreView(s), Core(events)) == CoreView(after)
  }

  lemma CollidingTextKeeps(s: Snap, m: Message)
    requires m.Ai? && m.calls == [] && m.content != "" && Ok(s) && MessageId(m) in s.opens.subText
    ensures CoreKeeps(s, AiText(s, m).events, Replayed(AiText(s, m)))
  {
    var id, r, head := MessageId(m), AiText(s, m), BeforeCollision(s, m);
    CollisionSplits(s, m);
    CollisionBuilds(s, m);
    AiTextFollows(s, m);
    AiTextShape(s, m);
    HelperAgreesWithReplay(s.opens, r.snap.opens, r.events);
    CollisionReplays(s.opens, head, id, m.content);
    ReplayKeepsTyped(s.opens, head);
    ReplayKeepsTyped(s.opens, r.events);
    CoreScans(ViewOf(s), head);
    CoreViewIgnoresSubText(s.(opens := Replay(s.opens, head)), Replayed(r));
  }

  lemma EveryEntryKeepsCore(s: Snap, e: Entry, order: seq<string>)
    requires Ok(s) && Lists(order, s.tools)
    ensures CoreKeeps(s, EntryBatch(s, e, order).events, After(s, e, order))
  {
    if Collides(s.opens.subText, e) {
      CollidingTextKeeps(s, e.message);
    } else {
      EveryEntryKeeps(s, e, order);
      CoreScans(ViewOf(s), EntryBatch(s, e, order).events);
    }
  }

  // ---- the caller's pass ---------------------------------------------------------------------------------

  lemma PassPush(o: Opens, last: Option<string>, events: seq<Event>, e: Event)
    ensures PassOver(o, last, events + [e]) == PassOne(PassOver(o, last, events), e)
  {
    assert (events + [e])[..|events|] == events;
  }

  /** One event more, on both sides or dropped from the second. */
  lemma CorePassOne(x: Pass, y: Pass, e: Event)
    requires Core(x.sent) == y.sent && x.last == y.last
    ensures SubagentText(e) ==> Core(PassOne(x, e).sent) == y.sent && PassOne(x, e).last == y.last
    ensures !SubagentText(e) ==>
              Core(PassOne(x, e).sent) == PassOne(y, e).sent && PassOne(x, e).last == PassOne(y, e).last
  {
    CorePush(x.sent, e);
  }

  lemma {:induction false} CorePasses(o: Opens, p: Opens, last: Option<string>, events: seq<Event>)
    ensures Core(PassOver(o, last, events).sent) == PassOver(p, last, Core(events)).sent
    ensures PassOver(o, last, events).last == PassOver(p, last, Core(events)).last
    decreases |events|
  {
    if events != [] {
      var pre, e := events[..|events| - 1], events[|events| - 1];
      assert events == pre + [e];
      CorePasses(o, p, last, pre);
      PassPush(o, last, pre, e);
      CorePush(pre, e);
      CorePassOne(PassOver(o, last, pre), PassOver(p, last, Core(pre)), e);
      if SubagentText(e) { assert Core(events) == Core(pre); } else { PassPush(p, last, Core(pre), e); }
    }
  }

  lemma PassKeepsCore(s: Snap, o: Opens, last: Option<string>, events: seq<Event>)
    requires Inner(events)
    ensures Scan(CoreView(s), Core(PassOver(o, last, events).sent)) == Scan(CoreView(s), Core(events))
  {
    CoreMembers(events);
    CorePasses(o, o, last, events);
    PassScansAlike(o, last, Core(events), CoreView(s));
  }

  // ---- one connection ------------------------------------------------------------------------------------

  /** What holds between entries, whatever has been read. */
  ghost predicate CoreInv(p: Progress) {
    Ok(p.snap) && Scan(INITIAL, Core(p.out)) == CoreView(p.snap)
  }

  lemma BeginHoldsCore()
    ensures CoreInv(BEGIN)
  {
    BeginHolds();
    assert SomeCollision([]) == false;
    CoreScans(INITIAL, BEGIN.out);
    assert CoreIds({}) == {};
  }

  lemma AdvanceKeepsCore(p: Progress, e: Entry, order: seq<string>)
    requires CoreInv(p) && Lists(order, p.snap.tools)
    ensures CoreInv(Advance(p, e, order))
  {
    var r, w := EntryBatch(p.snap, e, order), Wire(p, e, order);
    EveryEntryKeeps(p.snap, e, order);
    EveryEntryKeepsCore(p.snap, e, order);
    EveryBatchIsInner(p.snap, e, order);
    PassKeepsCore(p.snap, r.snap.opens, p.last, r.events);
    CoreAppend(p.out, w.sent);
    ScanAppend(INITIAL, Core(p.out), Core(w.sent));
  }

  /** The farewell finishes the rest of the stream too. */
  lemma FarewellClosesCore(p: Progress, order: seq<string>, terminal: Event)
    requires CoreInv(p) && Lists(order, p.snap.tools) && Terminal(terminal)
    ensures var b := Scan(INITIAL, Core(p.out + (Farewell(p.snap, order) + [terminal])));
      b.Brackets? && b.stage == Finished
  {
    var closing := Farewell(p.snap, order) + [terminal];
    FarewellCloses(p.snap, order, terminal);
    CoreScans(ViewOf(p.snap), closing);
    CoreAppend(p.out, closing);
    ScanAppend(INITIAL, Core(p.out), Core(closing));
  }

  // ---- tool calls ------------------------------------------------------------------------------------------

  /** Dropping subagent text drops nothing of a call. */
  lemma {:induction false} CoreKeepsCalls(trace: seq<Event>, c: string)
    ensures CallEvents(Core(trace), c) == CallEvents(trace, c)
    decreases |trace|
  {
    if trace != [] {
      var pre, e := trace[..|trace| - 1], trace[|trace| - 1];
      CoreKeepsCalls(pre, c);
      if SubagentText(e) {
        assert Core(trace) == Core(pre);
      } else {
        assert Core(trace)[..|Core(trace)| - 1] == Core(pre);
      }
    }
  }

  ghost predicate PhaseDescribed(b: Brackets, trace: seq<Event>, c: string)
    requires b.Brackets?
  {
    var n := |trace|;
    && (c in b.tools <==> StartedBefore(trace, n, c))
    && (c in b.tools && b.tools[c] != Called <==> ArgsBefore(trace, n, c))
    && (c in b.tools && b.tools[c] == Closed <==> EndedBefore(trace, n, c))
  }

  /** The tool phases the checker reaches are those of the whole trace. */
  ghost predicate CallsDescribed(b: Brackets, trace: seq<Event>) {
    b.Brackets? && forall c :: PhaseDescribed(b, trace, c)
  }

  /** The past of the next position. */
  lemma CallsBefore(trace: seq<Event>, e: Event, i: nat, c: string)
    requires i <= |trace|
    ensures StartedBefore(trace + [e], i, c) == StartedBefore(trace, i, c)
    ensures ArgsBefore(trace + [e], i, c) == ArgsBefore(trace, i, c)
    ensures EndedBefore(trace + [e], i, c) == EndedBefore(trace, i, c)
  {
    assert forall j :: 0 <= j < |trace| ==> (trace + [e])[j] == trace[j];
  }

  lemma NextCallFits(b: Brackets, trace: seq<Event>, e: Event)
    requires CallsDescribed(b, trace) && (SubagentText(e) || Next(b, e) != Broken)
    ensures CallsFitAt(trace + [e], |trace|)
  {
    assert (trace + [e])[|trace|] == e;
    if e.ToolStart? || e.ToolArgs? || e.ToolEnd? || e.ToolResult? {
      CallsBefore(trace, e, |trace|, e.call);
      assert PhaseDescribed(b, trace, e.call);
    }
  }

  lemma NextPhase(b: Brackets, trace: seq<Event>, e: Event, c: string)
    requires b.Brackets? && PhaseDescribed(b, trace, c) && (SubagentText(e) || Next(b, e) != Broken)
    ensures PhaseDescribed(if SubagentText(e) then b else Next(b, e), trace + [e], c)
  {
    ToolsPush(trace, e, c);
  }

  lemma CallsStep(b: Brackets, trace: seq<Event>, e: Event, after: Brackets, longer: seq<Event>)
    requires CallsDescribed(b, trace) && (SubagentText(e) || Next(b, e) != Broken)
    requires longer == trace + [e] && after == if SubagentText(e) then b else Next(b, e)
    ensures CallsDescribed(after, longer)
  {
    forall c ensures PhaseDescribed(after, longer, c) {
      assert PhaseDescribed(b, trace, c);
      NextPhase(b, trace, e, c);
    }
  }

  lemma CallsFitLocally(trace: seq<Event>, e: Event, i: nat)
    requires i < |trace|
    ensures CallsFitAt(trace + [e], i) <==> CallsFitAt(trace, i)
  {
    assert (trace + [e])[i] == trace[i];
    var x := trace[i];
    if x.ToolStart? || x.ToolArgs? || x.ToolEnd? || x.ToolResult? { CallsBefore(trace, e, i, x.call); }
  }

  /** The rest, scanned one event further. */
  lemma CoreScanPush(trace: seq<Event>, e: Event)
    ensures Scan(INITIAL, Core(trace + [e])) ==
            if SubagentText(e) then Scan(INITIAL, Core(trace)) else Next(Scan(INITIAL, Core(trace)), e)
  {
    CorePush(trace, e);
    if SubagentText(e) { assert Core(trace + [e]) == Core(trace); } else { ScanPush(INITIAL, Core(trace), e); }
  }

  lemma CoreScanLast(trace: seq<Event>)
    requires trace != []
    ensures var pre, e := trace[..|trace| - 1], trace[|trace| - 1];
      && trace == pre + [e]
      && Scan(INITIAL, Core(trace)) ==
           if SubagentText(e) then Scan(INITIAL, Core(pre)) else Next(Scan(INITIAL, Core(pre)), e)
  {
    var pre, e := trace[..|trace| - 1], trace[|trace| - 1];
    assert trace == pre + [e];
    CoreScanPush(pre, e);
  }

  /** The rest after the last event but one, and after the last. */
  lemma CoreOfPrefix(trace: seq<Event>) returns (pre: seq<Event>, e: Event, b: Brackets, after: Brackets)
    requires trace != [] && Scan(INITIAL, Core(trace)) != Broken
    ensures trace == pre + [e] && b == Scan(INITIAL, Core(pre)) && after == Scan(INITIAL, Core(trace))
    ensures b != Broken && (SubagentText(e) || Next(b, e) != Broken)
    ensures after == if SubagentText(e) then b else Next(b, e)
  {
    pre, e := trace[..|trace| - 1], trace[|trace| - 1];
    b, after := Scan(INITIAL, Core(pre)), Scan(INITIAL, Core(trace));
    CoreScanLast(trace);
  }

  lemma NoPhases()
    ensures CallsDescribed(INITIAL, [])
  {
  }

  lemma {:induction false} PhasesDescribed(trace: seq<Event>)
    requires Scan(INITIAL, Core(trace)) != Broken
    ensures CallsDescribed(Scan(INITIAL, Core(trace)), trace)
    decreases |trace|
  {
    if trace == [] {
      NoPhases();
    } else {
      var pre, e, b, after := CoreOfPrefix(trace);
      PhasesDescribed(pre);
      CallsStep(b, pre, e, after, trace);
    }
  }

  /** Where the rest is well bracketed, every tool event of the whole trace is in its place: START first
      and once, then ARGS once, then END once, and no RESULT from START to END. */
  lemma {:induction false} CallsFit(trace: seq<Event>, i: nat)
    requires Scan(INITIAL, Core(trace)) != Broken && i < |trace|
    ensures CallsFitAt(trace, i)
    decreases |trace|
  {
    var pre, e, b, _ := CoreOfPrefix(trace);
    if i < |pre| {
      CallsFit(pre, i);
      CallsFitLocally(pre, e, i);
    } else {
      PhasesDescribed(pre);
      NextCallFits(b, pre, e);
    }
  }

  /** The START, ARGS, END events of one call are a beginning of that sequence, and on a finished stream
      all of it or nothing: over any trace whose rest is well bracketed. */
  lemma CallsAreWhole(trace: seq<Event>, c: string)
    requires Scan(INITIAL, Core(trace)) != Broken
    ensures InOrder(CallEvents(trace, c))
    ensures Scan(INITIAL, Core(trace)).stage == Finished ==> |CallEvents(trace, c)| in {0, 3}
  {
    CoreKeepsCalls(trace, c);
    CallEventsFollowPhase(Core(trace), c);
    if Scan(INITIAL, Core(trace)).stage == Finished { FinishedCallsAreWhole(Core(trace), c); }
  }
}

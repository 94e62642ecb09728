/** What the translation helpers of /chat/agui return for each entry, as functions of the open-id
    state, and that every batch keeps the stream well bracketed. AguiEndpoint has the object
    that computes these in place. */
module AguiTranslator {
  import opened Common
  import opened AguiEvents
  import opened ReasoningDelta
  import opened AguiStream

  /** The translator's fields at one moment. */
  datatype Snap = Snap(opens: Opens, args: map<string, string>, tools: set<string>, reasons: map<string, string>)

  function Get(m: map<string, string>, key: string): string { if key in m then m[key] else "" }

  /** The arguments recorded for a call, as they are sent. */
  function Recall(args: map<string, string>, call: string): string { if call in args then args[call] else "{}" }

  ghost function ViewOf(s: Snap): Brackets { View(s.opens, s.args, s.tools) }

  ghost predicate Ok(s: Snap) { Typed(s.opens) && s.tools <= s.args.Keys }

  /** Arguments are only ever sent as last recorded before the batch. */
  ghost predicate ArgsFrom(args: map<string, string>, events: seq<Event>) {
    forall e :: e in events && e.ToolArgs? ==> e.call in args && e.args == args[e.call]
  }

  /** Nothing of main reasoning text. */
  ghost predicate Plain(events: seq<Event>) {
    forall e :: e in events && e.Content? && e.kind == Reasoning ==> Sub(e.id)
  }

  /** Reasoning deltas of a batch, against the recorded reasoning text before and after. */
  ghost predicate ReasonsGrow(before: map<string, string>, after: map<string, string>, events: seq<Event>) {
    forall id :: !Sub(id) ==> Get(after, id) == Get(before, id) + Joined(events, Reasoning, id)
  }

  lemma {:induction false} PlainJoinsNothing(events: seq<Event>, id: string)
    requires Plain(events) && !Sub(id)
    ensures Joined(events, Reasoning, id) == ""
    decreases |events|
  {
    if events != [] {
      var e := events[|events| - 1];
      assert e in events;
      PlainJoinsNothing(events[..|events| - 1], id);
    }
  }

  lemma PlainGrowsNothing(reasons: map<string, string>, events: seq<Event>)
    requires Plain(events)
    ensures ReasonsGrow(reasons, reasons, events)
  {
    forall id | !Sub(id) ensures Joined(events, Reasoning, id) == "" {
      PlainJoinsNothing(events, id);
    }
  }

  /** A batch under construction: the checker follows it from the fields as found, message ids as
      replaying has them, tool phases as the fields have them now. */
  ghost predicate Building(b: Snap, args: map<string, string>, tools: set<string>, events: seq<Event>) {
    Ok(b) && tools <= args.Keys && Tracks(ViewOf(b), b.opens, ToolView(args, tools), events)
  }

  lemma EmptyBatch(b: Snap)
    requires Ok(b)
    ensures Building(b, b.args, b.tools, []) && Replay(b.opens, []) == b.opens
  {
  }

  lemma Grow(b: Snap, args: map<string, string>, tools: set<string>, events: seq<Event>, e: Event)
    requires Building(b, args, tools, events) && Fits(Replay(b.opens, events), e)
    ensures Building(b, args, tools, events + [e])
    ensures Replay(b.opens, events + [e]) == ReplayOne(Replay(b.opens, events), e)
  {
    Push(ViewOf(b), b.opens, ToolView(args, tools), events, e);
  }

  lemma CallOpens(args: map<string, string>, tools: set<string>, c: string, text: string)
    requires c !in args
    ensures ToolView(args[c := text], tools + {c}) == ToolView(args, tools)[c := Called]
  {
  }

  lemma CallCloses(args: map<string, string>, tools: set<string>, c: string)
    requires c in args
    ensures ToolView(args, tools - {c}) == ToolView(args, tools)[c := ArgsSent][c := Closed]
  {
  }

  lemma GrowCall(b: Snap, args: map<string, string>, tools: set<string>, events: seq<Event>, e: Event, text: string)
    requires Building(b, args, tools, events) && e.ToolStart? && e.call !in args
    ensures Building(b, args[e.call := text], tools + {e.call}, events + [e])
    ensures Replay(b.opens, events + [e]) == Replay(b.opens, events)
  {
    CallOpens(args, tools, e.call, text);
    PushTool(ViewOf(b), b.opens, ToolView(args, tools), ToolView(args[e.call := text], tools + {e.call}), events, e);
  }

  lemma GrowResult(b: Snap, args: map<string, string>, tools: set<string>, events: seq<Event>, e: Event)
    requires Building(b, args, tools, events) && e.ToolResult? && e.call !in tools
    ensures Building(b, args, tools, events + [e])
    ensures Replay(b.opens, events + [e]) == Replay(b.opens, events)
  {
    PushTool(ViewOf(b), b.opens, ToolView(args, tools), ToolView(args, tools), events, e);
  }

  /** Closing a tool call: its arguments, then its end. */
  lemma GrowClosing(b: Snap, args: map<string, string>, tools: set<string>, events: seq<Event>, c: string, text: string)
    requires Building(b, args, tools, events) && c in tools
    ensures Building(b, args, tools - {c}, events + [ToolArgs(c, text)] + [ToolEnd(c)])
    ensures Replay(b.opens, events + [ToolArgs(c, text)] + [ToolEnd(c)]) == Replay(b.opens, events)
  {
    var view := ToolView(args, tools);
    var e1, e2 := ToolArgs(c, text), ToolEnd(c);
    CallCloses(args, tools, c);
    PushTool(ViewOf(b), b.opens, view, view[c := ArgsSent], events, e1);
    PushTool(ViewOf(b), b.opens, view[c := ArgsSent], view[c := ArgsSent][c := Closed], events + [e1], e2);
  }

  /** What every helper delivers: a batch the checker follows, and fields that replaying the batch
      brings to exactly where the checker is. */
  ghost predicate Built(b: Snap, a: Snap, events: seq<Event>) {
    && Building(b, a.args, a.tools, events)
    && DiffersAsMentioned(b.opens, a.opens, events)
    && ArgsFrom(b.args, events)
  }

  /** The one batch the checker rejects: its START names a message still open. */
  ghost predicate BuiltBroken(b: Snap, a: Snap, events: seq<Event>) {
    && Ok(b) && Ok(a)
    && Scan(ViewOf(b), events) == Broken
    && DiffersAsMentioned(b.opens, a.opens, events)
    && ArgsFrom(b.args, events)
  }

  lemma ReasoningIdIsMain(id: string)
    ensures !Sub(ReasoningId(id))
  {
    var text := ReasoningId(id);
    assert text[..|SUBAGENT|][0] == 'r' && SUBAGENT[0] == 's';
  }

  /** A helper's result: the fields as it leaves them, before the caller's replay, and its batch. */
  datatype Batch = Batch(snap: Snap, events: seq<Event>)

  // ---- tool calls -------------------------------------------------------------------------

  /** `_tool_calls_to_agui`: START on first sight, afterwards only the latest arguments. */
  function ToolCalls(s: Snap, calls: seq<ToolCall>, parent: string): Batch
    decreases |calls|
  {
    if calls == [] then Batch(s, [])
    else
      var before := ToolCalls(s, calls[..|calls| - 1], parent);
      var c := calls[|calls| - 1];
      if c.NotACall? then before
      else
        var id, now := CallId(c), before.snap;
        if id in now.args then Batch(now.(args := now.args[id := c.args]), before.events)
        else Batch(now.(args := now.args[id := c.args], tools := now.tools + {id}),
                   before.events + [ToolStart(id, Or(c.name, "tool"), parent)])
  }

  /** One more call: recorded, and started if it is new. */
  lemma CallFollows(b: Snap, now: Snap, c: ToolCall, parent: string, events: seq<Event>)
    requires Building(b, now.args, now.tools, events) && c.ToolCall?
    ensures CallId(c) in now.args ==> Building(b, now.args[CallId(c) := c.args], now.tools, events)
    ensures CallId(c) !in now.args ==>
      var e := ToolStart(CallId(c), Or(c.name, "tool"), parent);
      && Building(b, now.args[CallId(c) := c.args], now.tools + {CallId(c)}, events + [e])
      && Replay(b.opens, events + [e]) == Replay(b.opens, events)
  {
    var id := CallId(c);
    if id in now.args {
      assert ToolView(now.args[id := c.args], now.tools) == ToolView(now.args, now.tools);
    } else {
      GrowCall(b, now.args, now.tools, events, ToolStart(id, Or(c.name, "tool"), parent), c.args);
    }
  }

  lemma {:induction false} ToolCallsShape(s: Snap, calls: seq<ToolCall>, parent: string)
    ensures var r := ToolCalls(s, calls, parent);
      && r.snap.args == ArgsOfCalls(s.args, calls)
      && r.snap.opens == s.opens && r.snap.reasons == s.reasons
      && (forall e :: e in r.events ==> e.ToolStart?)
    decreases |calls|
  {
    if calls != [] { ToolCallsShape(s, calls[..|calls| - 1], parent); }
  }

  lemma {:induction false} ToolCallsFollow(b: Snap, s: Snap, calls: seq<ToolCall>, parent: string, head: seq<Event>)
    requires Building(b, s.args, s.tools, head)
    ensures var r := ToolCalls(s, calls, parent);
      && Building(b, r.snap.args, r.snap.tools, head + r.events)
      && Replay(b.opens, head + r.events) == Replay(b.opens, head)
    decreases |calls|
  {
    if calls == [] {
      assert head + [] == head;
    } else {
      ToolCallsFollow(b, s, calls[..|calls| - 1], parent, head);
      var before := ToolCalls(s, calls[..|calls| - 1], parent);
      var c := calls[|calls| - 1];
      if c.ToolCall? {
        CallFollows(b, before.snap, c, parent, head + before.events);
        ConcatAssoc(head, before.events, [ToolStart(CallId(c), Or(c.name, "tool"), parent)]);
      }
    }
  }

  /** Both tool-result branches: close the call if it is open, then the result. */
  function ToolOutcome(s: Snap, call: string, message: string, content: string): Batch {
    var closing := if call in s.tools then [ToolArgs(call, Recall(s.args, call))] + [ToolEnd(call)] else [];
    Batch(s.(tools := s.tools - {call}), closing + [ToolResult(call, message, content)])
  }

  lemma ToolOutcomeFollows(s: Snap, call: string, message: string, content: string)
    requires Ok(s)
    ensures var r := ToolOutcome(s, call, message, content);
      Built(s, r.snap, r.events) && Plain(r.events)
  {
    EmptyBatch(s);
    var r := ToolOutcome(s, call, message, content);
    if call in s.tools {
      GrowClosing(s, s.args, s.tools, [], call, s.args[call]);
      assert [] + [ToolArgs(call, s.args[call])] + [ToolEnd(call)] == [ToolArgs(call, s.args[call])] + [ToolEnd(call)];
      GrowResult(s, s.args, s.tools - {call}, [ToolArgs(call, s.args[call])] + [ToolEnd(call)],
        ToolResult(call, message, content));
    } else {
      assert s.tools - {call} == s.tools;
      GrowResult(s, s.args, s.tools, [], ToolResult(call, message, content));
    }
    assert Differences(s.opens, s.opens) == {};
  }

  // ---- main-agent messages ---------------------------------------------------------------------

  function EndIf(open: bool, k: Kind, id: string): seq<Event> { if open then [End(k, id)] else [] }

  function EndText(o: Opens): seq<Event> { if o.text.Some? then [End(Text, o.text.value)] else [] }

  /** A chunk carrying tool calls closes its own reasoning and the open text first. */
  function AiCalls(s: Snap, m: Message): Batch
    requires m.Ai?
  {
    var rid := ReasoningId(MessageId(m));
    var head := EndIf(rid in s.opens.reasoning, Reasoning, rid) + EndText(s.opens);
    var r := ToolCalls(s.(opens := s.opens.(reasoning := s.opens.reasoning - {rid})), m.calls, MessageId(m));
    Batch(r.snap, head + r.events)
  }

  /** Dropping one reasoning id is covered by the END that names it. */
  lemma ClosedMeansMentioned(o: Opens, rid: string, events: seq<Event>)
    requires Typed(o) && !Sub(rid) && (rid in o.reasoning ==> End(Reasoning, rid) in events)
    ensures DiffersAsMentioned(o, o.(reasoning := o.reasoning - {rid}), events)
  {
    forall d | d in Differences(o, o.(reasoning := o.reasoning - {rid}))
      ensures d == (Reasoning, rid) && rid in o.reasoning
    {
    }
  }

  lemma GrowEndIf(b: Snap, events: seq<Event>, open: bool, k: Kind, id: string)
    requires Building(b, b.args, b.tools, events)
    requires open ==> Fits(Replay(b.opens, events), End(k, id))
    ensures Building(b, b.args, b.tools, events + EndIf(open, k, id))
    ensures Replay(b.opens, events + EndIf(open, k, id)) ==
            if open then ReplayOne(Replay(b.opens, events), End(k, id)) else Replay(b.opens, events)
  {
    if open { Grow(b, b.args, b.tools, events, End(k, id)); } else { assert events + [] == events; }
  }

  lemma GrowEndText(b: Snap, args: map<string, string>, tools: set<string>, events: seq<Event>)
    requires Building(b, args, tools, events) && Replay(b.opens, events).text == b.opens.text
    ensures Building(b, args, tools, events + EndText(b.opens))
    ensures Replay(b.opens, events + EndText(b.opens)) == Replay(b.opens, events).(text := None)
  {
    if b.opens.text.Some? {
      TextIsMain(b);
      Grow(b, args, tools, events, End(Text, b.opens.text.value));
    } else {
      assert events + EndText(b.opens) == events;
    }
  }

  /** The END events before the calls: this message's reasoning, and the open text. */
  lemma AiCallsHead(s: Snap, rid: string)
    requires Ok(s) && !Sub(rid)
    ensures var head := EndIf(rid in s.opens.reasoning, Reasoning, rid) + EndText(s.opens);
      Building(s, s.args, s.tools, head) && Replay(s.opens, head).subText == s.opens.subText
  {
    EmptyBatch(s);
    var ending := EndIf(rid in s.opens.reasoning, Reasoning, rid);
    GrowEndIf(s, [], rid in s.opens.reasoning, Reasoning, rid);
    assert [] + ending == ending;
    GrowEndText(s, s.args, s.tools, ending);
  }

  lemma AiCallsBuild(s: Snap, m: Message)
    requires m.Ai? && Ok(s)
    ensures var r := AiCalls(s, m);
      && Building(s, r.snap.args, r.snap.tools, r.events)
      && Replay(s.opens, r.events).subText == s.opens.subText
  {
    var rid := ReasoningId(MessageId(m));
    ReasoningIdIsMain(MessageId(m));
    AiCallsHead(s, rid);
    var closed := s.(opens := s.opens.(reasoning := s.opens.reasoning - {rid}));
    ToolCallsFollow(s, closed, m.calls, MessageId(m), EndIf(rid in s.opens.reasoning, Reasoning, rid)
      + EndText(s.opens));
  }

  lemma AiCallsMention(s: Snap, m: Message)
    requires m.Ai? && Ok(s)
    ensures DiffersAsMentioned(s.opens, AiCalls(s, m).snap.opens, AiCalls(s, m).events)
  {
    var rid := ReasoningId(MessageId(m));
    ReasoningIdIsMain(MessageId(m));
    ToolCallsShape(s.(opens := s.opens.(reasoning := s.opens.reasoning - {rid})), m.calls, MessageId(m));
    if rid in s.opens.reasoning { assert AiCalls(s, m).events[0] == End(Reasoning, rid); }
    ClosedMeansMentioned(s.opens, rid, AiCalls(s, m).events);
  }

  lemma AiCallsShape(s: Snap, m: Message)
    requires m.Ai?
    ensures var r := AiCalls(s, m);
      && (forall e :: e in r.events ==> e.End? || e.ToolStart?)
      && r.snap.args == ArgsOfCalls(s.args, m.calls) && r.snap.reasons == s.reasons
  {
    var rid := ReasoningId(MessageId(m));
    ToolCallsShape(s.(opens := s.opens.(reasoning := s.opens.reasoning - {rid})), m.calls, MessageId(m));
  }

  lemma AiCallsFollow(s: Snap, m: Message)
    requires m.Ai? && Ok(s)
    ensures var r := AiCalls(s, m);
      Built(s, r.snap, r.events) && Plain(r.events)
      && r.snap.args == ArgsOfCalls(s.args, m.calls) && r.snap.reasons == s.reasons
      && Replay(s.opens, r.events).subText == s.opens.subText
  {
    AiCallsBuild(s, m);
    AiCallsMention(s, m);
    AiCallsShape(s, m);
  }

  function StartIf(absent: bool, k: Kind, id: string): seq<Event> { if absent then [Start(k, id)] else [] }

  function ContentIf(k: Kind, id: string, delta: string): seq<Event> {
    if delta == "" then [] else [Content(k, id, delta)]
  }

  lemma GrowStartIf(b: Snap, events: seq<Event>, absent: bool, k: Kind, id: string)
    requires Building(b, b.args, b.tools, events)
    requires absent ==> Fits(Replay(b.opens, events), Start(k, id))
    ensures Building(b, b.args, b.tools, events + StartIf(absent, k, id))
    ensures Replay(b.opens, events + StartIf(absent, k, id)) ==
            if absent then ReplayOne(Replay(b.opens, events), Start(k, id)) else Replay(b.opens, events)
  {
    if absent { Grow(b, b.args, b.tools, events, Start(k, id)); } else { assert events + [] == events; }
  }

  lemma GrowContentIf(b: Snap, events: seq<Event>, k: Kind, id: string, delta: string)
    requires Building(b, b.args, b.tools, events)
    requires Fits(Replay(b.opens, events), Content(k, id, delta))
    ensures Building(b, b.args, b.tools, events + ContentIf(k, id, delta))
    ensures Replay(b.opens, events + ContentIf(k, id, delta)) == Replay(b.opens, events)
  {
    if delta != "" { Grow(b, b.args, b.tools, events, Content(k, id, delta)); } else { assert events + [] == events; }
  }

  /** The reasoning block of an ordinary chunk. */
  function Think(s: Snap, rid: string, reasoning: string): Batch {
    if reasoning == "" then Batch(s, [])
    else
      var previous := Get(s.reasons, rid);
      Batch(s.(reasons := s.reasons[rid := Recorded(previous, reasoning)],
               opens := s.opens.(reasoning := s.opens.reasoning + {rid})),
            StartIf(rid !in s.opens.reasoning, Reasoning, rid) + ContentIf(Reasoning, rid, Delta(previous, reasoning)))
  }

  lemma ThinkFollows(s: Snap, rid: string, reasoning: string)
    requires Ok(s) && !Sub(rid)
    ensures var r := Think(s, rid, reasoning);
      Building(s, s.args, s.tools, r.events) && Replay(s.opens, r.events) == r.snap.opens
  {
    EmptyBatch(s);
    if reasoning != "" {
      var absent := rid !in s.opens.reasoning;
      var head := StartIf(absent, Reasoning, rid);
      GrowStartIf(s, [], absent, Reasoning, rid);
      assert [] + head == head;
      assert s.opens.reasoning + {rid} == if absent then s.opens.reasoning + {rid} else s.opens.reasoning;
      GrowContentIf(s, head, Reasoning, rid, Delta(Get(s.reasons, rid), reasoning));
    }
  }

  /** A chunk's reasoning delta shows up in its own message and nowhere else. */
  lemma ThinkJoins(absent: bool, rid: string, delta: string, id: string)
    requires !Sub(id)
    ensures Joined(StartIf(absent, Reasoning, rid) + ContentIf(Reasoning, rid, delta), Reasoning, id) ==
            if id == rid then delta else ""
  {
    var head := StartIf(absent, Reasoning, rid);
    PlainJoinsNothing(head, id);
    if delta == "" {
      assert head + [] == head;
    } else {
      JoinedPush(head, Content(Reasoning, rid, delta), Reasoning, id);
    }
  }

  lemma ThinkReasons(s: Snap, rid: string, reasoning: string)
    requires !Sub(rid)
    ensures var r := Think(s, rid, reasoning); ReasonsGrow(s.reasons, r.snap.reasons, r.events)
  {
    if reasoning == "" {
      PlainGrowsNothing(s.reasons, []);
    } else {
      var previous := Get(s.reasons, rid);
      RecordedIsEmitted(previous, reasoning);
      var now := s.reasons[rid := Recorded(previous, reasoning)];
      forall id | !Sub(id)
        ensures Get(now, id) == Get(s.reasons, id) + Joined(Think(s, rid, reasoning).events, Reasoning, id)
      {
        ThinkJoins(rid !in s.opens.reasoning, rid, Delta(previous, reasoning), id);
      }
    }
  }

  function OpenText(o: Opens, id: string): seq<Event> {
    if o.text == Some(id) then [] else EndText(o) + [Start(Text, id)]
  }

  /** The text part of a chunk, with the END of the chunk's own reasoning before it. */
  function TextPart(o: Opens, rid: string, thinking: bool, id: string, content: string): seq<Event> {
    EndIf(thinking, Reasoning, rid) + OpenText(o, id) + [Content(Text, id, content)]
  }

  /** An ordinary chunk: reasoning, then text; text closes the reasoning of the same message. */
  function AiText(s: Snap, m: Message): Batch
    requires m.Ai?
  {
    var id, rid := MessageId(m), ReasoningId(MessageId(m));
    var t := Think(s, rid, m.reasoning);
    if m.content == "" then t
    else
      Batch(t.snap.(opens := t.snap.opens.(reasoning := t.snap.opens.reasoning - {rid})),
            t.events + TextPart(s.opens, rid, rid in t.snap.opens.reasoning, id, m.content))
  }

  lemma TextContinues(s: Snap, id: string, head: seq<Event>, content: string)
    requires Building(s, s.args, s.tools, head) && Replay(s.opens, head).text == Some(id)
    ensures Building(s, s.args, s.tools, head + [Content(Text, id, content)])
    ensures Replay(s.opens, head + [Content(Text, id, content)]) == Replay(s.opens, head)
  {
    Grow(s, s.args, s.tools, head, Content(Text, id, content));
  }

  lemma TextStarts(s: Snap, id: string, head: seq<Event>, content: string)
    requires Building(s, s.args, s.tools, head) && id !in Replay(s.opens, head).subText
    requires Replay(s.opens, head).text.None?
    ensures var events := head + [Start(Text, id)] + [Content(Text, id, content)];
      && Building(s, s.args, s.tools, events)
      && Replay(s.opens, events) == ReplayOne(Replay(s.opens, head), Start(Text, id))
  {
    Grow(s, s.args, s.tools, head, Start(Text, id));
    Grow(s, s.args, s.tools, head + [Start(Text, id)], Content(Text, id, content));
  }

  /** Text in an id that is not an open subagent message. */
  lemma TextFollows(s: Snap, id: string, head: seq<Event>, content: string)
    requires Building(s, s.args, s.tools, head) && id !in s.opens.subText
    requires Replay(s.opens, head).text == s.opens.text && Replay(s.opens, head).subText == s.opens.subText
    ensures var events := head + OpenText(s.opens, id) + [Content(Text, id, content)];
      && Building(s, s.args, s.tools, events)
      && Replay(s.opens, events).subText == (if Sub(id) then s.opens.subText + {id} else s.opens.subText)
  {
    if s.opens.text == Some(id) {
      TextIsMain(s);
      assert head + OpenText(s.opens, id) == head;
      TextContinues(s, id, head, content);
    } else {
      GrowEndText(s, s.args, s.tools, head);
      var ended := head + EndText(s.opens);
      assert head + OpenText(s.opens, id) == ended + [Start(Text, id)];
      TextStarts(s, id, ended, content);
    }
  }

  lemma TextIsMain(s: Snap)
    requires Ok(s)
    ensures s.opens.text.Some? ==> !Sub(s.opens.text.value)
  {
  }

  lemma StartTwiceBreaks(b: Brackets, head: seq<Event>, id: string, content: string)
    requires Scan(b, head).Brackets? && Scan(b, head).stage == Streaming && (Text, id) in Scan(b, head).open
    ensures Scan(b, head + [Start(Text, id)] + [Content(Text, id, content)]) == Broken
  {
    var now, again := Scan(b, head), Start(Text, id);
    assert Next(now, again) == Broken;
    ScanPush(b, head, again);
    BreaksForGood(b, head + [again], Content(Text, id, content));
  }

  lemma BreaksForGood(b: Brackets, events: seq<Event>, e: Event)
    requires Scan(b, events) == Broken
    ensures Scan(b, events + [e]) == Broken
  {
    ScanPush(b, events, e);
  }

  lemma SubTextIsOpen(o: Opens, id: string)
    requires Typed(o) && id in o.subText
    ensures (Text, id) in OpenIds(o) && o.text != Some(id)
  {
  }

  /** Text in an id that is an open subagent message starts it a second time. */
  lemma TextCollides(s: Snap, id: string, head: seq<Event>, content: string)
    requires Building(s, s.args, s.tools, head) && id in s.opens.subText
    requires Replay(s.opens, head).text == s.opens.text && Replay(s.opens, head).subText == s.opens.subText
    ensures Scan(ViewOf(s), head + OpenText(s.opens, id) + [Content(Text, id, content)]) == Broken
  {
    GrowEndText(s, s.args, s.tools, head);
    var ended := head + EndText(s.opens);
    SubTextIsOpen(s.opens, id);
    ReplayKeepsTyped(s.opens, ended);
    SubTextIsOpen(Replay(s.opens, ended), id);
    assert head + OpenText(s.opens, id) == ended + [Start(Text, id)];
    StartTwiceBreaks(ViewOf(s), ended, id, content);
  }

  /** The reasoning part of a chunk with text: opened if need be, and closed again. */
  lemma ReasoningPartFollows(s: Snap, m: Message)
    requires m.Ai? && Ok(s)
    ensures var rid := ReasoningId(MessageId(m));
      var t := Think(s, rid, m.reasoning);
      var head := t.events + EndIf(rid in t.snap.opens.reasoning, Reasoning, rid);
      && Building(s, s.args, s.tools, head)
      && Replay(s.opens, head) == t.snap.opens.(reasoning := t.snap.opens.reasoning - {rid})
  {
    var rid := ReasoningId(MessageId(m));
    ReasoningIdIsMain(MessageId(m));
    ThinkFollows(s, rid, m.reasoning);
    var t := Think(s, rid, m.reasoning);
    var open := rid in t.snap.opens.reasoning;
    GrowEndIf(s, t.events, open, Reasoning, rid);
    if !open { assert t.snap.opens.reasoning - {rid} == t.snap.opens.reasoning; }
  }

  /** An ordinary chunk yields message events only. */
  lemma AiTextShape(s: Snap, m: Message)
    requires m.Ai?
    ensures forall e :: e in AiText(s, m).events ==> e.Start? || e.Content? || e.End?
    ensures AiText(s, m).snap.args == s.args && AiText(s, m).snap.tools == s.tools
  {
  }

  lemma AiTextMentions(s: Snap, m: Message)
    requires m.Ai? && Ok(s)
    ensures DiffersAsMentioned(s.opens, AiText(s, m).snap.opens, AiText(s, m).events)
  {
    var rid := ReasoningId(MessageId(m));
    ReasoningIdIsMain(MessageId(m));
    var t, r := Think(s, rid, m.reasoning), AiText(s, m);
    if m.content != "" {
      assert r.events == t.events + TextPart(s.opens, rid, rid in t.snap.opens.reasoning, MessageId(m), m.content);
    }
    assert m.reasoning != "" && rid !in s.opens.reasoning ==> Start(Reasoning, rid) in t.events;
    ThinkMentions(s, r.snap.opens, rid, r.events);
  }

  lemma AiTextReasons(s: Snap, m: Message)
    requires m.Ai?
    ensures var r := AiText(s, m); ReasonsGrow(s.reasons, r.snap.reasons, r.events)
  {
    var id, rid := MessageId(m), ReasoningId(MessageId(m));
    ReasoningIdIsMain(id);
    ThinkReasons(s, rid, m.reasoning);
    if m.content != "" {
      var t := Think(s, rid, m.reasoning);
      var rest := TextPart(s.opens, rid, rid in t.snap.opens.reasoning, id, m.content);
      TextPartIsPlain(s.opens, rid, rid in t.snap.opens.reasoning, id, m.content);
      ReasonsThenPlain(s.reasons, t.snap.reasons, t.events, rest);
      assert AiText(s, m).events == t.events + rest && AiText(s, m).snap.reasons == t.snap.reasons;
    }
  }

  lemma TextPartIsPlain(o: Opens, rid: string, thinking: bool, id: string, content: string)
    ensures Plain(TextPart(o, rid, thinking, id, content))
  {
  }

  lemma ReasonsThenPlain(before: map<string, string>, after: map<string, string>, x: seq<Event>, y: seq<Event>)
    requires ReasonsGrow(before, after, x) && Plain(y)
    ensures ReasonsGrow(before, after, x + y)
  {
    forall i | !Sub(i) ensures Joined(x + y, Reasoning, i) == Joined(x, Reasoning, i) {
      PlainJoinsNothing(y, i);
      JoinedAppend(x, y, Reasoning, i);
    }
  }

  lemma NoArgsSent(args: map<string, string>, events: seq<Event>)
    requires forall e :: e in events ==> e.Start? || e.Content? || e.End?
    ensures ArgsFrom(args, events)
  {
  }

  /** The events of a chunk with text, cut before its text. */
  lemma AiTextSplits(s: Snap, m: Message)
    requires m.Ai? && m.content != ""
    ensures var id, rid := MessageId(m), ReasoningId(MessageId(m));
      var t := Think(s, rid, m.reasoning);
      AiText(s, m).events ==
        (t.events + EndIf(rid in t.snap.opens.reasoning, Reasoning, rid)) + OpenText(s.opens, id)
          + [Content(Text, id, m.content)]
  {
    var id, rid := MessageId(m), ReasoningId(MessageId(m));
    var t := Think(s, rid, m.reasoning);
    FourParts(t.events, EndIf(rid in t.snap.opens.reasoning, Reasoning, rid), OpenText(s.opens, id),
      [Content(Text, id, m.content)]);
  }

  lemma FourParts<T>(w: seq<T>, x: seq<T>, y: seq<T>, z: seq<T>)
    ensures w + (x + y + z) == w + x + y + z
  {
  }

  lemma AiTextBuilds(s: Snap, m: Message)
    requires m.Ai? && Ok(s) && m.content != "" && MessageId(m) !in s.opens.subText
    ensures var r := AiText(s, m);
      && Building(s, s.args, s.tools, r.events)
      && Replay(s.opens, r.events).subText
           == if Sub(MessageId(m)) then s.opens.subText + {MessageId(m)} else s.opens.subText
  {
    var id, rid := MessageId(m), ReasoningId(MessageId(m));
    ReasoningPartFollows(s, m);
    var t := Think(s, rid, m.reasoning);
    var head := t.events + EndIf(rid in t.snap.opens.reasoning, Reasoning, rid);
    AiTextSplits(s, m);
    TextFollows(s, id, head, m.content);
  }

  lemma AiTextBreaks(s: Snap, m: Message)
    requires m.Ai? && Ok(s) && m.content != "" && MessageId(m) in s.opens.subText
    ensures Scan(ViewOf(s), AiText(s, m).events) == Broken
  {
    var id, rid := MessageId(m), ReasoningId(MessageId(m));
    ReasoningPartFollows(s, m);
    var t := Think(s, rid, m.reasoning);
    var head := t.events + EndIf(rid in t.snap.opens.reasoning, Reasoning, rid);
    AiTextSplits(s, m);
    TextCollides(s, id, head, m.content);
  }

  lemma ThoughtBuilds(s: Snap, m: Message)
    requires m.Ai? && Ok(s) && m.content == ""
    ensures var r := AiText(s, m);
      Building(s, s.args, s.tools, r.events) && Replay(s.opens, r.events).subText == s.opens.subText
  {
    ReasoningIdIsMain(MessageId(m));
    ThinkFollows(s, ReasoningId(MessageId(m)), m.reasoning);
  }

  lemma AiTextFollows(s: Snap, m: Message)
    requires m.Ai? && Ok(s)
    ensures var r := AiText(s, m);
      if m.content != "" && MessageId(m) in s.opens.subText then BuiltBroken(s, r.snap, r.events)
      else Built(s, r.snap, r.events) &&
           Replay(s.opens, r.events).subText ==
             (if m.content != "" && Sub(MessageId(m)) then s.opens.subText + {MessageId(m)} else s.opens.subText)
  {
    AiTextMentions(s, m);
    AiTextShape(s, m);
    NoArgsSent(s.args, AiText(s, m).events);
    if m.content == "" { ThoughtBuilds(s, m); }
    else if MessageId(m) in s.opens.subText { AiTextBreaks(s, m); }
    else { AiTextBuilds(s, m); }
  }

  /** Opening or closing only `rid` is covered by an event naming it. */
  lemma ThinkMentions(s: Snap, after: Opens, rid: string, events: seq<Event>)
    requires Ok(s) && !Sub(rid)
    requires after == s.opens.(reasoning := after.reasoning)
    requires forall id :: id != rid ==> (id in after.reasoning <==> id in s.opens.reasoning)
    requires (rid in after.reasoning) != (rid in s.opens.reasoning) ==> Mentioned(events, Reasoning, rid)
    ensures DiffersAsMentioned(s.opens, after, events)
  {
    forall d | d in Differences(s.opens, after)
      ensures d == (Reasoning, rid) && (rid in after.reasoning) != (rid in s.opens.reasoning)
    {
    }
  }
}

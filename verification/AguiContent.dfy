/** What a client is shown, read off the entries alone: every text and thinking chunk, every tool result and
    note in the order of the entries, whatever the ids; every tool call that was named, once; the snapshots
    without repeats. */
module AguiContent {
  import opened Common
  import opened AguiEvents
  import opened ReasoningDelta
  import opened AguiStream
  import opened AguiTranslator
  import opened AguiEntries
  import opened AguiRun
  import opened AguiService

  // ---- payload -------------------------------------------------------------------------------------

  /** Events that carry something of their own: text, subagent thinking, tool results and notes. What is left
      are brackets, tool calls, snapshots and main reasoning, whose texts are what chunks amount to. */
  predicate Carries(e: Event) {
    || e.Custom? || e.ToolResult?
    || (e.Content? && (e.kind == Text || Sub(e.id)))
  }

  function Payload(trace: seq<Event>): seq<Event> {
    if trace == [] then []
    else
      var e := trace[|trace| - 1];
      Payload(trace[..|trace| - 1]) + if Carries(e) then [e] else []
  }

  /** What an entry is to bring. */
  function Said(e: Entry): seq<Event> {
    match e
    case Heartbeat => [Custom("deerflow.heartbeat")]
    case Unlisted => []
    case MessagesTuple(Ai(id, uuid, content, _, calls)) =>
      if calls == [] && content != "" then [Content(Text, if id != "" then id else uuid, content)] else []
    case MessagesTuple(ToolMessage(id, uuid, call, content)) =>
      if call != "" then [ToolResult(call, if id != "" then id else uuid, content)] else []
    case MessagesTuple(OtherMessage) => []
    case Values(_, artifacts) => if artifacts then [Custom("deerflow.artifacts")] else []
    case CustomEntry => [Custom("deerflow.custom")]
    case ToolCallChunk(_, _) => []
    case ToolResultChunk(task, name, raw, content) =>
      var t := if task != "" then task else "subagent";
      var call := SubCallId(t, raw, if name != "" then name else "tool");
      [ToolResult(call, "subagent:" + t + ":tool-result:" + call, content)]
    case SubagentStarted(_) => [Custom("deerflow.subagent.subagent_started")]
    case TokenChunk(task, content) =>
      [Custom("deerflow.subagent.token_chunk")]
      + if task != "" && content != "" then [Content(Text, "subagent:" + task + ":message", content)] else []
    case ThinkingChunk(task, thinking) =>
      [Custom("deerflow.subagent.thinking_chunk")]
      + if task != "" && thinking != "" then [Content(Reasoning, "subagent:" + task + ":reasoning", thinking)] else []
    case TaskTerminal(name, _) => [Custom(name)]
    case TaskProgress(name) => [Custom(name)]
    case EndOfRun => [Custom("deerflow.usage")]
  }

  function AllSaid(entries: seq<Entry>): seq<Event> {
    if entries == [] then [] else AllSaid(entries[..|entries| - 1]) + Said(entries[|entries| - 1])
  }

  lemma PayloadPush(trace: seq<Event>, e: Event)
    ensures Payload(trace + [e]) == Payload(trace) + if Carries(e) then [e] else []
  {
    assert (trace + [e])[..|trace|] == trace;
  }

  lemma {:induction false} PayloadAppend(x: seq<Event>, y: seq<Event>)
    ensures Payload(x + y) == Payload(x) + Payload(y)
    decreases |y|
  {
    if y == [] {
      assert x + y == x;
    } else {
      var z, e := y[..|y| - 1], y[|y| - 1];
      PayloadAppend(x, z);
      PayloadPush(x + z, e);
      assert y == z + [e];
      ConcatAssoc(x, z, [e]);
      ConcatAssoc(Payload(x), Payload(z), if Carries(e) then [e] else []);
    }
  }

  lemma {:induction false} BracketsCarryNothing(trace: seq<Event>)
    requires forall e :: e in trace ==> !Carries(e)
    ensures Payload(trace) == []
  {
    if trace != [] {
      assert trace[|trace| - 1] in trace && forall e :: e in trace[..|trace| - 1] ==> e in trace;
      BracketsCarryNothing(trace[..|trace| - 1]);
    }
  }

  /** Nothing carried before the last part. */
  lemma LastCarries(head: seq<Event>, e: Event)
    requires (forall x :: x in head ==> !Carries(x)) && Carries(e)
    ensures Payload(head + [e]) == [e]
  {
    BracketsCarryNothing(head);
    PayloadPush(head, e);
  }

  // ---- one entry -------------------------------------------------------------------------------------

  lemma ThinkCarriesNothing(s: Snap, m: Message)
    requires m.Ai?
    ensures forall e :: e in Think(s, ReasoningId(MessageId(m)), m.reasoning).events ==> !Carries(e)
  {
    ReasoningIdIsMain(MessageId(m));
  }

  lemma TextSays(s: Snap, m: Message)
    requires m.Ai? && m.calls == []
    ensures Payload(AiText(s, m).events) == Said(MessagesTuple(m))
  {
    ThinkCarriesNothing(s, m);
    if m.content == "" {
      BracketsCarryNothing(AiText(s, m).events);
    } else {
      TextIsLast(s, m);
    }
  }

  lemma TextIsLast(s: Snap, m: Message)
    requires m.Ai? && m.content != ""
    ensures Payload(AiText(s, m).events) == [Content(Text, MessageId(m), m.content)]
  {
    var rid, id := ReasoningId(MessageId(m)), MessageId(m);
    var t := Think(s, rid, m.reasoning);
    var ending := rid in t.snap.opens.reasoning;
    ThinkCarriesNothing(s, m);
    AiTextSplits(s, m);
    LastOfThree(t.events + EndIf(ending, Reasoning, rid), OpenText(s.opens, id), Content(Text, id, m.content));
  }

  lemma OutcomeSays(s: Snap, call: string, message: string, content: string)
    ensures Payload(ToolOutcome(s, call, message, content).events) == [ToolResult(call, message, content)]
  {
    var closing := if call in s.tools then [ToolArgs(call, Recall(s.args, call))] + [ToolEnd(call)] else [];
    LastCarries(closing, ToolResult(call, message, content));
  }

  lemma CallsSay(s: Snap, m: Message)
    requires m.Ai? && m.calls != []
    ensures Payload(AiCalls(s, m).events) == []
  {
    AiCallsShape(s, m);
    BracketsCarryNothing(AiCalls(s, m).events);
  }

  lemma AiSays(s: Snap, m: Message)
    requires m.Ai?
    ensures Payload(MessageBatch(s, m).events) == Said(MessagesTuple(m))
  {
    if m.calls != [] { CallsSay(s, m); } else { TextSays(s, m); }
  }

  lemma MessageSays(s: Snap, m: Message)
    ensures Payload(MessageBatch(s, m).events) == Said(MessagesTuple(m))
  {
    if m.Ai? { AiSays(s, m); }
    else if m.ToolMessage? && m.call != "" { OutcomeSays(s, m.call, MessageId(m), m.content); }
  }

  lemma IdsAreSpelled(task: string)
    ensures SubText(task) == "subagent:" + task + ":message" && SubReasoning(task) == "subagent:" + task + ":reasoning"
    ensures Sub(SubText(task)) && Sub(SubReasoning(task))
  {
    SubIdsAreSub(task);
    assert SubText(task) == "subagent:" + task + ":message";
    assert SubReasoning(task) == "subagent:" + task + ":reasoning";
  }

  lemma TokenSays(s: Snap, task: string, content: string)
    ensures Payload(SubToken(s, task, content).events) == Said(TokenChunk(task, content))
  {
    var note := Custom("deerflow.subagent.token_chunk");
    NoteSays("deerflow.subagent.token_chunk");
    if task != "" && content != "" {
      IdsAreSpelled(task);
      var rid, id := SubReasoning(task), SubText(task);
      var ending, starting := rid in s.opens.subReasoning, id !in s.opens.subText;
      var x, y, z := EndIf(ending, Reasoning, rid), StartIf(starting, Text, id), [Content(Text, id, content)];
      LastOfThree(x, y, Content(Text, id, content));
      PayloadAppend([note], x + y + z);
      FourParts([note], x, y, z);
      assert SubToken(s, task, content).events == [note] + x + y + z;
    }
  }

  lemma ThinkingSays(s: Snap, task: string, thinking: string)
    ensures Payload(SubThinking(s, task, thinking).events) == Said(ThinkingChunk(task, thinking))
  {
    var note := Custom("deerflow.subagent.thinking_chunk");
    IdsAreSpelled(task);
    LastCarries([], note);
    assert [] + [note] == [note];
    if task != "" && thinking != "" {
      var rid := SubReasoning(task);
      var start := StartIf(rid !in s.opens.subReasoning, Reasoning, rid);
      LastCarries(start, Content(Reasoning, rid, thinking));
      PayloadAppend([note], start + [Content(Reasoning, rid, thinking)]);
      assert SubThinking(s, task, thinking).events == [note] + (start + [Content(Reasoning, rid, thinking)]);
    }
  }

  lemma EndsThenNote(thinking: bool, rid: string, talking: bool, id: string, name: string)
    ensures Payload(EndIf(thinking, Reasoning, rid) + EndIf(talking, Text, id) + Note(name)) == Note(name)
  {
    LastOfThree(EndIf(thinking, Reasoning, rid), EndIf(talking, Text, id), Custom(name));
  }

  lemma TerminalSays(s: Snap, name: string, task: string)
    ensures Payload(SubTerminal(s, name, task).events) == Said(TaskTerminal(name, task))
  {
    var rid, id := SubReasoning(task), SubText(task);
    EndsThenNote(task != "" && rid in s.opens.subReasoning, rid, task != "" && id in s.opens.subText, id, name);
  }

  lemma EndsCarryNothing(o: Opens)
    ensures forall e :: e in CloseMessages(o) ==> !Carries(e) && !e.ToolStart? && !e.Snapshot?
  {
    CloseMessagesArePlain(o);
  }

  lemma CloseCallsCarryNothing(args: map<string, string>, order: seq<string>)
    ensures forall e :: e in CloseCalls(args, order) ==> !Carries(e) && !e.ToolStart? && !e.Snapshot?
  {
    CloseCallsShape(args, order);
  }

  lemma LastOfThree(x: seq<Event>, y: seq<Event>, e: Event)
    requires (forall d :: d in x ==> !Carries(d)) && (forall d :: d in y ==> !Carries(d)) && Carries(e)
    ensures Payload(x + y + [e]) == [e]
  {
    LastCarries(x + y, e);
  }

  lemma CloseAllSays(s: Snap, order: seq<string>)
    ensures Payload(CloseAll(s, order).events) == Said(EndOfRun)
  {
    EndsCarryNothing(s.opens);
    CloseCallsCarryNothing(s.args, order);
    LastOfThree(CloseMessages(s.opens), CloseCalls(s.args, order), Custom("deerflow.usage"));
  }

  lemma ValuesSay(s: Snap, signature: Option<string>, artifacts: bool)
    ensures Payload(SnapshotIf(signature) + if artifacts then Note("deerflow.artifacts") else []) ==
            Said(Values(signature, artifacts))
  {
    BracketsCarryNothing(SnapshotIf(signature));
    if artifacts {
      LastCarries(SnapshotIf(signature), Custom("deerflow.artifacts"));
    } else {
      assert SnapshotIf(signature) + [] == SnapshotIf(signature);
    }
  }

  lemma NoteSays(name: string)
    ensures Payload(Note(name)) == [Custom(name)]
  {
    LastCarries([], Custom(name));
    assert [] + [Custom(name)] == [Custom(name)];
  }

  ghost predicate Says(s: Snap, e: Entry, order: seq<string>) { Payload(EntryBatch(s, e, order).events) == Said(e) }

  lemma PlainSays(s: Snap, e: Entry, order: seq<string>)
    requires e.Heartbeat? || e.Unlisted? || e.CustomEntry? || e.SubagentStarted? || e.TaskProgress?
    ensures Says(s, e, order)
  {
    if e.Heartbeat? { NoteSays("deerflow.heartbeat"); }
    else if e.CustomEntry? { NoteSays("deerflow.custom"); }
    else if e.SubagentStarted? { NoteSays("deerflow.subagent.subagent_started"); }
    else if e.TaskProgress? { NoteSays(e.name); }
  }

  lemma ToolCallSays(s: Snap, task: string, call: ToolCall, order: seq<string>)
    ensures Says(s, ToolCallChunk(task, call), order)
  {
    SubToolCarries(s, Or(task, "subagent"), call);
  }

  lemma ToolResultSays(s: Snap, task: string, name: string, raw: string, content: string, order: seq<string>)
    ensures Says(s, ToolResultChunk(task, name, raw, content), order)
  {
    var t := Or(task, "subagent");
    var id := SubCallId(t, raw, Or(name, "tool"));
    OutcomeSays(s, id, SUBAGENT + t + ":tool-result:" + id, content);
  }

  lemma RunEntrySays(s: Snap, e: Entry, order: seq<string>)
    requires e.MessagesTuple? || e.Values? || e.EndOfRun?
    ensures Says(s, e, order)
  {
    if e.MessagesTuple? { MessageSays(s, e.message); }
    else if e.Values? { ValuesSay(s, e.snapshot, e.artifacts); }
    else { CloseAllSays(s, order); }
  }

  lemma TaskEntrySays(s: Snap, e: Entry, order: seq<string>)
    requires e.TokenChunk? || e.ThinkingChunk? || e.TaskTerminal?
    ensures Says(s, e, order)
  {
    if e.TokenChunk? { TokenSays(s, e.task, e.content); }
    else if e.ThinkingChunk? { ThinkingSays(s, e.task, e.thinking); }
    else { TerminalSays(s, e.name, e.task); }
  }

  /** Every entry says what it is to say, from every state. */
  lemma EveryEntrySays(s: Snap, e: Entry, order: seq<string>)
    ensures Payload(EntryBatch(s, e, order).events) == Said(e)
  {
    SaysAlways(s, e, order);
  }

  lemma SaysAlways(s: Snap, e: Entry, order: seq<string>)
    ensures Says(s, e, order)
  {
    if e.MessagesTuple? || e.Values? || e.EndOfRun? { RunEntrySays(s, e, order); }
    else if e.TokenChunk? || e.ThinkingChunk? || e.TaskTerminal? { TaskEntrySays(s, e, order); }
    else if e.ToolCallChunk? { ToolCallSays(s, e.task, e.call, order); }
    else if e.ToolResultChunk? { ToolResultSays(s, e.task, e.name, e.rawCall, e.content, order); }
    else { PlainSays(s, e, order); }
  }

  lemma SubToolCarries(s: Snap, task: string, call: ToolCall)
    ensures Payload(SubCall(s, task, call).events) == []
  {
    if call.ToolCall? { ToolCallsShape(s, [Namespaced(task, call)], SUBAGENT + task); }
    BracketsCarryNothing(SubCall(s, task, call).events);
  }

  // ---- one connection -----------------------------------------------------------------------------------

  lemma PassOneCarries(p: Pass, e: Event)
    ensures Payload(PassOne(p, e).sent) == Payload(p.sent) + if Carries(e) then [e] else []
  {
    if e.Snapshot? && p.last == Some(e.signature) { assert Payload(p.sent) + [] == Payload(p.sent); }
    else { PayloadPush(p.sent, e); }
  }

  /** The caller's pass drops nothing that carries. */
  lemma {:induction false} PassCarries(o: Opens, last: Option<string>, events: seq<Event>)
    ensures Payload(PassOver(o, last, events).sent) == Payload(events)
    decreases |events|
  {
    if events != [] {
      PassCarries(o, last, events[..|events| - 1]);
      PassOneCarries(PassOver(o, last, events[..|events| - 1]), events[|events| - 1]);
    }
  }

  lemma AdvanceSays(p: Progress, read: seq<Entry>, e: Entry, order: seq<string>)
    requires Payload(p.out) == AllSaid(read)
    ensures Payload(Advance(p, e, order).out) == AllSaid(read + [e])
  {
    var r := EntryBatch(p.snap, e, order);
    EveryEntrySays(p.snap, e, order);
    PassCarries(r.snap.opens, p.last, r.events);
    PayloadAppend(p.out, Wire(p, e, order).sent);
    assert (read + [e])[..|read|] == read;
  }

  lemma NothingOfThree(x: seq<Event>, y: seq<Event>, e: Event)
    requires (forall d :: d in x ==> !Carries(d)) && (forall d :: d in y ==> !Carries(d)) && !Carries(e)
    ensures Payload(x + y + [e]) == []
  {
    BracketsCarryNothing(x + y + [e]);
  }

  lemma FarewellSays(s: Snap, order: seq<string>, terminal: Event)
    requires Terminal(terminal)
    ensures Payload(Farewell(s, order) + [terminal]) == []
  {
    EndsCarryNothing(s.opens);
    CloseCallsCarryNothing(s.args, order);
    NothingOfThree(CloseCalls(s.args, order), CloseMessages(s.opens), terminal);
  }

  // ---- text, message by message -----------------------------------------------------------------------------

  /** The text an entry has for one message. */
  function TextFor(e: Entry, k: Kind, id: string): string {
    match e
    case MessagesTuple(Ai(own, uuid, content, _, calls)) =>
      if k == Text && calls == [] && id == (if own != "" then own else uuid) then content else ""
    case TokenChunk(task, content) =>
      if k == Text && task != "" && id == "subagent:" + task + ":message" then content else ""
    case ThinkingChunk(task, thinking) =>
      if k == Reasoning && task != "" && id == "subagent:" + task + ":reasoning" then thinking else ""
    case _ => ""
  }

  function TextOf(entries: seq<Entry>, k: Kind, id: string): string {
    if entries == [] then "" else TextOf(entries[..|entries| - 1], k, id) + TextFor(entries[|entries| - 1], k, id)
  }

  lemma {:induction false} JoinedIsCarried(trace: seq<Event>, k: Kind, id: string)
    requires k == Text || Sub(id)
    ensures Joined(trace, k, id) == Joined(Payload(trace), k, id)
    decreases |trace|
  {
    if trace != [] {
      var pre, e := trace[..|trace| - 1], trace[|trace| - 1];
      JoinedIsCarried(pre, k, id);
      if Carries(e) { JoinedPush(Payload(pre), e, k, id); } else { assert Payload(pre) + [] == Payload(pre); }
    }
  }

  lemma JoinedOne(e: Event, k: Kind, id: string)
    ensures Joined([e], k, id) == if e.Content? && e.kind == k && e.id == id then e.delta else ""
  {
    assert [e][..0] == [];
  }

  lemma JoinedTwo(d: Event, e: Event, k: Kind, id: string)
    requires !d.Content?
    ensures Joined([d] + [e], k, id) == if e.Content? && e.kind == k && e.id == id then e.delta else ""
  {
    JoinedOne(d, k, id);
    JoinedPush([d], e, k, id);
  }

  lemma TokenTextFor(task: string, content: string, k: Kind, id: string)
    ensures Joined(Said(TokenChunk(task, content)), k, id) == TextFor(TokenChunk(task, content), k, id)
  {
    var note := Custom("deerflow.subagent.token_chunk");
    if task != "" && content != "" {
      JoinedTwo(note, Content(Text, "subagent:" + task + ":message", content), k, id);
    } else {
      JoinedOne(note, k, id);
      assert [note] + [] == [note];
    }
  }

  lemma ThinkingTextFor(task: string, thinking: string, k: Kind, id: string)
    ensures Joined(Said(ThinkingChunk(task, thinking)), k, id) == TextFor(ThinkingChunk(task, thinking), k, id)
  {
    var note := Custom("deerflow.subagent.thinking_chunk");
    if task != "" && thinking != "" {
      JoinedTwo(note, Content(Reasoning, "subagent:" + task + ":reasoning", thinking), k, id);
    } else {
      JoinedOne(note, k, id);
      assert [note] + [] == [note];
    }
  }

  lemma MessageTextFor(m: Message, k: Kind, id: string)
    requires k == Text || Sub(id)
    ensures Joined(Said(MessagesTuple(m)), k, id) == TextFor(MessagesTuple(m), k, id)
  {
    if m.Ai? && m.calls == [] && m.content != "" { JoinedOne(Content(Text, MessageId(m), m.content), k, id); }
    else if m.ToolMessage? && m.call != "" { JoinedOne(ToolResult(m.call, MessageId(m), m.content), k, id); }
  }

  lemma SaidTextFor(e: Entry, k: Kind, id: string)
    requires k == Text || Sub(id)
    ensures Joined(Said(e), k, id) == TextFor(e, k, id)
  {
    if e.TokenChunk? { TokenTextFor(e.task, e.content, k, id); }
    else if e.ThinkingChunk? { ThinkingTextFor(e.task, e.thinking, k, id); }
    else if e.MessagesTuple? { MessageTextFor(e.message, k, id); }
    else if |Said(e)| == 1 {
      JoinedOne(Said(e)[0], k, id);
      assert Said(e) == [Said(e)[0]];
    }
  }

  lemma {:induction false} AllSaidText(entries: seq<Entry>, k: Kind, id: string)
    requires k == Text || Sub(id)
    ensures Joined(AllSaid(entries), k, id) == TextOf(entries, k, id)
    decreases |entries|
  {
    if entries != [] {
      var n := |entries| - 1;
      AllSaidText(entries[..n], k, id);
      SaidTextFor(entries[n], k, id);
      JoinedAppend(AllSaid(entries[..n]), Said(entries[n]), k, id);
    }
  }

  /** A trace that carries what the entries say shows for every message exactly the entries' texts. */
  lemma TextIsItsChunks(trace: seq<Event>, entries: seq<Entry>, k: Kind, id: string)
    requires Payload(trace) == AllSaid(entries) && (k == Text || Sub(id))
    ensures Joined(trace, k, id) == TextOf(entries, k, id)
  {
    JoinedIsCarried(trace, k, id);
    AllSaidText(entries, k, id);
  }

  // ---- tool calls -------------------------------------------------------------------------------------------

  /** The calls of one message or chunk, each as its START would be. */
  function Asked(calls: seq<ToolCall>, parent: string): seq<Event> {
    if calls == [] then []
    else
      var c := calls[|calls| - 1];
      Asked(calls[..|calls| - 1], parent)
      + if c.NotACall? then []
        else [ToolStart(if c.id != "" then c.id else c.uuid, if c.name != "" then c.name else "tool", parent)]
  }

  function AskedBy(e: Entry): seq<Event> {
    match e
    case MessagesTuple(Ai(id, uuid, _, _, calls)) => Asked(calls, if id != "" then id else uuid)
    case ToolCallChunk(task, call) =>
      var t := if task != "" then task else "subagent";
      if call.NotACall? then [] else Asked([Namespaced(t, call)], "subagent:" + t)
    case _ => []
  }

  function AllAsked(entries: seq<Entry>): seq<Event> {
    if entries == [] then [] else AllAsked(entries[..|entries| - 1]) + AskedBy(entries[|entries| - 1])
  }

  function CallsIn(asked: seq<Event>): set<string> { set e | e in asked && e.ToolStart? :: e.call }

  /** The first mention of each call. */
  function Firsts(asked: seq<Event>): seq<Event> {
    if asked == [] then []
    else
      var pre, e := asked[..|asked| - 1], asked[|asked| - 1];
      Firsts(pre) + if e.ToolStart? && e.call !in CallsIn(pre) then [e] else []
  }

  /** The START events of a trace. */
  function Starts(trace: seq<Event>): seq<Event> {
    if trace == [] then []
    else
      var e := trace[|trace| - 1];
      Starts(trace[..|trace| - 1]) + if e.ToolStart? then [e] else []
  }

  lemma StartsPush(trace: seq<Event>, e: Event)
    ensures Starts(trace + [e]) == Starts(trace) + if e.ToolStart? then [e] else []
  {
    assert (trace + [e])[..|trace|] == trace;
  }

  lemma {:induction false} StartsAppend(x: seq<Event>, y: seq<Event>)
    ensures Starts(x + y) == Starts(x) + Starts(y)
    decreases |y|
  {
    if y == [] {
      assert x + y == x;
    } else {
      var z, e := y[..|y| - 1], y[|y| - 1];
      StartsAppend(x, z);
      StartsPush(x + z, e);
      assert y == z + [e];
      ConcatAssoc(x, z, [e]);
      ConcatAssoc(Starts(x), Starts(z), if e.ToolStart? then [e] else []);
    }
  }

  lemma {:induction false} NoStarts(trace: seq<Event>)
    requires forall e :: e in trace ==> !e.ToolStart?
    ensures Starts(trace) == []
  {
    if trace != [] {
      assert trace[|trace| - 1] in trace && forall e :: e in trace[..|trace| - 1] ==> e in trace;
      NoStarts(trace[..|trace| - 1]);
    }
  }

  lemma {:induction false} AllStarts(trace: seq<Event>)
    requires forall e :: e in trace ==> e.ToolStart?
    ensures Starts(trace) == trace
  {
    if trace != [] {
      assert trace[|trace| - 1] in trace && forall e :: e in trace[..|trace| - 1] ==> e in trace;
      AllStarts(trace[..|trace| - 1]);
    }
  }

  lemma FirstsPush(asked: seq<Event>, e: Event)
    ensures Firsts(asked + [e]) == Firsts(asked) + if e.ToolStart? && e.call !in CallsIn(asked) then [e] else []
    ensures CallsIn(asked + [e]) == CallsIn(asked) + if e.ToolStart? then {e.call} else {}
  {
    assert (asked + [e])[..|asked|] == asked;
    CallsPush(asked, e);
  }

  lemma CallsPush(asked: seq<Event>, e: Event)
    ensures CallsIn(asked + [e]) == CallsIn(asked) + if e.ToolStart? then {e.call} else {}
  {
    var more := asked + [e];
    if e.ToolStart? { assert more[|asked|] == e; }
    forall c | c in CallsIn(asked) ensures c in CallsIn(more) {
      var x :| x in asked && x.ToolStart? && x.call == c;
      assert x in more;
    }
  }

  lemma KeysPut(args: map<string, string>, id: string, text: string)
    ensures args[id := text].Keys == args.Keys + {id}
  {
  }

  lemma {:induction false} ToolCallsStart(s: Snap, calls: seq<ToolCall>, parent: string, asked: seq<Event>)
    requires s.args.Keys == CallsIn(asked)
    ensures var r := ToolCalls(s, calls, parent);
      && r.snap.args.Keys == CallsIn(asked + Asked(calls, parent))
      && Firsts(asked + Asked(calls, parent)) == Firsts(asked) + r.events
    decreases |calls|
  {
    if calls == [] {
      assert asked + [] == asked && Firsts(asked) + [] == Firsts(asked);
    } else {
      var pre, c := calls[..|calls| - 1], calls[|calls| - 1];
      ToolCallsStart(s, pre, parent, asked);
      var before := ToolCalls(s, pre, parent);
      if c.NotACall? {
        assert Asked(pre, parent) + [] == Asked(pre, parent);
      } else {
        var e := ToolStart(CallId(c), Or(c.name, "tool"), parent);
        FirstsPush(asked + Asked(pre, parent), e);
        KeysPut(before.snap.args, CallId(c), c.args);
        ConcatAssoc(asked, Asked(pre, parent), [e]);
        if CallId(c) in before.snap.args {
          assert Firsts(asked) + before.events + [] == Firsts(asked) + before.events;
        } else {
          ConcatAssoc(Firsts(asked), before.events, [e]);
        }
      }
    }
  }

  ghost predicate StartsNone(events: seq<Event>) { forall e :: e in events ==> !e.ToolStart? }

  lemma MessageStartsNone(s: Snap, m: Message)
    requires !(m.Ai? && m.calls != [])
    ensures StartsNone(MessageBatch(s, m).events)
  {
    if m.Ai? { AiTextShape(s, m); }
    else if m.ToolMessage? { OutcomeShape(s, m.call, MessageId(m), m.content); }
  }

  lemma SubResultStartsNone(s: Snap, task: string, name: string, raw: string, content: string)
    ensures StartsNone(SubResult(s, task, name, raw, content).events)
  {
    var id := SubCallId(task, raw, Or(name, "tool"));
    OutcomeShape(s, id, SUBAGENT + task + ":tool-result:" + id, content);
  }

  lemma SubagentStartsNone(s: Snap, task: string, text: string)
    ensures StartsNone(SubToken(s, task, text).events) && StartsNone(SubThinking(s, task, text).events)
    ensures StartsNone(SubTerminal(s, text, task).events)
  {
  }

  lemma CloseAllStartsNone(s: Snap, order: seq<string>)
    ensures StartsNone(CloseAll(s, order).events)
  {
    EndsCarryNothing(s.opens);
    CloseCallsCarryNothing(s.args, order);
  }

  /** What does not name a call starts none. */
  lemma OthersStartNone(s: Snap, e: Entry, order: seq<string>)
    requires !(e.MessagesTuple? && e.message.Ai? && e.message.calls != []) && !e.ToolCallChunk?
    ensures Starts(EntryBatch(s, e, order).events) == [] && AskedBy(e) == []
  {
    if e.MessagesTuple? { MessageStartsNone(s, e.message); }
    else if e.ToolResultChunk? { SubResultStartsNone(s, Or(e.task, "subagent"), e.name, e.rawCall, e.content); }
    else if e.TokenChunk? { SubagentStartsNone(s, e.task, e.content); }
    else if e.ThinkingChunk? { SubagentStartsNone(s, e.task, e.thinking); }
    else if e.TaskTerminal? { SubagentStartsNone(s, e.task, e.name); }
    else if e.EndOfRun? { CloseAllStartsNone(s, order); }
    NoStarts(EntryBatch(s, e, order).events);
  }

  ghost predicate StartsAsked(s: Snap, e: Entry, order: seq<string>, asked: seq<Event>) {
    Firsts(asked + AskedBy(e)) == Firsts(asked) + Starts(EntryBatch(s, e, order).events)
  }

  lemma CallsEntryStarts(s: Snap, m: Message, order: seq<string>, asked: seq<Event>)
    requires m.Ai? && m.calls != [] && s.args.Keys == CallsIn(asked)
    ensures StartsAsked(s, MessagesTuple(m), order, asked)
  {
    MessageStarts(s, m, asked);
  }

  lemma SubCallStarts(s: Snap, task: string, call: ToolCall, order: seq<string>, asked: seq<Event>)
    requires call.ToolCall? && s.args.Keys == CallsIn(asked)
    ensures StartsAsked(s, ToolCallChunk(task, call), order, asked)
  {
    var t := Or(task, "subagent");
    AskedByChunk(task, call);
    CallsStart(s, [Namespaced(t, call)], SUBAGENT + t, asked);
    SubCallIsCalls(s, task, call, order);
  }

  lemma SubCallIsCalls(s: Snap, task: string, call: ToolCall, order: seq<string>)
    requires call.ToolCall?
    ensures var t := Or(task, "subagent");
      EntryBatch(s, ToolCallChunk(task, call), order) == ToolCalls(s, [Namespaced(t, call)], SUBAGENT + t)
  {
  }

  lemma AskedByChunk(task: string, call: ToolCall)
    requires call.ToolCall?
    ensures var t := Or(task, "subagent");
      AskedBy(ToolCallChunk(task, call)) == Asked([Namespaced(t, call)], SUBAGENT + t)
  {
  }

  lemma CallsStart(s: Snap, calls: seq<ToolCall>, parent: string, asked: seq<Event>)
    requires s.args.Keys == CallsIn(asked)
    ensures Firsts(asked + Asked(calls, parent)) == Firsts(asked) + Starts(ToolCalls(s, calls, parent).events)
  {
    ToolCallsStart(s, calls, parent, asked);
    ToolCallsShape(s, calls, parent);
    AllStarts(ToolCalls(s, calls, parent).events);
  }

  lemma NothingStarts(s: Snap, e: Entry, order: seq<string>, asked: seq<Event>)
    requires Starts(EntryBatch(s, e, order).events) == [] && AskedBy(e) == []
    ensures StartsAsked(s, e, order, asked)
  {
    assert asked + [] == asked && Firsts(asked) + [] == Firsts(asked);
  }

  lemma NoCallStarts(s: Snap, task: string, order: seq<string>)
    ensures Starts(EntryBatch(s, ToolCallChunk(task, NotACall), order).events) == []
  {
  }

  lemma EntryStarts(s: Snap, e: Entry, order: seq<string>, asked: seq<Event>)
    requires s.args.Keys == CallsIn(asked)
    ensures StartsAsked(s, e, order, asked)
  {
    if e.MessagesTuple? && e.message.Ai? && e.message.calls != [] {
      CallsEntryStarts(s, e.message, order, asked);
    } else if e.ToolCallChunk? && e.call.ToolCall? {
      SubCallStarts(s, e.task, e.call, order, asked);
    } else {
      if e.ToolCallChunk? { NoCallStarts(s, e.task, order); } else { OthersStartNone(s, e, order); }
      NothingStarts(s, e, order, asked);
    }
  }

  lemma StartsAfterEnds(head: seq<Event>, starts: seq<Event>)
    requires (forall e :: e in head ==> e.End?) && (forall e :: e in starts ==> e.ToolStart?)
    ensures Starts(head + starts) == starts
  {
    NoStarts(head);
    AllStarts(starts);
    StartsAppend(head, starts);
    assert [] + starts == starts;
  }

  lemma MessageStarts(s: Snap, m: Message, asked: seq<Event>)
    requires m.Ai? && s.args.Keys == CallsIn(asked)
    ensures Firsts(asked + Asked(m.calls, MessageId(m))) == Firsts(asked) + Starts(AiCalls(s, m).events)
  {
    var rid := ReasoningId(MessageId(m));
    var closed := s.(opens := s.opens.(reasoning := s.opens.reasoning - {rid}));
    var r, ending := ToolCalls(closed, m.calls, MessageId(m)), rid in s.opens.reasoning;
    ToolCallsStart(closed, m.calls, MessageId(m), asked);
    ToolCallsShape(closed, m.calls, MessageId(m));
    StartsAfterEnds(EndIf(ending, Reasoning, rid) + EndText(s.opens), r.events);
  }

  lemma {:induction false} PassStarts(o: Opens, last: Option<string>, events: seq<Event>)
    ensures Starts(PassOver(o, last, events).sent) == Starts(events)
    decreases |events|
  {
    if events != [] {
      var pre, e := events[..|events| - 1], events[|events| - 1];
      PassStarts(o, last, pre);
      StartsPush(PassOver(o, last, pre).sent, e);
    }
  }

  lemma {:induction false} ArgsOfAsked(args: map<string, string>, calls: seq<ToolCall>, parent: string,
                                       asked: seq<Event>)
    requires args.Keys == CallsIn(asked)
    ensures ArgsOfCalls(args, calls).Keys == CallsIn(asked + Asked(calls, parent))
    decreases |calls|
  {
    if calls == [] {
      assert asked + [] == asked;
    } else {
      var pre, c := calls[..|calls| - 1], calls[|calls| - 1];
      ArgsOfAsked(args, pre, parent, asked);
      if c.NotACall? {
        assert Asked(pre, parent) + [] == Asked(pre, parent);
      } else {
        var e := ToolStart(CallId(c), Or(c.name, "tool"), parent);
        FirstsPush(asked + Asked(pre, parent), e);
        ConcatAssoc(asked, Asked(pre, parent), [e]);
      }
    }
  }

  /** The calls with arguments on record are those that were named. */
  lemma {:induction false} ArgsSeenAreAsked(entries: seq<Entry>)
    ensures ArgsSeen(entries).Keys == CallsIn(AllAsked(entries))
    decreases |entries|
  {
    if entries != [] {
      var n := |entries| - 1;
      var asked, e := AllAsked(entries[..n]), entries[n];
      ArgsSeenAreAsked(entries[..n]);
      match e {
        case MessagesTuple(Ai(_, _, _, _, calls)) =>
          ArgsOfAsked(ArgsSeen(entries[..n]), calls, MessageId(e.message), asked);
        case ToolCallChunk(task, call) =>
          var t := Or(task, "subagent");
          if call.ToolCall? { ArgsOfAsked(ArgsSeen(entries[..n]), [Namespaced(t, call)], "subagent:" + t, asked); }
          else { assert asked + [] == asked; }
        case _ => assert asked + [] == asked;
      }
    }
  }

  lemma AdvanceStarts(p: Progress, read: seq<Entry>, e: Entry, order: seq<string>)
    requires Starts(p.out) == Firsts(AllAsked(read)) && p.snap.args == ArgsSeen(read)
    ensures Starts(Advance(p, e, order).out) == Firsts(AllAsked(read + [e]))
  {
    var r := EntryBatch(p.snap, e, order);
    ArgsSeenAreAsked(read);
    EntryStarts(p.snap, e, order, AllAsked(read));
    PassStarts(r.snap.opens, p.last, r.events);
    StartsAppend(p.out, Wire(p, e, order).sent);
    assert (read + [e])[..|read|] == read;
  }

  /** A call that was named has its START, and one that was not has none. */
  lemma {:induction false} StartedWhenNamed(asked: seq<Event>, c: string)
    ensures (exists e :: e in Firsts(asked) && e.ToolStart? && e.call == c) <==> c in CallsIn(asked)
    decreases |asked|
  {
    if asked != [] {
      var pre, e := asked[..|asked| - 1], asked[|asked| - 1];
      StartedWhenNamed(pre, c);
      assert asked == pre + [e];
      FirstsPush(pre, e);
      if x :| x in Firsts(pre) && x.ToolStart? && x.call == c { assert x in Firsts(asked); }
      if e.ToolStart? && e.call == c && c !in CallsIn(pre) { assert e in Firsts(asked); }
    }
  }

  // ---- snapshots ----------------------------------------------------------------------------------------------

  function SignaturesOf(entries: seq<Entry>): seq<string> {
    if entries == [] then []
    else
      var e := entries[|entries| - 1];
      SignaturesOf(entries[..|entries| - 1]) + if e.Values? && e.snapshot.Some? then [e.snapshot.value] else []
  }

  /** Without those that repeat the one before. */
  function Changes(sigs: seq<string>): seq<string> {
    if sigs == [] then []
    else
      var n := |sigs| - 1;
      Changes(sigs[..n]) + if n > 0 && sigs[n - 1] == sigs[n] then [] else [sigs[n]]
  }

  function Latest(sigs: seq<string>): Option<string> { if sigs == [] then None else Some(sigs[|sigs| - 1]) }

  lemma ChangesPush(sigs: seq<string>, sig: string)
    ensures Changes(sigs + [sig]) == Changes(sigs) + if Latest(sigs) == Some(sig) then [] else [sig]
    ensures Latest(sigs + [sig]) == Some(sig)
  {
    assert (sigs + [sig])[..|sigs|] == sigs;
  }

  lemma {:induction false} NoSignatures(trace: seq<Event>)
    requires NoSnapshots(trace)
    ensures Signatures(trace) == []
    decreases |trace|
  {
    if trace != [] {
      NoSnapshotsBefore(trace);
      NoSignatures(trace[..|trace| - 1]);
    }
  }

  lemma {:induction false} SignaturesAppend(x: seq<Event>, y: seq<Event>)
    ensures Signatures(x + y) == Signatures(x) + Signatures(y)
    decreases |y|
  {
    if y == [] {
      assert x + y == x;
    } else {
      var z, e := y[..|y| - 1], y[|y| - 1];
      SignaturesAppend(x, z);
      SignaturesPush(x + z, e);
      assert y == z + [e];
      ConcatAssoc(x, z, [e]);
      ConcatAssoc(Signatures(x), Signatures(z), if e.Snapshot? then [e.signature] else []);
    }
  }

  lemma MessagesSnapshotNothing(s: Snap, m: Message)
    ensures NoSnapshots(MessageBatch(s, m).events)
  {
    if m.Ai? && m.calls == [] { AiTextShape(s, m); }
    else if m.Ai? { AiCallsShape(s, m); }
    else if m.ToolMessage? { OutcomeShape(s, m.call, MessageId(m), m.content); }
  }

  lemma SubagentSnapshotsNothing(s: Snap, task: string, text: string)
    ensures NoSnapshots(SubToken(s, task, text).events) && NoSnapshots(SubThinking(s, task, text).events)
    ensures NoSnapshots(SubTerminal(s, text, task).events)
  {
  }

  lemma SubToolSnapshotsNothing(s: Snap, task: string, call: ToolCall, name: string, raw: string, content: string)
    ensures NoSnapshots(SubCall(s, task, call).events) && NoSnapshots(SubResult(s, task, name, raw, content).events)
  {
    if call.ToolCall? { ToolCallsShape(s, [Namespaced(task, call)], SUBAGENT + task); }
    var id := SubCallId(task, raw, Or(name, "tool"));
    OutcomeShape(s, id, SUBAGENT + task + ":tool-result:" + id, content);
  }

  lemma CloseAllSnapshotsNothing(s: Snap, order: seq<string>)
    ensures NoSnapshots(CloseAll(s, order).events)
  {
    EndsCarryNothing(s.opens);
    CloseCallsCarryNothing(s.args, order);
  }

  lemma OnlyValuesSnapshot(s: Snap, e: Entry, order: seq<string>)
    requires !e.Values?
    ensures NoSnapshots(EntryBatch(s, e, order).events)
  {
    if e.MessagesTuple? { MessagesSnapshotNothing(s, e.message); }
    else if e.ToolCallChunk? { SubToolSnapshotsNothing(s, Or(e.task, "subagent"), e.call, "", "", ""); }
    else if e.ToolResultChunk? {
      SubToolSnapshotsNothing(s, Or(e.task, "subagent"), NotACall, e.name, e.rawCall, e.content);
    }
    else if e.TokenChunk? { SubagentSnapshotsNothing(s, e.task, e.content); }
    else if e.ThinkingChunk? { SubagentSnapshotsNothing(s, e.task, e.thinking); }
    else if e.TaskTerminal? { SubagentSnapshotsNothing(s, e.task, e.name); }
    else if e.EndOfRun? { CloseAllSnapshotsNothing(s, order); }
  }

  /** A snapshot passes unless it repeats the latest; a note after it passes. */
  lemma SnapshotPasses(o: Opens, last: Option<string>, sig: string)
    ensures var p := PassOver(o, last, [Snapshot(sig)]);
      p.last == Some(sig) && Signatures(p.sent) == if last == Some(sig) then [] else [sig]
  {
    assert [Snapshot(sig)][..0] == [];
    if last != Some(sig) { SignaturesPush([], Snapshot(sig)); }
  }

  lemma NotePasses(o: Opens, last: Option<string>, head: seq<Event>, name: string)
    ensures var p, q := PassOver(o, last, head), PassOver(o, last, head + [Custom(name)]);
      q.last == p.last && Signatures(q.sent) == Signatures(p.sent)
  {
    assert (head + [Custom(name)])[..|head|] == head;
    SignaturesPush(PassOver(o, last, head).sent, Custom(name));
  }

  lemma ValuesPass(s: Snap, last: Option<string>, sig: string, artifacts: bool)
    ensures var p := PassOver(s.opens, last, EntryBatch(s, Values(Some(sig), artifacts), []).events);
      p.last == Some(sig) && Signatures(p.sent) == if last == Some(sig) then [] else [sig]
  {
    SnapshotPasses(s.opens, last, sig);
    if artifacts { NotePasses(s.opens, last, [Snapshot(sig)], "deerflow.artifacts"); }
    else { assert [Snapshot(sig)] + [] == [Snapshot(sig)]; }
  }

  lemma OthersPassNone(p: Progress, e: Entry, order: seq<string>)
    requires !(e.Values? && e.snapshot.Some?)
    ensures Wire(p, e, order).last == p.last && Signatures(Wire(p, e, order).sent) == []
  {
    var r := EntryBatch(p.snap, e, order);
    if !e.Values? { OnlyValuesSnapshot(p.snap, e, order); }
    NothingDropped(r.snap.opens, p.last, r.events);
    NoSignatures(r.events);
  }

  lemma AdvanceSnapshots(p: Progress, read: seq<Entry>, e: Entry, order: seq<string>)
    requires Signatures(p.out) == Changes(SignaturesOf(read)) && p.last == Latest(SignaturesOf(read))
    ensures var q, all := Advance(p, e, order), read + [e];
      Signatures(q.out) == Changes(SignaturesOf(all)) && q.last == Latest(SignaturesOf(all))
  {
    assert (read + [e])[..|read|] == read;
    SignaturesAppend(p.out, Wire(p, e, order).sent);
    if e.Values? && e.snapshot.Some? {
      ValuesPass(p.snap, p.last, e.snapshot.value, e.artifacts);
      ChangesPush(SignaturesOf(read), e.snapshot.value);
    } else {
      OthersPassNone(p, e, order);
      assert SignaturesOf(read) + [] == SignaturesOf(read);
    }
  }
}

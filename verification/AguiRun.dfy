/** One bridge entry at a time: the batch each entry becomes, what the caller's replay makes of the
    fields, and what that keeps for every entry. */
module AguiRun {
  import opened Common
  import opened AguiEvents
  import opened ReasoningDelta
  import opened AguiStream
  import opened AguiTranslator
  import opened AguiEntries

  function SnapshotIf(signature: Option<string>): seq<Event> {
    if signature.Some? then [Snapshot(signature.value)] else []
  }

  /** The batch of an entry; `order` is the order in which a closing entry visits the open calls. */
  function EntryBatch(s: Snap, e: Entry, order: seq<string>): Batch {
    match e
    case Heartbeat => Batch(s, Note("deerflow.heartbeat"))
    case Unlisted => Batch(s, [])
    case MessagesTuple(m) => MessageBatch(s, m)
    case Values(signature, artifacts) =>
      Batch(s, SnapshotIf(signature) + if artifacts then Note("deerflow.artifacts") else [])
    case CustomEntry => Batch(s, Note("deerflow.custom"))
    case ToolCallChunk(task, call) => SubCall(s, Or(task, "subagent"), call)
    case ToolResultChunk(task, name, raw, content) => SubResult(s, Or(task, "subagent"), name, raw, content)
    case SubagentStarted(task) => Batch(s, Note("deerflow.subagent.subagent_started"))
    case TokenChunk(task, content) => SubToken(s, task, content)
    case ThinkingChunk(task, thinking) => SubThinking(s, task, thinking)
    case TaskTerminal(name, task) => SubTerminal(s, name, task)
    case TaskProgress(name) => Batch(s, Note(name))
    case EndOfRun => CloseAll(s, order)
  }

  /** `_message_tuple_to_agui`. */
  function MessageBatch(s: Snap, m: Message): Batch {
    match m
    case Ai(_, _, _, _, calls) => if calls != [] then AiCalls(s, m) else AiText(s, m)
    case ToolMessage(id, uuid, call, content) =>
      if call == "" then Batch(s, []) else ToolOutcome(s, call, MessageId(m), content)
    case OtherMessage => Batch(s, [])
  }

  /** `_subagent_tool_call_chunk_to_agui`. */
  function SubCall(s: Snap, task: string, call: ToolCall): Batch {
    if call.NotACall? then Batch(s, []) else ToolCalls(s, [Namespaced(task, call)], SUBAGENT + task)
  }

  /** `_subagent_tool_result_chunk_to_agui`. */
  function SubResult(s: Snap, task: string, name: string, raw: string, content: string): Batch {
    var id := SubCallId(task, raw, Or(name, "tool"));
    ToolOutcome(s, id, SUBAGENT + task + ":tool-result:" + id, content)
  }

  /** The closing entry: every message, then every call, then the usage note. */
  function CloseAll(s: Snap, order: seq<string>): Batch {
    Batch(s.(opens := CLOSED, tools := {}), CloseMessages(s.opens) + CloseCalls(s.args, order) + Note("deerflow.usage"))
  }

  /** The fields after the caller has replayed the batch. The closing entry clears them itself. */
  function After(s: Snap, e: Entry, order: seq<string>): Snap {
    var r := EntryBatch(s, e, order);
    if e.EndOfRun? then r.snap else r.snap.(opens := Replay(r.snap.opens, r.events))
  }

  // ---- from what a helper builds to what the caller has --------------------------------------------

  lemma BuiltFollows(b: Snap, a: Snap, events: seq<Event>)
    requires Built(b, a, events)
    ensures var after := a.(opens := Replay(a.opens, events));
      Ok(after) && Scan(ViewOf(b), events) == ViewOf(after) && after.opens == Replay(b.opens, events)
  {
    HelperAgreesWithReplay(b.opens, a.opens, events);
    ReplayKeepsTyped(b.opens, events);
  }

  lemma NotesAreBuilt(s: Snap, events: seq<Event>)
    requires Ok(s) && forall e :: e in events ==> Neutral(e)
    ensures Built(s, s, events) && Replay(s.opens, events) == s.opens
    decreases |events|
  {
    EmptyBatch(s);
    assert Differences(s.opens, s.opens) == {};
    if events != [] {
      var pre, e := events[..|events| - 1], events[|events| - 1];
      assert forall x :: x in pre ==> x in events;
      NotesAreBuilt(s, pre);
      assert Neutral(e);
      Grow(s, s.args, s.tools, pre, e);
      assert events == pre + [e];
    }
  }

  lemma NoDifference(o: Opens, events: seq<Event>)
    requires Typed(o)
    ensures DiffersAsMentioned(o, o, events)
  {
    assert Differences(o, o) == {};
  }

  lemma SubCallFollows(s: Snap, task: string, call: ToolCall)
    requires Ok(s)
    ensures var r := SubCall(s, task, call);
      Built(s, r.snap, r.events) && Plain(r.events) && r.snap.reasons == s.reasons && r.snap.opens == s.opens
      && Replay(s.opens, r.events) == s.opens
      && r.snap.args == if call.NotACall? then s.args else ArgsOfCalls(s.args, [Namespaced(task, call)])
  {
    EmptyBatch(s);
    var r := SubCall(s, task, call);
    NoDifference(s.opens, r.events);
    if call.ToolCall? {
      ToolCallsFollow(s, s, [Namespaced(task, call)], SUBAGENT + task, []);
      ToolCallsShape(s, [Namespaced(task, call)], SUBAGENT + task);
      assert [] + r.events == r.events;
    }
  }

  lemma ToolsOnlyReplay(o: Opens, events: seq<Event>)
    requires forall e :: e in events ==> e.ToolStart? || e.ToolArgs? || e.ToolEnd? || e.ToolResult? || Neutral(e)
    ensures Replay(o, events) == o
    decreases |events|
  {
    if events != [] {
      assert events[|events| - 1] in events;
      assert forall x :: x in events[..|events| - 1] ==> x in events;
      ToolsOnlyReplay(o, events[..|events| - 1]);
    }
  }

  // ---- every entry --------------------------------------------------------------------------------------

  /** The reasoning text recorded for one id after an entry. */
  function ReasonAfter(reasons: map<string, string>, e: Entry, rid: string): string {
    if Reasons(e, rid) then Recorded(Get(reasons, rid), e.message.reasoning) else Get(reasons, rid)
  }

  /** What one entry must do to the fields and to the stream. */
  ghost predicate Keeps(s: Snap, e: Entry, events: seq<Event>, after: Snap) {
    && Ok(after)
    && after.args == ArgsAfter(s.args, e)
    && ArgsFrom(s.args, events)
    && ReasonsGrow(s.reasons, after.reasons, events)
    && (forall id :: Get(after.reasons, id) == ReasonAfter(s.reasons, e, id))
    && (Collides(s.opens.subText, e) ==> Scan(ViewOf(s), events) == Broken)
    && (!Collides(s.opens.subText, e) ==>
          Scan(ViewOf(s), events) == ViewOf(after) && after.opens.subText == SubOpenAfter(s.opens.subText, e))
  }

  ghost predicate EntryKeeps(s: Snap, e: Entry, order: seq<string>) {
    Keeps(s, e, EntryBatch(s, e, order).events, After(s, e, order))
  }

  /** The fields after the caller's pass over what a helper built. */
  function Replayed(b: Batch): Snap { b.snap.(opens := Replay(b.snap.opens, b.events)) }

  ghost predicate Records(s: Snap, e: Entry, b: Batch) {
    && b.snap.args == ArgsAfter(s.args, e)
    && ReasonsGrow(s.reasons, b.snap.reasons, b.events)
    && (forall id :: Get(b.snap.reasons, id) == ReasonAfter(s.reasons, e, id))
  }

  lemma BuiltKeeps(s: Snap, e: Entry, b: Batch)
    requires Built(s, b.snap, b.events) && Records(s, e, b) && !Collides(s.opens.subText, e)
    requires Replay(s.opens, b.events).subText == SubOpenAfter(s.opens.subText, e)
    ensures Keeps(s, e, b.events, Replayed(b))
  {
    BuiltFollows(s, b.snap, b.events);
  }

  lemma BrokenKeeps(s: Snap, e: Entry, b: Batch)
    requires BuiltBroken(s, b.snap, b.events) && Records(s, e, b) && Collides(s.opens.subText, e)
    ensures Keeps(s, e, b.events, Replayed(b))
  {
    ReplayKeepsTyped(b.snap.opens, b.events);
  }

  /** A batch a helper built without touching reasoning text. */
  lemma PlainKeeps(s: Snap, e: Entry, b: Batch)
    requires Built(s, b.snap, b.events) && Plain(b.events) && !Collides(s.opens.subText, e)
    requires b.snap.reasons == s.reasons && b.snap.args == ArgsAfter(s.args, e) && forall id :: !Reasons(e, id)
    requires Replay(s.opens, b.events).subText == SubOpenAfter(s.opens.subText, e)
    ensures Keeps(s, e, b.events, Replayed(b))
  {
    PlainGrowsNothing(s.reasons, b.events);
    BuiltKeeps(s, e, b);
  }

  lemma CallMessageKeeps(s: Snap, m: Message)
    requires Ok(s) && m.Ai? && m.calls != []
    ensures Keeps(s, MessagesTuple(m), AiCalls(s, m).events, Replayed(AiCalls(s, m)))
  {
    AiCallsFollow(s, m);
    PlainKeeps(s, MessagesTuple(m), AiCalls(s, m));
  }

  lemma OutcomeShape(s: Snap, call: string, message: string, content: string)
    ensures forall e :: e in ToolOutcome(s, call, message, content).events ==>
        e.ToolArgs? || e.ToolEnd? || e.ToolResult?
  {
  }

  lemma ToolOutcomeKeeps(s: Snap, e: Entry, call: string, message: string, content: string)
    requires Ok(s) && (e.ToolResultChunk? || (e.MessagesTuple? && e.message.ToolMessage?))
    ensures var r := ToolOutcome(s, call, message, content); Keeps(s, e, r.events, Replayed(r))
  {
    var r := ToolOutcome(s, call, message, content);
    ToolOutcomeFollows(s, call, message, content);
    OutcomeShape(s, call, message, content);
    ToolsOnlyReplay(s.opens, r.events);
    PlainKeeps(s, e, r);
  }

  lemma ThinkRecords(s: Snap, m: Message, id: string)
    requires m.Ai? && m.calls == []
    ensures Get(Think(s, ReasoningId(MessageId(m)), m.reasoning).snap.reasons, id) ==
            ReasonAfter(s.reasons, MessagesTuple(m), id)
  {
  }

  lemma AiTextKeepsThoughts(s: Snap, m: Message)
    requires m.Ai?
    ensures AiText(s, m).snap.reasons == Think(s, ReasoningId(MessageId(m)), m.reasoning).snap.reasons
  {
  }

  lemma AiTextArgs(s: Snap, m: Message)
    requires m.Ai? && m.calls == []
    ensures AiText(s, m).snap.args == ArgsAfter(s.args, MessagesTuple(m))
  {
    AiTextShape(s, m);
  }

  lemma AiTextThoughts(s: Snap, m: Message, id: string)
    requires m.Ai? && m.calls == []
    ensures Get(AiText(s, m).snap.reasons, id) == ReasonAfter(s.reasons, MessagesTuple(m), id)
  {
    AiTextKeepsThoughts(s, m);
    ThinkRecords(s, m, id);
  }

  lemma AiTextRecords(s: Snap, m: Message)
    requires m.Ai? && m.calls == []
    ensures Records(s, MessagesTuple(m), AiText(s, m))
  {
    AiTextReasons(s, m);
    AiTextArgs(s, m);
    forall id ensures Get(AiText(s, m).snap.reasons, id) == ReasonAfter(s.reasons, MessagesTuple(m), id) {
      AiTextThoughts(s, m, id);
    }
  }

  lemma TextMessageKeeps(s: Snap, m: Message)
    requires Ok(s) && m.Ai? && m.calls == []
    ensures Keeps(s, MessagesTuple(m), AiText(s, m).events, Replayed(AiText(s, m)))
  {
    AiTextFollows(s, m);
    AiTextRecords(s, m);
    if Collides(s.opens.subText, MessagesTuple(m)) {
      BrokenKeeps(s, MessagesTuple(m), AiText(s, m));
    } else {
      BuiltKeeps(s, MessagesTuple(m), AiText(s, m));
    }
  }

  lemma SilenceKeeps(s: Snap, e: Entry)
    requires Ok(s) && !Collides(s.opens.subText, e) && (forall id :: !Reasons(e, id))
    requires ArgsAfter(s.args, e) == s.args && SubOpenAfter(s.opens.subText, e) == s.opens.subText
    ensures Keeps(s, e, [], Replayed(Batch(s, [])))
  {
    NotesAreBuilt(s, []);
    PlainKeeps(s, e, Batch(s, []));
  }

  lemma MessageKeeps(s: Snap, m: Message)
    requires Ok(s)
    ensures Keeps(s, MessagesTuple(m), MessageBatch(s, m).events, Replayed(MessageBatch(s, m)))
  {
    match m {
      case Ai(_, _, _, _, calls) => if calls != [] { CallMessageKeeps(s, m); } else { TextMessageKeeps(s, m); }
      case ToolMessage(_, _, call, content) =>
        if call != "" { ToolOutcomeKeeps(s, MessagesTuple(m), call, MessageId(m), content); }
        else { SilenceKeeps(s, MessagesTuple(m)); }
      case OtherMessage => SilenceKeeps(s, MessagesTuple(m));
    }
  }

  lemma SubCallKeeps(s: Snap, task: string, call: ToolCall)
    requires Ok(s)
    ensures var r := SubCall(s, Or(task, "subagent"), call); Keeps(s, ToolCallChunk(task, call), r.events, Replayed(r))
  {
    SubCallFollows(s, Or(task, "subagent"), call);
    PlainKeeps(s, ToolCallChunk(task, call), SubCall(s, Or(task, "subagent"), call));
  }

  /** Message events and notes without main reasoning: built, and mirrored by the helper. */
  lemma SubagentKeeps(s: Snap, e: Entry, r: Batch)
    requires Building(s, s.args, s.tools, r.events) && MessagesOnly(r.events) && Plain(r.events)
    requires r.snap == s.(opens := r.snap.opens)
    requires r.snap.opens == s.opens || Replay(s.opens, r.events) == r.snap.opens
    requires r.snap.opens.text == s.opens.text
    requires e.TokenChunk? || e.ThinkingChunk? || e.TaskTerminal?
    requires Replay(s.opens, r.events).subText == SubOpenAfter(s.opens.subText, e)
    ensures Keeps(s, e, r.events, Replayed(r))
  {
    if r.snap.opens == s.opens { NoDifference(s.opens, r.events); } else { MirrorsMention(s.opens, r.events); }
    PlainKeeps(s, e, r);
  }

  lemma SubagentIsPlain(s: Snap, task: string, text: string)
    ensures Plain(SubToken(s, task, text).events) && Plain(SubThinking(s, task, text).events)
    ensures Plain(SubTerminal(s, text, task).events)
  {
    SubIdsAreSub(task);
  }

  lemma TokenKeeps(s: Snap, task: string, content: string)
    requires Ok(s)
    ensures var r := SubToken(s, task, content); Keeps(s, TokenChunk(task, content), r.events, Replayed(r))
  {
    SubTokenFollows(s, task, content);
    SubagentIsPlain(s, task, content);
    SubagentKeeps(s, TokenChunk(task, content), SubToken(s, task, content));
  }

  lemma ThinkingKeeps(s: Snap, task: string, thinking: string)
    requires Ok(s)
    ensures var r := SubThinking(s, task, thinking); Keeps(s, ThinkingChunk(task, thinking), r.events, Replayed(r))
  {
    SubThinkingFollows(s, task, thinking);
    SubagentIsPlain(s, task, thinking);
    SubagentKeeps(s, ThinkingChunk(task, thinking), SubThinking(s, task, thinking));
  }

  lemma TerminalKeeps(s: Snap, name: string, task: string)
    requires Ok(s)
    ensures var r := SubTerminal(s, name, task); Keeps(s, TaskTerminal(name, task), r.events, Replayed(r))
  {
    SubTerminalFollows(s, name, task);
    SubagentIsPlain(s, task, name);
    SubagentKeeps(s, TaskTerminal(name, task), SubTerminal(s, name, task));
  }

  lemma {:induction false} EndsArePlain(k: Kind, ids: seq<string>)
    ensures forall e :: e in Ends(k, ids) ==> e.End?
  {
    if ids != [] { EndsArePlain(k, ids[..|ids| - 1]); }
  }

  lemma CloseMessagesArePlain(o: Opens)
    ensures forall e :: e in CloseMessages(o) ==> e.End?
  {
    EndsArePlain(Reasoning, SortedIds(o.reasoning));
    EndsArePlain(Reasoning, SortedIds(o.subReasoning));
    EndsArePlain(Text, SortedIds(o.subText));
  }

  lemma {:induction false} CloseCallsShape(args: map<string, string>, order: seq<string>)
    ensures forall e :: e in CloseCalls(args, order) ==> e.ToolArgs? || e.ToolEnd?
    decreases |order|
  {
    if order != [] { CloseCallsShape(args, order[..|order| - 1]); }
  }

  lemma {:induction false} CloseCallsSend(args: map<string, string>, order: seq<string>)
    requires forall c :: c in order ==> c in args
    ensures ArgsFrom(args, CloseCalls(args, order))
    decreases |order|
  {
    if order != [] {
      var pre, c := order[..|order| - 1], order[|order| - 1];
      assert c in order && forall x :: x in pre ==> x in order;
      CloseCallsSend(args, pre);
    }
  }

  lemma ClosingScans(s: Snap, order: seq<string>)
    requires Ok(s) && Lists(order, s.tools)
    ensures Building(s, s.args, {}, CloseMessages(s.opens) + CloseCalls(s.args, order))
    ensures Replay(s.opens, CloseMessages(s.opens) + CloseCalls(s.args, order)) == CLOSED
  {
    EmptyBatch(s);
    CloseMessagesFollow(s, s.args, s.tools, []);
    var messages := CloseMessages(s.opens);
    assert [] + messages == messages;
    CloseCallsFollow(s, s.args, s.tools, messages, order);
    assert s.tools - (set c | c in order) == {};
  }

  lemma {:induction false} CloseCallsPlain(args: map<string, string>, order: seq<string>, s: Snap)
    requires Ok(s) && args == s.args && Lists(order, s.tools)
    ensures ArgsFrom(args, CloseCalls(args, order)) && Plain(CloseCalls(args, order))
  {
    CloseCallsShape(args, order);
    CloseCallsSend(args, order);
  }

  lemma SendsTogether(args: map<string, string>, x: seq<Event>, y: seq<Event>)
    requires ArgsFrom(args, x) && ArgsFrom(args, y) && Plain(x) && Plain(y)
    ensures ArgsFrom(args, x + y) && Plain(x + y)
  {
  }

  lemma ClosingSends(s: Snap, order: seq<string>)
    requires Ok(s) && Lists(order, s.tools)
    ensures var r := CloseAll(s, order); Plain(r.events) && ArgsFrom(s.args, r.events)
  {
    CloseMessagesArePlain(s.opens);
    CloseCallsPlain(s.args, order, s);
    SendsTogether(s.args, CloseMessages(s.opens), CloseCalls(s.args, order));
    SendsTogether(s.args, CloseMessages(s.opens) + CloseCalls(s.args, order), Note("deerflow.usage"));
  }

  lemma CloseAllScans(s: Snap, order: seq<string>)
    requires Ok(s) && Lists(order, s.tools)
    ensures var r := CloseAll(s, order); Scan(ViewOf(s), r.events) == ViewOf(r.snap)
  {
    ClosingScans(s, order);
    Grow(s, s.args, {}, CloseMessages(s.opens) + CloseCalls(s.args, order), Custom("deerflow.usage"));
  }

  /** The closing entry leaves nothing to replay. */
  lemma CloseKeeps(s: Snap, events: seq<Event>, after: Snap)
    requires Ok(after) && after == s.(opens := CLOSED, tools := {})
    requires ArgsFrom(s.args, events) && Plain(events) && Scan(ViewOf(s), events) == ViewOf(after)
    ensures Keeps(s, EndOfRun, events, after)
  {
    PlainGrowsNothing(s.reasons, events);
  }

  lemma CloseAllKeeps(s: Snap, order: seq<string>)
    requires Ok(s) && Lists(order, s.tools)
    ensures Keeps(s, EndOfRun, CloseAll(s, order).events, CloseAll(s, order).snap)
  {
    CloseAllScans(s, order);
    ClosingSends(s, order);
    CloseKeeps(s, CloseAll(s, order).events, CloseAll(s, order).snap);
  }

  lemma NotesAreNeutral(s: Snap, e: Entry, order: seq<string>)
    requires e.Heartbeat? || e.Unlisted? || e.Values? || e.CustomEntry? || e.SubagentStarted? || e.TaskProgress?
    ensures EntryBatch(s, e, order).snap == s && forall x :: x in EntryBatch(s, e, order).events ==> Neutral(x)
  {
  }

  lemma NeutralKeeps(s: Snap, e: Entry, r: Batch)
    requires Ok(s) && r.snap == s && forall x :: x in r.events ==> Neutral(x)
    requires e.Heartbeat? || e.Unlisted? || e.Values? || e.CustomEntry? || e.SubagentStarted? || e.TaskProgress?
    ensures Keeps(s, e, r.events, Replayed(r))
  {
    NotesAreBuilt(s, r.events);
    PlainKeeps(s, e, r);
  }

  lemma NotesKeep(s: Snap, e: Entry, order: seq<string>)
    requires Ok(s)
    requires e.Heartbeat? || e.Unlisted? || e.Values? || e.CustomEntry? || e.SubagentStarted? || e.TaskProgress?
    ensures EntryKeeps(s, e, order)
  {
    NotesAreNeutral(s, e, order);
    NeutralKeeps(s, e, EntryBatch(s, e, order));
  }

  /** Every entry, from every state: the stream stays well bracketed and the fields stay in step
      with it, unless a main text chunk reuses the id of an open subagent message. */
  lemma EveryEntryKeeps(s: Snap, e: Entry, order: seq<string>)
    requires Ok(s) && Lists(order, s.tools)
    ensures EntryKeeps(s, e, order)
  {
    if e.MessagesTuple? { MessageKeeps(s, e.message); }
    else if e.ToolCallChunk? { SubCallKeeps(s, e.task, e.call); }
    else if e.ToolResultChunk? {
      var t := Or(e.task, "subagent");
      var id := SubCallId(t, e.rawCall, Or(e.name, "tool"));
      ToolOutcomeKeeps(s, e, id, SUBAGENT + t + ":tool-result:" + id, e.content);
    }
    else if e.TokenChunk? { TokenKeeps(s, e.task, e.content); }
    else if e.ThinkingChunk? { ThinkingKeeps(s, e.task, e.thinking); }
    else if e.TaskTerminal? { TerminalKeeps(s, e.name, e.task); }
    else if e.EndOfRun? { CloseAllKeeps(s, order); }
    else { NotesKeep(s, e, order); }
  }

  /** No batch begins or ends the run. */
  ghost predicate Inner(events: seq<Event>) {
    forall e :: e in events ==> !e.RunStarted? && !Terminal(e)
  }

  lemma {:induction false} ToolCallsInner(s: Snap, calls: seq<ToolCall>, parent: string)
    ensures Inner(ToolCalls(s, calls, parent).events)
    decreases |calls|
  {
    if calls != [] { ToolCallsInner(s, calls[..|calls| - 1], parent); }
  }

  lemma InnerTogether(x: seq<Event>, y: seq<Event>)
    requires Inner(x) && Inner(y)
    ensures Inner(x + y)
  {
  }

  lemma CallMessageInner(s: Snap, m: Message)
    requires m.Ai?
    ensures Inner(AiCalls(s, m).events)
  {
    var rid := ReasoningId(MessageId(m));
    var closed := s.(opens := s.opens.(reasoning := s.opens.reasoning - {rid}));
    ToolCallsInner(closed, m.calls, MessageId(m));
    InnerTogether(EndIf(rid in s.opens.reasoning, Reasoning, rid), EndText(s.opens));
    InnerTogether(EndIf(rid in s.opens.reasoning, Reasoning, rid) + EndText(s.opens),
      ToolCalls(closed, m.calls, MessageId(m)).events);
  }

  lemma MessageInner(s: Snap, m: Message)
    ensures Inner(MessageBatch(s, m).events)
  {
    match m {
      case Ai(_, _, _, _, _) =>
        CallMessageInner(s, m);
        AiTextShape(s, m);
      case ToolMessage(_, _, call, content) => OutcomeShape(s, call, MessageId(m), content);
      case OtherMessage =>
    }
  }

  lemma SubagentInner(s: Snap, task: string, text: string)
    ensures Inner(SubToken(s, task, text).events)
    ensures Inner(SubThinking(s, task, text).events)
    ensures Inner(SubTerminal(s, text, task).events)
  {
  }

  lemma SubToolInner(s: Snap, task: string, call: ToolCall, name: string, raw: string, content: string)
    ensures Inner(SubCall(s, task, call).events)
    ensures Inner(SubResult(s, task, name, raw, content).events)
  {
    if call.ToolCall? { ToolCallsInner(s, [Namespaced(task, call)], SUBAGENT + task); }
  }

  lemma CloseAllInner(s: Snap, order: seq<string>)
    ensures Inner(CloseAll(s, order).events)
  {
    CloseMessagesArePlain(s.opens);
    CloseCallsShape(s.args, order);
    InnerTogether(CloseMessages(s.opens), CloseCalls(s.args, order));
    InnerTogether(CloseMessages(s.opens) + CloseCalls(s.args, order), Note("deerflow.usage"));
  }

  lemma EveryBatchIsInner(s: Snap, e: Entry, order: seq<string>)
    ensures Inner(EntryBatch(s, e, order).events)
  {
    if e.MessagesTuple? { MessageInner(s, e.message); }
    else if e.ToolCallChunk? { SubToolInner(s, Or(e.task, "subagent"), e.call, "", "", ""); }
    else if e.ToolResultChunk? { SubToolInner(s, Or(e.task, "subagent"), NotACall, e.name, e.rawCall, e.content); }
    else if e.TokenChunk? { SubagentInner(s, e.task, e.content); }
    else if e.ThinkingChunk? { SubagentInner(s, e.task, e.thinking); }
    else if e.TaskTerminal? { SubagentInner(s, e.task, e.name); }
    else if e.EndOfRun? { CloseAllInner(s, order); }
  }
}

/** The AG-UI translator of /chat/agui (app/routers/chat.py): bridge entries in, bracketed
    events out. Open ids live in fields that the helpers change while building a batch and
    that the caller changes again while replaying the batch. */
module AguiStream {
  import opened Common
  import opened AguiEvents
  import opened ReasoningDelta

  const SUBAGENT := "subagent:"

  predicate Sub(id: string) { StartsWith(id, SUBAGENT) }

  /** A generated id: never empty and never in the subagent namespace. */
  type Uuid = s: string | s != "" && !Sub(s) witness "u"

  lemma SubPrefix(rest: string)
    ensures Sub(SUBAGENT + rest)
  {
    assert (SUBAGENT + rest)[..|SUBAGENT|] == SUBAGENT;
  }

  // ---- bridge entries ----------------------------------------------------------------

  /** One element of a message's `tool_calls`; `args` is its arguments rendered as JSON. */
  datatype ToolCall = NotACall | ToolCall(id: string, name: string, args: string, uuid: Uuid)

  /** A messages-mode chunk; absent or non-text fields are "". */
  datatype Message =
    | Ai(id: string, uuid: Uuid, content: string, reasoning: string, calls: seq<ToolCall>)
    | ToolMessage(id: string, uuid: Uuid, call: string, content: string)
    | OtherMessage

  datatype Entry =
    | Heartbeat
    | Unlisted                                  // an event name the endpoint does not forward
    | MessagesTuple(message: Message)
    | Values(snapshot: Option<string>, artifacts: bool)
    | CustomEntry
    | ToolCallChunk(task: string, call: ToolCall)
    | ToolResultChunk(task: string, name: string, rawCall: string, content: string)
    | SubagentStarted(task: string)
    | TokenChunk(task: string, content: string)
    | ThinkingChunk(task: string, thinking: string)
    | TaskTerminal(name: string, task: string)  // completed, failed, cancelled, timed out, limit reached
    | TaskProgress(name: string)                // started, running, turn complete
    | EndOfRun

  function Or(value: string, fallback: string): string { if value != "" then value else fallback }

  function MessageId(m: Message): string
    requires m.Ai? || m.ToolMessage?
  {
    Or(m.id, m.uuid)
  }

  function ReasoningId(message: string): string { "reasoning_" + message }
  function SubText(task: string): string { SUBAGENT + (task + ":message") }
  function SubReasoning(task: string): string { SUBAGENT + (task + ":reasoning") }

  /** `_subagent_tool_call_id`: namespaced once. */
  function SubCallId(task: string, raw: string, hint: string): string {
    var id := Or(raw, hint);
    if StartsWith(id, SUBAGENT + task + ":") then id else SUBAGENT + task + ":" + id
  }

  function Namespaced(task: string, c: ToolCall): ToolCall
    requires c.ToolCall?
  {
    c.(id := SubCallId(task, c.id, Or(c.name, "tool")))
  }

  function CallId(c: ToolCall): string
    requires c.ToolCall?
  {
    Or(c.id, c.uuid)
  }

  // ---- what the entries alone determine -------------------------------------------------

  /** The latest arguments of every tool call named so far. */
  function ArgsOfCalls(args: map<string, string>, calls: seq<ToolCall>): map<string, string>
    decreases |calls|
  {
    if calls == [] then args
    else
      var before := ArgsOfCalls(args, calls[..|calls| - 1]);
      var c := calls[|calls| - 1];
      if c.NotACall? then before else before[CallId(c) := c.args]
  }

  function ArgsAfter(args: map<string, string>, e: Entry): map<string, string> {
    match e
    case MessagesTuple(Ai(_, _, _, _, calls)) => ArgsOfCalls(args, calls)
    case ToolCallChunk(task, call) =>
      if call.NotACall? then args else ArgsOfCalls(args, [Namespaced(Or(task, "subagent"), call)])
    case _ => args
  }

  function ArgsSeen(entries: seq<Entry>): map<string, string> {
    if entries == [] then map[] else ArgsAfter(ArgsSeen(entries[..|entries| - 1]), entries[|entries| - 1])
  }

  /** The reasoning texts a provider has sent for one reasoning message, in order. */
  function ReasonChunks(entries: seq<Entry>, rid: string): seq<string> {
    if entries == [] then []
    else
      var e := entries[|entries| - 1];
      ReasonChunks(entries[..|entries| - 1], rid) + (if Reasons(e, rid) then [e.message.reasoning] else [])
  }

  predicate Reasons(e: Entry, rid: string) {
    && e.MessagesTuple? && e.message.Ai? && e.message.calls == [] && e.message.reasoning != ""
    && ReasoningId(MessageId(e.message)) == rid
  }

  /** A main-agent chunk that carries text. */
  predicate MainText(e: Entry) {
    e.MessagesTuple? && e.message.Ai? && e.message.calls == [] && e.message.content != ""
  }

  /** The subagent text messages left open, including main text that strayed into the namespace. */
  function SubOpenAfter(open: set<string>, e: Entry): set<string> {
    match e
    case TokenChunk(task, content) => if task != "" && content != "" then open + {SubText(task)} else open
    case TaskTerminal(_, task) => if task != "" then open - {SubText(task)} else open
    case EndOfRun => {}
    case MessagesTuple(m) => if MainText(e) && Sub(MessageId(m)) then open + {MessageId(m)} else open
    case _ => open
  }

  function SubOpen(entries: seq<Entry>): set<string> {
    if entries == [] then {} else SubOpenAfter(SubOpen(entries[..|entries| - 1]), entries[|entries| - 1])
  }

  /** A main text chunk whose own id is already open as a subagent message. */
  predicate Collides(open: set<string>, e: Entry) {
    MainText(e) && MessageId(e.message) in open
  }

  ghost predicate SomeCollision(entries: seq<Entry>) {
    exists i :: 0 <= i < |entries| && Collides(SubOpen(entries[..i]), entries[i])
  }

  lemma SubOpenIsSub(entries: seq<Entry>)
    ensures forall id :: id in SubOpen(entries) ==> Sub(id)
  {
    if entries != [] {
      var e := entries[|entries| - 1];
      SubOpenIsSub(entries[..|entries| - 1]);
      if e.TokenChunk? { SubPrefix(e.task + ":message"); }
    }
  }

  /** The assumption that makes collisions impossible. */
  lemma OrdinaryIdsNeverCollide(entries: seq<Entry>)
    requires forall e :: e in entries && MainText(e) ==> !Sub(e.message.id)
    ensures !SomeCollision(entries)
  {
    forall i | 0 <= i < |entries| ensures !Collides(SubOpen(entries[..i]), entries[i]) {
      SubOpenIsSub(entries[..i]);
    }
  }

  /** Without it a collision can happen: a main message whose id is a subagent's message id. */
  lemma StrayIdCollides(task: string, text: string, uuid: Uuid)
    requires task != "" && text != ""
    ensures SomeCollision([TokenChunk(task, text), MessagesTuple(Ai(SubText(task), uuid, text, "", []))])
  {
    var entries := [TokenChunk(task, text), MessagesTuple(Ai(SubText(task), uuid, text, "", []))];
    SubPrefix(task + ":message");
    assert entries[..1] == [entries[0]] && [entries[0]][..0] == [];
    assert Collides(SubOpen(entries[..1]), entries[1]);
  }

  // ---- the caller's replay of a batch ------------------------------------------------------

  /** The open-message fields the caller maintains. */
  datatype Opens = Opens(text: Option<string>, subText: set<string>, reasoning: set<string>, subReasoning: set<string>)

  function ReplayOne(o: Opens, e: Event): Opens {
    match e
    case Start(Text, id) => if Sub(id) then o.(subText := o.subText + {id}) else o.(text := Some(id))
    case End(Text, id) => if Sub(id) then o.(subText := o.subText - {id}) else o.(text := None)
    case Start(Reasoning, id) =>
      if Sub(id) then o.(subReasoning := o.subReasoning + {id}) else o.(reasoning := o.reasoning + {id})
    case End(Reasoning, id) =>
      if Sub(id) then o.(subReasoning := o.subReasoning - {id}) else o.(reasoning := o.reasoning - {id})
    case _ => o
  }

  function Replay(o: Opens, events: seq<Event>): Opens {
    if events == [] then o else ReplayOne(Replay(o, events[..|events| - 1]), events[|events| - 1])
  }

  ghost predicate Mentioned(events: seq<Event>, k: Kind, id: string) {
    Start(k, id) in events || End(k, id) in events
  }

  /** The sets a helper leaves may differ from those it found only in ids its own batch mentions. */
  ghost predicate DiffersAsMentioned(o: Opens, h: Opens, events: seq<Event>) {
    && o.text == h.text && Typed(o) && Typed(h)
    && forall d :: d in Differences(o, h) ==> Mentioned(events, d.0, d.1)
  }

  /** Main ids stay out of the subagent sets, and the other way round. */
  predicate Typed(o: Opens) {
    && (o.text.Some? ==> !Sub(o.text.value))
    && (forall id :: id in o.subText ==> Sub(id))
    && (forall id :: id in o.reasoning ==> !Sub(id))
    && (forall id :: id in o.subReasoning ==> Sub(id))
  }

  lemma {:induction false} ReplayKeepsTyped(o: Opens, events: seq<Event>)
    requires Typed(o)
    ensures Typed(Replay(o, events))
  {
    if events != [] { ReplayKeepsTyped(o, events[..|events| - 1]); }
  }

  /** Where two versions of the open sets differ. */
  ghost function Differences(o: Opens, h: Opens): set<(Kind, string)> {
    (set id | id in (o.subText - h.subText) + (h.subText - o.subText) :: (Text, id))
    + (set id | id in (o.reasoning - h.reasoning) + (h.reasoning - o.reasoning) :: (Reasoning, id))
    + (set id | id in (o.subReasoning - h.subReasoning) + (h.subReasoning - o.subReasoning) :: (Reasoning, id))
  }

  lemma ReplayOneForgets(o: Opens, h: Opens, e: Event, d: (Kind, string))
    requires o.text == h.text && Typed(o) && Typed(h)
    requires d in Differences(ReplayOne(o, e), ReplayOne(h, e))
    ensures d in Differences(o, h) && e != Start(d.0, d.1) && e != End(d.0, d.1)
  {
  }

  lemma {:induction false} ReplayForgets(o: Opens, h: Opens, events: seq<Event>)
    requires o.text == h.text && Typed(o) && Typed(h)
    ensures Replay(o, events).text == Replay(h, events).text
    ensures forall d :: d in Differences(Replay(o, events), Replay(h, events)) ==>
              d in Differences(o, h) && !Mentioned(events, d.0, d.1)
    decreases |events|
  {
    if events != [] {
      var pre, e := events[..|events| - 1], events[|events| - 1];
      ReplayForgets(o, h, pre);
      ReplayKeepsTyped(o, pre);
      ReplayKeepsTyped(h, pre);
      assert forall x :: x in events ==> x in pre || x == e;
      forall d | d in Differences(Replay(o, events), Replay(h, events))
        ensures d in Differences(o, h) && !Mentioned(events, d.0, d.1)
      {
        ReplayOneForgets(Replay(o, pre), Replay(h, pre), e, d);
      }
    }
  }

  /** The helpers' own updates and the caller's replay agree: replaying from either the fields as
      found or the fields as the helper left them gives the same open sets. */
  lemma HelperAgreesWithReplay(o: Opens, h: Opens, events: seq<Event>)
    requires DiffersAsMentioned(o, h, events)
    ensures Replay(o, events) == Replay(h, events)
  {
    ReplayForgets(o, h, events);
    var x, y := Replay(o, events), Replay(h, events);
    assert Differences(x, y) == {};
    forall id ensures (id in x.subText <==> id in y.subText) && (id in x.reasoning <==> id in y.reasoning)
                   && (id in x.subReasoning <==> id in y.subReasoning) {
      assert (Text, id) !in Differences(x, y) && (Reasoning, id) !in Differences(x, y);
    }
    assert x.subText == y.subText && x.reasoning == y.reasoning && x.subReasoning == y.subReasoning;
  }

  // ---- the fields as a checker state ---------------------------------------------------------

  ghost function OpenIds(o: Opens): set<(Kind, string)> {
    (if o.text.Some? then {(Text, o.text.value)} else {})
    + (set id | id in o.subText :: (Text, id))
    + (set id | id in o.reasoning :: (Reasoning, id))
    + (set id | id in o.subReasoning :: (Reasoning, id))
  }

  ghost function ToolView(args: map<string, string>, open: set<string>): map<string, ToolPhase> {
    map c | c in args :: if c in open then Called else Closed
  }

  ghost function View(o: Opens, args: map<string, string>, open: set<string>): Brackets {
    Brackets(Streaming, OpenIds(o), ToolView(args, open))
  }

  /** A batch under construction: the checker accepts it from `b`, and ends where replaying ends. */
  ghost predicate Tracks(b: Brackets, o: Opens, tools: map<string, ToolPhase>, events: seq<Event>) {
    && Typed(o)
    && Scan(b, events) == Brackets(Streaming, OpenIds(Replay(o, events)), tools)
  }

  lemma ReplayPush(o: Opens, events: seq<Event>, e: Event)
    ensures Replay(o, events + [e]) == ReplayOne(Replay(o, events), e)
  {
    assert (events + [e])[..|events|] == events;
  }

  predicate Neutral(e: Event) { e.Custom? || e.Snapshot? }

  /** When the next message event fits the fields. */
  predicate Fits(o: Opens, e: Event) {
    match e
    case Start(Text, id) => if Sub(id) then id !in o.subText else o.text.None?
    case Start(Reasoning, id) => id !in o.reasoning && id !in o.subReasoning
    case End(Text, id) => if Sub(id) then id in o.subText else o.text == Some(id)
    case End(Reasoning, id) => if Sub(id) then id in o.subReasoning else id in o.reasoning
    case Content(Text, id, _) => o.text == Some(id) || id in o.subText
    case Content(Reasoning, id, _) => id in o.reasoning || id in o.subReasoning
    case _ => Neutral(e)
  }

  lemma StepMatches(o: Opens, tools: map<string, ToolPhase>, e: Event)
    requires Typed(o) && Fits(o, e)
    ensures Next(Brackets(Streaming, OpenIds(o), tools), e) == Brackets(Streaming, OpenIds(ReplayOne(o, e)), tools)
  {
    assert OpenIds(ReplayOne(o, e)) ==
      if e.Start? then OpenIds(o) + {(e.kind, e.id)}
      else if e.End? then OpenIds(o) - {(e.kind, e.id)}
      else OpenIds(o);
  }

  lemma Push(b: Brackets, o: Opens, tools: map<string, ToolPhase>, events: seq<Event>, e: Event)
    requires Tracks(b, o, tools, events) && Fits(Replay(o, events), e)
    ensures Tracks(b, o, tools, events + [e])
    ensures Replay(o, events + [e]) == ReplayOne(Replay(o, events), e)
  {
    ReplayKeepsTyped(o, events);
    ScanPush(b, events, e);
    ReplayPush(o, events, e);
    StepMatches(Replay(o, events), tools, e);
  }

  /** A tool event moves only the tool phases. */
  lemma PushTool(b: Brackets, o: Opens, tools: map<string, ToolPhase>, after: map<string, ToolPhase>,
                 events: seq<Event>, e: Event)
    requires Tracks(b, o, tools, events)
    requires e.ToolStart? || e.ToolArgs? || e.ToolEnd? || e.ToolResult?
    requires Next(Brackets(Streaming, {}, tools), e) == Brackets(Streaming, {}, after)
    ensures Tracks(b, o, after, events + [e])
    ensures Replay(o, events + [e]) == Replay(o, events)
  {
    ScanPush(b, events, e);
    ReplayPush(o, events, e);
    ToolsApart(OpenIds(Replay(o, events)), tools, after, e);
  }

  lemma ToolsApart(open: set<(Kind, string)>, tools: map<string, ToolPhase>, after: map<string, ToolPhase>, e: Event)
    requires e.ToolStart? || e.ToolArgs? || e.ToolEnd? || e.ToolResult?
    requires Next(Brackets(Streaming, {}, tools), e) == Brackets(Streaming, {}, after)
    ensures Next(Brackets(Streaming, open, tools), e) == Brackets(Streaming, open, after)
  {
  }
}

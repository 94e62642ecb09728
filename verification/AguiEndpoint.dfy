/** One /chat/agui response as the program runs it: the open-id fields, the helpers that change
    them in place, and the generator. Every helper is tied to its function in AguiTranslator,
    AguiEntries or AguiRun; the generator's promises follow from the lemmas there. */
module AguiEndpoint {
  import opened Common
  import opened AguiEvents
  import opened ReasoningDelta
  import opened AguiStream
  import opened AguiTranslator
  import opened AguiEntries
  import opened AguiRun
  import opened AguiService
  import opened AguiCore
  import opened AguiContent
  import opened AguiBrackets

  /** A set's ids in some order, as list() of a set has them. */
  method ListIds(ids: set<string>) returns (order: seq<string>)
    ensures Lists(order, ids)
  {
    order := [];
    var rest := ids;
    while rest != {}
      invariant rest <= ids && Lists(order, ids - rest)
      decreases rest
    {
      var c :| c in rest;
      assert c !in order;
      order := order + [c];
      rest := rest - {c};
    }
    assert ids - {} == ids;
  }

  class Connection {
    var openText: Option<string>
    var openSubText: set<string>
    var openReasoning: set<string>
    var openSubReasoning: set<string>
    var openTools: set<string>
    var argsState: map<string, string>
    var reasoningState: map<string, string>
    var lastSnapshot: Option<string>

    /** The fields the helpers share, as one value. */
    function Now(): Snap
      reads this
    {
      Snap(Opens(openText, openSubText, openReasoning, openSubReasoning), argsState, openTools, reasoningState)
    }

    constructor ()
      ensures Now() == BEGIN.snap && lastSnapshot == None
    {
      openText, openSubText, openReasoning, openSubReasoning := None, {}, {}, {};
      openTools, argsState, reasoningState, lastSnapshot := {}, map[], map[], None;
    }

    // ---- helpers ---------------------------------------------------------------------------

    method ToolCallsToAgui(calls: seq<ToolCall>, parent: string) returns (events: seq<Event>)
      modifies this`argsState, this`openTools
      ensures Batch(Now(), events) == ToolCalls(old(Now()), calls, parent)
    {
      events := [];
      for i := 0 to |calls|
        invariant Batch(Now(), events) == ToolCalls(old(Now()), calls[..i], parent)
      {
        var c := calls[i];
        assert calls[..i + 1][..i] == calls[..i];
        if c.NotACall? { continue; }
        var id := CallId(c);
        if id !in argsState {
          argsState := argsState[id := c.args];
          openTools := openTools + {id};
          events := events + [ToolStart(id, Or(c.name, "tool"), parent)];
        } else {
          argsState := argsState[id := c.args];
        }
      }
      assert calls[..|calls|] == calls;
    }

    /** The tool-result part of both tool helpers. */
    method ToolResultToAgui(call: string, message: string, content: string) returns (events: seq<Event>)
      modifies this`openTools
      ensures Batch(Now(), events) == ToolOutcome(old(Now()), call, message, content)
    {
      events := [];
      if call in openTools {
        events := [ToolArgs(call, Recall(argsState, call))] + [ToolEnd(call)];
        openTools := openTools - {call};
      }
      assert openTools == old(openTools) - {call};
      events := events + [ToolResult(call, message, content)];
    }

    method CloseReasoningMessage(rid: string) returns (events: seq<Event>)
      modifies this`openReasoning
      ensures events == EndIf(rid in old(openReasoning), Reasoning, rid)
      ensures openReasoning == old(openReasoning) - {rid}
    {
      if rid !in openReasoning { return []; }
      openReasoning := openReasoning - {rid};
      events := [End(Reasoning, rid)];
    }

    method CloseSubagentReasoningMessage(rid: string) returns (events: seq<Event>)
      modifies this`openSubReasoning
      ensures events == EndIf(rid in old(openSubReasoning), Reasoning, rid)
      ensures openSubReasoning == old(openSubReasoning) - {rid}
    {
      if rid !in openSubReasoning { return []; }
      openSubReasoning := openSubReasoning - {rid};
      events := [End(Reasoning, rid)];
    }

    method ToolCallMessage(m: Message) returns (events: seq<Event>)
      requires m.Ai?
      modifies this`openReasoning, this`argsState, this`openTools
      ensures Batch(Now(), events) == AiCalls(old(Now()), m)
    {
      var id := MessageId(m);
      events := CloseReasoningMessage(ReasoningId(id));
      if openText.Some? { events := events + [End(Text, openText.value)]; }
      ghost var closed, head := Now(), events;
      assert head == EndIf(ReasoningId(id) in old(openReasoning), Reasoning, ReasoningId(id))
          + EndText(old(Now()).opens);
      var calls := ToolCallsToAgui(m.calls, id);
      events := events + calls;
    }

    /** `_reasoning_delta`, recording what it returns. */
    method ReasoningDelta(rid: string, reasoning: string) returns (delta: string)
      modifies this`reasoningState
      ensures delta == Delta(Get(old(reasoningState), rid), reasoning)
      ensures reasoningState == old(reasoningState)[rid := Recorded(Get(old(reasoningState), rid), reasoning)]
    {
      var previous := Get(reasoningState, rid);
      if previous != "" && StartsWith(reasoning, previous) {
        delta := reasoning[|previous|..];
      } else {
        delta := reasoning;
      }
      reasoningState := reasoningState[rid := if StartsWith(reasoning, previous) then reasoning else previous + delta];
    }

    method ThinkingPart(rid: string, reasoning: string) returns (events: seq<Event>)
      modifies this`openReasoning, this`reasoningState
      ensures Batch(Now(), events) == Think(old(Now()), rid, reasoning)
    {
      events := [];
      if reasoning != "" {
        var delta := ReasoningDelta(rid, reasoning);
        if rid !in openReasoning {
          openReasoning := openReasoning + {rid};
          events := [Start(Reasoning, rid)];
        }
        assert openReasoning == old(openReasoning) + {rid};
        if delta != "" { events := events + [Content(Reasoning, rid, delta)]; }
      }
    }

    method TextMessage(m: Message) returns (events: seq<Event>)
      requires m.Ai?
      modifies this`openReasoning, this`reasoningState
      ensures Batch(Now(), events) == AiText(old(Now()), m)
    {
      var id, rid := MessageId(m), ReasoningId(MessageId(m));
      events := ThinkingPart(rid, m.reasoning);
      if m.content == "" { return; }
      ghost var thinking := rid in openReasoning;
      var closing := CloseReasoningMessage(rid);
      var text := [];
      if openText != Some(id) {
        if openText.Some? { text := [End(Text, openText.value)]; }
        text := text + [Start(Text, id)];
      }
      assert text == OpenText(old(Now()).opens, id);
      text := closing + text + [Content(Text, id, m.content)];
      assert text == TextPart(old(Now()).opens, rid, thinking, id, m.content);
      events := events + text;
    }

    method MessageTupleToAgui(m: Message) returns (events: seq<Event>)
      modifies this`openReasoning, this`reasoningState, this`argsState, this`openTools
      ensures Batch(Now(), events) == MessageBatch(old(Now()), m)
    {
      events := [];
      match m {
        case Ai(_, _, _, _, calls) =>
          if calls != [] { events := ToolCallMessage(m); } else { events := TextMessage(m); }
        case ToolMessage(_, _, call, content) =>
          if call != "" { events := ToolResultToAgui(call, MessageId(m), content); }
        case OtherMessage =>
      }
    }

    method SubagentTokenChunkToAgui(task: string, content: string) returns (events: seq<Event>)
      modifies this`openSubText, this`openSubReasoning
      ensures Batch(Now(), events) == SubToken(old(Now()), task, content)
    {
      events := Note("deerflow.subagent.token_chunk");
      if task == "" || content == "" { return; }
      var closing := CloseSubagentReasoningMessage(SubReasoning(task));
      events := events + closing;
      var id := SubText(task);
      var start := [];
      if id !in openSubText {
        openSubText := openSubText + {id};
        start := [Start(Text, id)];
      }
      assert openSubText == old(openSubText) + {id} && start == StartIf(id !in old(openSubText), Text, id);
      events := events + start + [Content(Text, id, content)];
    }

    method SubagentThinkingChunkToAgui(task: string, thinking: string) returns (events: seq<Event>)
      modifies this`openSubReasoning
      ensures Batch(Now(), events) == SubThinking(old(Now()), task, thinking)
    {
      events := Note("deerflow.subagent.thinking_chunk");
      if task == "" || thinking == "" { return; }
      var rid := SubReasoning(task);
      var start := [];
      if rid !in openSubReasoning {
        openSubReasoning := openSubReasoning + {rid};
        start := [Start(Reasoning, rid)];
      }
      assert openSubReasoning == old(openSubReasoning) + {rid};
      events := events + start + [Content(Reasoning, rid, thinking)];
    }

    /** Reads the open sets without changing them. */
    method SubagentTerminalEventToAgui(name: string, task: string) returns (events: seq<Event>)
      ensures Batch(Now(), events) == SubTerminal(Now(), name, task)
    {
      events := [];
      if task != "" {
        if SubReasoning(task) in openSubReasoning { events := [End(Reasoning, SubReasoning(task))]; }
        if SubText(task) in openSubText { events := events + [End(Text, SubText(task))]; }
      }
      events := events + Note(name);
    }

    method CloseReasoningMessages() returns (events: seq<Event>)
      modifies this`openReasoning
      ensures events == Ends(Reasoning, SortedIds(old(openReasoning))) && openReasoning == {}
    {
      events := Ends(Reasoning, SortedIds(openReasoning));
      openReasoning := {};
    }

    method CloseSubagentReasoningMessages() returns (events: seq<Event>)
      modifies this`openSubReasoning
      ensures events == Ends(Reasoning, SortedIds(old(openSubReasoning))) && openSubReasoning == {}
    {
      events := Ends(Reasoning, SortedIds(openSubReasoning));
      openSubReasoning := {};
    }

    method CloseSubagentTextMessages() returns (events: seq<Event>)
      modifies this`openSubText
      ensures events == Ends(Text, SortedIds(old(openSubText))) && openSubText == {}
    {
      events := Ends(Text, SortedIds(openSubText));
      openSubText := {};
    }

    /** The END events for everything still open; both closing sequences use this order. */
    method CloseOpenMessages() returns (events: seq<Event>)
      modifies this`openText, this`openSubText, this`openReasoning, this`openSubReasoning
      ensures events == CloseMessages(old(Now()).opens) && Now().opens == CLOSED
    {
      var main := CloseReasoningMessages();
      var sub := CloseSubagentReasoningMessages();
      var text := if openText.Some? then [End(Text, openText.value)] else [];
      openText := None;
      var subText := CloseSubagentTextMessages();
      events := main + sub + text + subText;
    }

    /** ARGS and END for every open call, in whatever order the set has. */
    method CloseOpenCalls() returns (events: seq<Event>, ghost order: seq<string>)
      modifies this`openTools
      ensures Lists(order, old(openTools)) && events == CloseCalls(argsState, order) && openTools == {}
    {
      var ids := ListIds(openTools);
      events := [];
      for i := 0 to |ids|
        invariant events == CloseCalls(argsState, ids[..i])
      {
        assert ids[..i + 1][..i] == ids[..i];
        events := events + [ToolArgs(ids[i], Recall(argsState, ids[i]))] + [ToolEnd(ids[i])];
      }
      assert ids[..|ids|] == ids;
      openTools := {};
      order := ids;
    }

    // ---- the caller ------------------------------------------------------------------------

    /** The caller's loop over a batch. */
    method ReplayBatch(events: seq<Event>) returns (sent: seq<Event>)
      modifies this`openText, this`openSubText, this`openReasoning, this`openSubReasoning, this`lastSnapshot
      ensures Pass(Now().opens, lastSnapshot, sent) == PassOver(old(Now()).opens, old(lastSnapshot), events)
    {
      sent := [];
      for i := 0 to |events|
        invariant Pass(Now().opens, lastSnapshot, sent) == PassOver(old(Now()).opens, old(lastSnapshot), events[..i])
      {
        assert events[..i + 1][..i] == events[..i];
        var e := events[i];
        match e {
          case Snapshot(signature) =>
            if lastSnapshot == Some(signature) { continue; }
            lastSnapshot := Some(signature);
          case Start(kind, id) => OpenMessage(kind, id);
          case End(kind, id) => EndMessage(kind, id);
          case _ =>
        }
        sent := sent + [e];
      }
      assert events[..|events|] == events;
    }

    method OpenMessage(kind: Kind, id: string)
      modifies this`openText, this`openSubText, this`openReasoning, this`openSubReasoning
      ensures Now().opens == ReplayOne(old(Now()).opens, Start(kind, id))
    {
      if kind == Text {
        if Sub(id) { openSubText := openSubText + {id}; } else { openText := Some(id); }
      } else {
        if Sub(id) { openSubReasoning := openSubReasoning + {id}; } else { openReasoning := openReasoning + {id}; }
      }
    }

    method EndMessage(kind: Kind, id: string)
      modifies this`openText, this`openSubText, this`openReasoning, this`openSubReasoning
      ensures Now().opens == ReplayOne(old(Now()).opens, End(kind, id))
    {
      if kind == Text {
        if Sub(id) { openSubText := openSubText - {id}; } else { openText := None; }
      } else {
        if Sub(id) { openSubReasoning := openSubReasoning - {id}; } else { openReasoning := openReasoning - {id}; }
      }
    }

    /** `_stream_event_to_agui` for everything but the closing entry. */
    method StreamEventToAgui(e: Entry) returns (events: seq<Event>)
      requires !e.EndOfRun?
      modifies this`openSubText, this`openReasoning, this`openSubReasoning, this`openTools, this`argsState,
          this`reasoningState
      ensures Batch(Now(), events) == EntryBatch(old(Now()), e, [])
    {
      events := [];
      match e {
        case MessagesTuple(m) => events := MessageTupleToAgui(m);
        case Values(signature, artifacts) =>
          if signature.Some? { events := [Snapshot(signature.value)]; }
          if artifacts { events := events + Note("deerflow.artifacts"); }
        case ToolCallChunk(task, call) =>
          if call.ToolCall? {
            var parent := Or(task, "subagent");
            events := ToolCallsToAgui([Namespaced(parent, call)], SUBAGENT + parent);
          }
        case ToolResultChunk(task, name, raw, content) =>
          var t := Or(task, "subagent");
          var id := SubCallId(t, raw, Or(name, "tool"));
          events := ToolResultToAgui(id, SUBAGENT + t + ":tool-result:" + id, content);
        case TokenChunk(task, content) => events := SubagentTokenChunkToAgui(task, content);
        case ThinkingChunk(task, thinking) => events := SubagentThinkingChunkToAgui(task, thinking);
        case TaskTerminal(name, task) => events := SubagentTerminalEventToAgui(name, task);
        case TaskProgress(name) => events := Note(name);
        case Heartbeat => events := Note("deerflow.heartbeat");
        case CustomEntry => events := Note("deerflow.custom");
        case SubagentStarted(_) => events := Note("deerflow.subagent.subagent_started");
        case Unlisted =>
      }
    }

    /** The closing entry: its helpers have cleared the fields before its last event is replayed. */
    method CloseEntry() returns (sent: seq<Event>, ghost order: seq<string>)
      modifies this
      ensures Lists(order, old(openTools)) && lastSnapshot == old(lastSnapshot)
      ensures Now() == CloseAll(old(Now()), order).snap && sent == CloseAll(old(Now()), order).events
    {
      var messages := CloseOpenMessages();
      var calls;
      calls, order := CloseOpenCalls();
      OnlyEndsForwarded(lastSnapshot, Note("deerflow.usage"));
      var note := ReplayBatch(Note("deerflow.usage"));
      sent := messages + calls + note;
    }

    /** One turn of the subscription loop. */
    method HandleEntry(e: Entry) returns (sent: seq<Event>, ghost order: seq<string>)
      modifies this
      ensures Lists(order, old(openTools))
      ensures var p := Progress(old(Now()), old(lastSnapshot), []);
        Now() == After(old(Now()), e, order) && Pass(Now().opens, lastSnapshot, sent) == Wire(p, e, order)
    {
      if e.EndOfRun? {
        sent, order := CloseEntry();
        ClosingIsForwarded(old(Now()), order, lastSnapshot);
      } else {
        order := ListIds(openTools);
        var events := StreamEventToAgui(e);
        OrderOnlyForClosing(old(Now()), e, order);
        EntryIsForwarded(old(Now()), e, order, Batch(Now(), events), lastSnapshot);
        sent := ReplayBatch(events);
      }
    }
  }

  // ---- the generator ---------------------------------------------------------------------------

  datatype RunStatus = Pending | Running | Success | Error | Timeout | Interrupted

  /** How the subscription ends: exhausted, raising between entries, or cancelled by a disconnect.
      An exhausted one looks up the run's final record, which may be gone. */
  datatype Ending = Completed(final: Option<RunStatus>) | Raised | Cancelled

  predicate Failed(ending: Ending) {
    match ending
    case Completed(final) => final == Some(Error) || final == Some(Timeout) || final == Some(Interrupted)
    case Raised => true
    case Cancelled => false
  }

  function Flat(batches: seq<seq<Event>>): seq<Event> {
    if batches == [] then [] else Flat(batches[..|batches| - 1]) + batches[|batches| - 1]
  }

  /** The whole response. */
  function Response(batches: seq<seq<Event>>, closing: seq<Event>): seq<Event> {
    [RunStarted] + Flat(batches) + closing
  }

  /** What a response promises whatever its ids: main text, reasoning and the run's own events are well
      bracketed; every tool event is in its place, no RESULT from START to END; a tool call's START,
      ARGS, END come in order, and unless the response was cut off, all of them or none. */
  ghost predicate CoreKept(ending: Ending, out: seq<Event>) {
    && Scan(INITIAL, Core(out)) != Broken
    && (ending != Cancelled ==> Scan(INITIAL, Core(out)).stage == Finished)
    && (forall i :: 0 <= i < |out| ==> CallsFitAt(out, i))
    && (forall c :: InOrder(CallEvents(out, c)))
    && (ending != Cancelled ==> forall c :: |CallEvents(out, c)| in {0, 3})
  }

  lemma CoreKeptByScan(ending: Ending, out: seq<Event>)
    requires Scan(INITIAL, Core(out)) != Broken
    requires ending != Cancelled ==> Scan(INITIAL, Core(out)).stage == Finished
    ensures CoreKept(ending, out)
  {
    forall i | 0 <= i < |out| ensures CallsFitAt(out, i) { CallsFit(out, i); }
    forall c ensures InOrder(CallEvents(out, c)) && (ending != Cancelled ==> |CallEvents(out, c)| in {0, 3}) {
      CallsAreWhole(out, c);
    }
  }

  /** What a response promises its client. */
  ghost predicate Promised(entries: seq<Entry>, ending: Ending, batches: seq<seq<Event>>, closing: seq<Event>) {
    var out := Response(batches, closing);
    // well bracketed, exactly unless a main text chunk reuses an open subagent message id
    && (Scan(INITIAL, out) != Broken <==> !SomeCollision(entries))
    // and finished: nothing open, one terminal event, last
    && (!SomeCollision(entries) && ending != Cancelled ==> Scan(INITIAL, out).stage == Finished)
    && (if ending == Cancelled then closing == []
        else closing != [] && closing[|closing| - 1] == if Failed(ending) then RunError else RunFinished)
    // without subagent text it is well bracketed and finished whatever the ids
    && CoreKept(ending, out)
    // tool arguments are the last ones seen before they are sent
    && |batches| == |entries|
    && (forall i :: 0 <= i < |entries| ==> ArgsFrom(ArgsSeen(entries[..i]), batches[i]))
    && ArgsFrom(ArgsSeen(entries), closing)
    // reasoning text is what the provider's chunks amount to
    && (forall id :: !Sub(id) ==> Joined(out, Reasoning, id) == Feed("", ReasonChunks(entries, id)))
    // no snapshot repeats the one before it
    && exists last :: NoRepeat(out, last)
  }

  /** What a response promises of its content, whatever its ids. */
  ghost predicate ContentKept(entries: seq<Entry>, ending: Ending, batches: seq<seq<Event>>, out: seq<Event>) {
    // every chunk of text and thinking, every tool result and every note, in the order of the entries
    && Payload(out) == AllSaid(entries)
    && (forall k, id :: k == Text || Sub(id) ==> Joined(out, k, id) == TextOf(entries, k, id))
    // every tool call that was named, started once at its first mention, and complete unless cut off
    && Starts(out) == Firsts(AllAsked(entries))
    && (ending != Cancelled ==>
          forall c :: |CallEvents(out, c)| == if c in CallsIn(AllAsked(entries)) then 3 else 0)
    // every snapshot that differs from the one before it
    && Signatures(out) == Changes(SignaturesOf(entries))
    // which messages are open between entries; messages and calls are ended by what ends them alone
    && |batches| == |entries|
    && (forall i :: 0 <= i <= |entries| ==> OpenBetween(entries[..i], batches[..i]))
    && (forall i :: 0 <= i < |entries| ==> EndsRightly(OpenAll(entries[..i]), entries[i], batches[i]))
  }

  ghost predicate OpenBetween(read: seq<Entry>, batches: seq<seq<Event>>) {
    var sofar := Response(batches, []);
    !SomeCollision(read) ==> forall k, id :: OpenAt(sofar, |sofar|, k, id) <==> (k, id) in OpenAll(read)
  }

  /** The generator, for every sequence of entries and every way it can end. */
  method EventGenerator(entries: seq<Entry>, ending: Ending) returns (batches: seq<seq<Event>>, closing: seq<Event>)
    ensures Promised(entries, ending, batches, closing)
    ensures ContentKept(entries, ending, batches, Response(batches, closing))
  {
    var t := new Connection();
    ghost var orders;
    batches, orders := Subscription(t, entries);
    closing := [];
    if ending == Cancelled {
      CutOffKeepsPromise(entries, orders, batches);
      CutOffKeepsContent(entries, orders, batches);
    } else {
      var calls;
      ghost var order;
      calls, order := t.CloseOpenCalls();
      var messages := t.CloseOpenMessages();
      closing := calls + messages + [if Failed(ending) then RunError else RunFinished];
      EndingKeepsPromise(entries, orders, batches, order, ending);
      EndingKeepsContent(entries, orders, batches, order, ending);
    }
  }

  lemma {:induction false} RunHoldsCore(entries: seq<Entry>, orders: seq<seq<string>>, batches: seq<seq<Event>>)
    requires |orders| == |entries| && Produces(entries, orders, batches)
    ensures CoreInv(Reach(entries, orders))
    decreases |entries|
  {
    if entries == [] {
      BeginHoldsCore();
    } else {
      var n := |entries| - 1;
      RunHoldsCore(entries[..n], orders[..n], batches[..n]);
      AdvanceKeepsCore(Reach(entries[..n], orders[..n]), entries[n], orders[n]);
    }
  }

  /** The core promise needs nothing of the entries. */
  lemma CutOffKeepsCore(entries: seq<Entry>, orders: seq<seq<string>>, batches: seq<seq<Event>>)
    requires |orders| == |entries| && Produces(entries, orders, batches)
    ensures CoreKept(Cancelled, Response(batches, []))
  {
    RunHoldsCore(entries, orders, batches);
    RunOut(entries, orders, batches);
    ResponseSplits(batches);
    CoreKeptByScan(Cancelled, Response(batches, []));
  }

  lemma EndingKeepsCore(entries: seq<Entry>, orders: seq<seq<string>>, batches: seq<seq<Event>>,
                        order: seq<string>, ending: Ending, terminal: Event)
    requires |orders| == |entries| && Produces(entries, orders, batches)
    requires Lists(order, Reach(entries, orders).snap.tools) && Terminal(terminal)
    ensures CoreKept(ending, Response(batches, Farewell(Reach(entries, orders).snap, order) + [terminal]))
  {
    var p := Reach(entries, orders);
    RunHoldsCore(entries, orders, batches);
    RunOut(entries, orders, batches);
    FarewellClosesCore(p, order, terminal);
    CoreKeptByScan(ending, p.out + (Farewell(p.snap, order) + [terminal]));
  }

  // ---- the content of a run ----------------------------------------------------------------------------

  ghost predicate ContentInv(p: Progress, read: seq<Entry>) {
    && Payload(p.out) == AllSaid(read) && Starts(p.out) == Firsts(AllAsked(read))
    && Signatures(p.out) == Changes(SignaturesOf(read)) && p.last == Latest(SignaturesOf(read))
    && OpenIds(p.snap.opens) == OpenAll(read)
  }

  lemma BeginHoldsContent()
    ensures ContentInv(BEGIN, [])
  {
    assert BEGIN.out[..0] == [] && OpenIds(CLOSED) == {};
    assert Payload([]) == [] && Starts([]) == [] && Signatures([]) == [];
  }

  lemma AdvanceKeepsContent(p: Progress, read: seq<Entry>, e: Entry, order: seq<string>)
    requires ContentInv(p, read) && Ok(p.snap) && p.snap.args == ArgsSeen(read) && Lists(order, p.snap.tools)
    ensures ContentInv(Advance(p, e, order), read + [e])
    ensures EndsRightly(OpenAll(read), e, Wire(p, e, order).sent)
  {
    AdvanceSays(p, read, e, order);
    AdvanceStarts(p, read, e, order);
    AdvanceSnapshots(p, read, e, order);
    AdvanceOpens(p, read, e, order);
  }

  /** One entry further along a run, with what the entry put on the wire. */
  lemma ContentStep(p: Progress, read: seq<Entry>, e: Entry, order: seq<string>, all: seq<Entry>, sent: seq<Event>)
    requires ContentInv(p, read) && Ok(p.snap) && p.snap.args == ArgsSeen(read) && Lists(order, p.snap.tools)
    requires all == read + [e] && sent == Wire(p, e, order).sent
    ensures ContentInv(Advance(p, e, order), all) && EndsRightly(OpenAll(read), e, sent)
  {
    AdvanceKeepsContent(p, read, e, order);
  }

  lemma ReachLast(entries: seq<Entry>, orders: seq<seq<string>>, batches: seq<seq<Event>>)
      returns (p: Progress, read: seq<Entry>, e: Entry, order: seq<string>)
    requires |orders| == |entries| > 0 && Produces(entries, orders, batches)
    ensures var n := |entries| - 1;
      && read == entries[..n] && e == entries[n] && order == orders[n] && entries == read + [e]
      && p == Reach(entries[..n], orders[..n]) && Reach(entries, orders) == Advance(p, e, order)
      && Lists(order, p.snap.tools) && batches[n] == Wire(p, e, order).sent
  {
    var n := |entries| - 1;
    p, read, e, order := Reach(entries[..n], orders[..n]), entries[..n], entries[n], orders[n];
  }

  lemma {:induction false} RunHoldsContent(entries: seq<Entry>, orders: seq<seq<string>>, batches: seq<seq<Event>>)
    requires |orders| == |entries| && Produces(entries, orders, batches)
    ensures ContentInv(Reach(entries, orders), entries)
    decreases |entries|
  {
    if entries == [] {
      BeginHoldsContent();
    } else {
      var n := |entries| - 1;
      RunHoldsContent(entries[..n], orders[..n], batches[..n]);
      RunHolds(entries[..n], orders[..n], batches[..n]);
      var p, read, e, order := ReachLast(entries, orders, batches);
      ContentStep(p, read, e, order, entries, batches[n]);
    }
  }

  /** A run cut off after some entries is a run. */
  lemma {:induction false} ProducesBefore(entries: seq<Entry>, orders: seq<seq<string>>, batches: seq<seq<Event>>,
                                          i: nat)
    requires |orders| == |entries| && Produces(entries, orders, batches) && i <= |entries|
    ensures Produces(entries[..i], orders[..i], batches[..i])
    decreases |entries|
  {
    var n := |entries| - 1;
    if i <= n {
      ProducesBefore(entries[..n], orders[..n], batches[..n], i);
      assert entries[..n][..i] == entries[..i] && orders[..n][..i] == orders[..i] && batches[..n][..i] == batches[..i];
    } else {
      assert entries[..i] == entries && orders[..i] == orders && batches[..i] == batches;
    }
  }

  /** What is open after these entries is what the wire says is open. */
  lemma RunOpens(entries: seq<Entry>, orders: seq<seq<string>>, batches: seq<seq<Event>>)
    requires |orders| == |entries| && Produces(entries, orders, batches)
    ensures OpenBetween(entries, batches)
  {
    var p := Reach(entries, orders);
    RunHolds(entries, orders, batches);
    RunHoldsContent(entries, orders, batches);
    RunOut(entries, orders, batches);
    ResponseSplits(batches);
    CheckerIsExact(p.out);
  }

  lemma RunEnds(entries: seq<Entry>, orders: seq<seq<string>>, batches: seq<seq<Event>>)
    requires |orders| == |entries| > 0 && Produces(entries, orders, batches)
    ensures var n := |entries| - 1; EndsRightly(OpenAll(entries[..n]), entries[n], batches[n])
  {
    var n := |entries| - 1;
    RunHoldsContent(entries[..n], orders[..n], batches[..n]);
    RunHolds(entries[..n], orders[..n], batches[..n]);
    var p, read, e, order := ReachLast(entries, orders, batches);
    ContentStep(p, read, e, order, entries, batches[n]);
  }

  lemma RunOpensThroughout(entries: seq<Entry>, orders: seq<seq<string>>, batches: seq<seq<Event>>)
    requires |orders| == |entries| && Produces(entries, orders, batches)
    ensures forall i :: 0 <= i <= |entries| ==> OpenBetween(entries[..i], batches[..i])
    ensures forall i :: 0 <= i < |entries| ==> EndsRightly(OpenAll(entries[..i]), entries[i], batches[i])
  {
    forall i | 0 <= i <= |entries| ensures OpenBetween(entries[..i], batches[..i]) {
      ProducesBefore(entries, orders, batches, i);
      RunOpens(entries[..i], orders[..i], batches[..i]);
    }
    forall i | 0 <= i < |entries| ensures EndsRightly(OpenAll(entries[..i]), entries[i], batches[i]) {
      ProducesBefore(entries, orders, batches, i + 1);
      RunEnds(entries[..i + 1], orders[..i + 1], batches[..i + 1]);
      assert entries[..i + 1][..i] == entries[..i];
    }
  }

  /** A call's events begin with its START. */
  lemma {:induction false} CallEventsOf(trace: seq<Event>, c: string)
    ensures forall e :: e in CallEvents(trace, c) ==> e in trace && (e.ToolStart? ==> e.call == c)
    ensures forall e :: e in trace && e.ToolStart? && e.call == c ==> e in CallEvents(trace, c)
    ensures forall e :: e in Starts(trace) <==> e in trace && e.ToolStart?
    decreases |trace|
  {
    if trace != [] { CallEventsOf(trace[..|trace| - 1], c); }
  }

  lemma NamedCallsAreWhole(trace: seq<Event>, asked: seq<Event>, c: string)
    requires Starts(trace) == Firsts(asked) && InOrder(CallEvents(trace, c)) && |CallEvents(trace, c)| in {0, 3}
    ensures |CallEvents(trace, c)| == if c in CallsIn(asked) then 3 else 0
  {
    CallEventsOf(trace, c);
    StartedWhenNamed(asked, c);
    if CallEvents(trace, c) != [] { assert CallEvents(trace, c)[0] in Starts(trace); }
    if e :| e in Firsts(asked) && e.ToolStart? && e.call == c { assert e in CallEvents(trace, c); }
  }

  /** Nothing carried, started or shown. */
  ghost predicate Bare(events: seq<Event>) { Payload(events) == [] && Starts(events) == [] && Signatures(events) == [] }

  lemma FarewellStartsNothing(s: Snap, order: seq<string>, terminal: Event)
    requires Terminal(terminal)
    ensures forall e :: e in Farewell(s, order) + [terminal] ==> !e.ToolStart? && !e.Snapshot?
  {
    EndsCarryNothing(s.opens);
    CloseCallsCarryNothing(s.args, order);
  }

  lemma FarewellIsBare(s: Snap, order: seq<string>, terminal: Event)
    requires Terminal(terminal)
    ensures Bare(Farewell(s, order) + [terminal])
  {
    FarewellSays(s, order, terminal);
    FarewellStartsNothing(s, order, terminal);
    NoStarts(Farewell(s, order) + [terminal]);
    NoSignatures(Farewell(s, order) + [terminal]);
  }

  lemma BareAddsNothing(out: seq<Event>, closing: seq<Event>)
    requires Bare(closing)
    ensures Payload(out + closing) == Payload(out) && Starts(out + closing) == Starts(out)
    ensures Signatures(out + closing) == Signatures(out)
  {
    PayloadAppend(out, closing);
    StartsAppend(out, closing);
    SignaturesAppend(out, closing);
    assert Payload(out) + [] == Payload(out) && Starts(out) + [] == Starts(out);
    assert Signatures(out) + [] == Signatures(out);
  }

  lemma ResponseEnds(batches: seq<seq<Event>>, closing: seq<Event>)
    ensures Response(batches, closing) == ([RunStarted] + Flat(batches)) + closing
  {
  }

  lemma TextsAreKept(out: seq<Event>, entries: seq<Entry>)
    requires Payload(out) == AllSaid(entries)
    ensures forall k, id :: k == Text || Sub(id) ==> Joined(out, k, id) == TextOf(entries, k, id)
  {
    forall k, id | k == Text || Sub(id) ensures Joined(out, k, id) == TextOf(entries, k, id) {
      TextIsItsChunks(out, entries, k, id);
    }
  }

  lemma CallsAreKept(out: seq<Event>, asked: seq<Event>, ending: Ending)
    requires Starts(out) == Firsts(asked) && CoreKept(ending, out) && ending != Cancelled
    ensures forall c :: |CallEvents(out, c)| == if c in CallsIn(asked) then 3 else 0
  {
    forall c ensures |CallEvents(out, c)| == if c in CallsIn(asked) then 3 else 0 {
      assert InOrder(CallEvents(out, c));
      NamedCallsAreWhole(out, asked, c);
    }
  }

  lemma ContentIsKept(entries: seq<Entry>, orders: seq<seq<string>>, batches: seq<seq<Event>>, ending: Ending,
                      closing: seq<Event>)
    requires |orders| == |entries| && Produces(entries, orders, batches) && Bare(closing)
    requires CoreKept(ending, Response(batches, closing))
    ensures ContentKept(entries, ending, batches, Response(batches, closing))
  {
    var p, out := Reach(entries, orders), Response(batches, closing);
    RunHoldsContent(entries, orders, batches);
    RunOut(entries, orders, batches);
    ResponseEnds(batches, closing);
    BareAddsNothing(p.out, closing);
    RunOpensThroughout(entries, orders, batches);
    TextsAreKept(out, entries);
    if ending != Cancelled { CallsAreKept(out, AllAsked(entries), ending); }
  }

  lemma CutOffKeepsContent(entries: seq<Entry>, orders: seq<seq<string>>, batches: seq<seq<Event>>)
    requires |orders| == |entries| && Produces(entries, orders, batches)
    ensures ContentKept(entries, Cancelled, batches, Response(batches, []))
  {
    CutOffKeepsCore(entries, orders, batches);
    ContentIsKept(entries, orders, batches, Cancelled, []);
  }

  lemma EndingKeepsContent(entries: seq<Entry>, orders: seq<seq<string>>, batches: seq<seq<Event>>,
                           order: seq<string>, ending: Ending)
    requires |orders| == |entries| && Produces(entries, orders, batches)
    requires Lists(order, Reach(entries, orders).snap.tools)
    ensures var closing := Farewell(Reach(entries, orders).snap, order)
                           + [if Failed(ending) then RunError else RunFinished];
      ContentKept(entries, ending, batches, Response(batches, closing))
  {
    var terminal := if Failed(ending) then RunError else RunFinished;
    FarewellIsBare(Reach(entries, orders).snap, order, terminal);
    EndingKeepsCore(entries, orders, batches, order, ending, terminal);
    ContentIsKept(entries, orders, batches, ending, Farewell(Reach(entries, orders).snap, order) + [terminal]);
  }

  lemma CutOffKeepsPromise(entries: seq<Entry>, orders: seq<seq<string>>, batches: seq<seq<Event>>)
    requires |orders| == |entries| && Produces(entries, orders, batches)
    ensures Promised(entries, Cancelled, batches, [])
  {
    RunIsSound(entries, orders, batches);
    ResponseSplits(batches);
    CutOffKeepsCore(entries, orders, batches);
  }

  lemma EndingKeepsPromise(entries: seq<Entry>, orders: seq<seq<string>>, batches: seq<seq<Event>>,
                           order: seq<string>, ending: Ending)
    requires |orders| == |entries| && Produces(entries, orders, batches) && ending != Cancelled
    requires Lists(order, Reach(entries, orders).snap.tools)
    ensures Promised(entries, ending, batches,
                     Farewell(Reach(entries, orders).snap, order) + [if Failed(ending) then RunError else RunFinished])
  {
    var p, terminal := Reach(entries, orders), if Failed(ending) then RunError else RunFinished;
    RunIsSound(entries, orders, batches);
    FarewellEnds(p, entries, order, terminal);
    EndingKeepsCore(entries, orders, batches, order, ending, terminal);
    assert Response(batches, Farewell(p.snap, order) + [terminal]) == p.out + (Farewell(p.snap, order) + [terminal]);
  }

  /** The subscription loop, from a new connection. */
  method Subscription(t: Connection, entries: seq<Entry>)
      returns (batches: seq<seq<Event>>, ghost orders: seq<seq<string>>)
    requires t.Now() == BEGIN.snap && t.lastSnapshot == None
    modifies t
    ensures |orders| == |entries| && Produces(entries, orders, batches)
    ensures t.Now() == Reach(entries, orders).snap
  {
    batches, orders := [], [];
    for i := 0 to |entries|
      invariant |batches| == i == |orders|
      invariant t.Now() == Reach(entries[..i], orders).snap && t.lastSnapshot == Reach(entries[..i], orders).last
      invariant Produces(entries[..i], orders, batches)
    {
      var sent;
      ghost var order;
      sent, order := t.HandleEntry(entries[i]);
      ReachNext(entries, i, orders, batches, order, sent);
      batches, orders := batches + [sent], orders + [order];
    }
    assert entries[..|entries|] == entries;
  }

  /** Where a run stands after some entries, given the order each closing entry used. */
  ghost function Reach(entries: seq<Entry>, orders: seq<seq<string>>): Progress
    requires |orders| == |entries|
  {
    if entries == [] then BEGIN
    else
      var n := |entries| - 1;
      Advance(Reach(entries[..n], orders[..n]), entries[n], orders[n])
  }

  ghost predicate Produces(entries: seq<Entry>, orders: seq<seq<string>>, batches: seq<seq<Event>>)
    requires |orders| == |entries|
  {
    && |batches| == |entries|
    && (entries != [] ==>
          var n := |entries| - 1;
          var p := Reach(entries[..n], orders[..n]);
          && Produces(entries[..n], orders[..n], batches[..n])
          && Lists(orders[n], p.snap.tools)
          && batches[n] == Wire(p, entries[n], orders[n]).sent)
  }

  lemma ReachNext(entries: seq<Entry>, i: nat, orders: seq<seq<string>>, batches: seq<seq<Event>>,
                  order: seq<string>, sent: seq<Event>)
    requires i < |entries| && |orders| == i && Produces(entries[..i], orders, batches)
    requires Lists(order, Reach(entries[..i], orders).snap.tools)
    requires sent == Wire(Reach(entries[..i], orders), entries[i], order).sent
    ensures Reach(entries[..i + 1], orders + [order]) == Advance(Reach(entries[..i], orders), entries[i], order)
    ensures Produces(entries[..i + 1], orders + [order], batches + [sent])
  {
    assert entries[..i + 1][..i] == entries[..i];
    assert (orders + [order])[..i] == orders && (batches + [sent])[..i] == batches;
  }

  /** One entry further along a run. */
  lemma RunStep(entries: seq<Entry>, orders: seq<seq<string>>, batches: seq<seq<Event>>)
    requires |orders| == |entries| > 0 && Produces(entries, orders, batches)
    requires RunInv(Reach(entries[..|entries| - 1], orders[..|entries| - 1]), entries[..|entries| - 1])
    ensures RunInv(Reach(entries, orders), entries)
    ensures ArgsFrom(ArgsSeen(entries[..|entries| - 1]), batches[|entries| - 1])
  {
    var n := |entries| - 1;
    AdvanceKeeps(Reach(entries[..n], orders[..n]), entries[..n], entries[n], orders[n]);
    assert entries[..n] + [entries[n]] == entries;
  }

  lemma {:induction false} RunHolds(entries: seq<Entry>, orders: seq<seq<string>>, batches: seq<seq<Event>>)
    requires |orders| == |entries| && Produces(entries, orders, batches)
    ensures RunInv(Reach(entries, orders), entries)
    ensures entries != [] ==> ArgsFrom(ArgsSeen(entries[..|entries| - 1]), batches[|entries| - 1])
    decreases |entries|
  {
    if entries == [] {
      BeginHolds();
    } else {
      var n := |entries| - 1;
      RunHolds(entries[..n], orders[..n], batches[..n]);
      RunStep(entries, orders, batches);
    }
  }

  lemma RunArgs(entries: seq<Entry>, orders: seq<seq<string>>, batches: seq<seq<Event>>, i: nat)
    requires |orders| == |entries| && Produces(entries, orders, batches) && i < |entries|
    ensures ArgsFrom(ArgsSeen(entries[..i]), batches[i])
  {
    ProducesBefore(entries, orders, batches, i + 1);
    LastArgs(entries[..i + 1], orders[..i + 1], batches[..i + 1]);
    assert entries[..i + 1][..i] == entries[..i];
  }

  lemma LastArgs(entries: seq<Entry>, orders: seq<seq<string>>, batches: seq<seq<Event>>)
    requires |orders| == |entries| == |batches| > 0 && Produces(entries, orders, batches)
    ensures ArgsFrom(ArgsSeen(entries[..|entries| - 1]), batches[|entries| - 1])
  {
    RunHolds(entries, orders, batches);
  }

  lemma {:induction false} RunOut(entries: seq<Entry>, orders: seq<seq<string>>, batches: seq<seq<Event>>)
    requires |orders| == |entries| && Produces(entries, orders, batches)
    ensures Reach(entries, orders).out == [RunStarted] + Flat(batches)
    decreases |entries|
  {
    if entries != [] {
      var n := |entries| - 1;
      RunOut(entries[..n], orders[..n], batches[..n]);
      FlatPush(batches[..n], batches[n]);
      assert batches[..n] + [batches[n]] == batches;
      RunOutNext(entries, orders, batches);
      ConcatAssoc([RunStarted], Flat(batches[..n]), batches[n]);
    }
  }

  lemma RunOutNext(entries: seq<Entry>, orders: seq<seq<string>>, batches: seq<seq<Event>>)
    requires |orders| == |entries| > 0 && Produces(entries, orders, batches)
    ensures var n := |entries| - 1;
      Reach(entries, orders).out == Reach(entries[..n], orders[..n]).out + batches[n]
  {
  }

  /** The run invariant at the end of any run, and what each batch on the way sent. */
  lemma RunIsSound(entries: seq<Entry>, orders: seq<seq<string>>, batches: seq<seq<Event>>)
    requires |orders| == |entries| && Produces(entries, orders, batches)
    ensures RunInv(Reach(entries, orders), entries)
    ensures Reach(entries, orders).out == [RunStarted] + Flat(batches)
    ensures forall i :: 0 <= i < |entries| ==> ArgsFrom(ArgsSeen(entries[..i]), batches[i])
  {
    RunHolds(entries, orders, batches);
    RunOut(entries, orders, batches);
    forall i | 0 <= i < |entries| ensures ArgsFrom(ArgsSeen(entries[..i]), batches[i]) {
      RunArgs(entries, orders, batches, i);
    }
  }

  lemma FlatPush(batches: seq<seq<Event>>, sent: seq<Event>)
    ensures [RunStarted] + Flat(batches + [sent]) == ([RunStarted] + Flat(batches)) + sent
  {
    assert (batches + [sent])[..|batches|] == batches;
  }

  lemma ResponseSplits(batches: seq<seq<Event>>)
    ensures Response(batches, []) == [RunStarted] + Flat(batches)
  {
  }

  /** The farewell keeps what the run established and finishes the stream. */
  lemma FarewellEnds(p: Progress, read: seq<Entry>, order: seq<string>, terminal: Event)
    requires RunInv(p, read) && Lists(order, p.snap.tools) && Terminal(terminal)
    ensures var closing := Farewell(p.snap, order) + [terminal];
      && ArgsFrom(ArgsSeen(read), closing)
      && NoRepeat(p.out + closing, p.last)
      && (Scan(INITIAL, p.out + closing) != Broken <==> !SomeCollision(read))
      && (!SomeCollision(read) ==> Scan(INITIAL, p.out + closing).stage == Finished)
      && forall id :: !Sub(id) ==> Joined(p.out + closing, Reasoning, id) == Joined(p.out, Reasoning, id)
  {
    var closing := Farewell(p.snap, order) + [terminal];
    FarewellSends(p.snap, order);
    FarewellCloses(p.snap, order, terminal);
    BrokenStaysBroken(closing);
    ScanAppend(INITIAL, p.out, closing);
    FarewellShowsNothing(p, closing);
  }

  lemma FarewellShowsNothing(p: Progress, closing: seq<Event>)
    requires NoRepeat(p.out, p.last) && Plain(closing) && forall e :: e in closing ==> !e.Snapshot?
    ensures NoRepeat(p.out + closing, p.last)
    ensures forall id :: !Sub(id) ==> Joined(p.out + closing, Reasoning, id) == Joined(p.out, Reasoning, id)
  {
    NothingDropped(CLOSED, p.last, closing);
    PassNeverRepeats(CLOSED, p.last, closing, p.out);
    forall id | !Sub(id) ensures Joined(p.out + closing, Reasoning, id) == Joined(p.out, Reasoning, id) {
      PlainJoinsNothing(closing, id);
      JoinedAppend(p.out, closing, Reasoning, id);
    }
  }

  lemma OrderOnlyForClosing(s: Snap, e: Entry, order: seq<string>)
    requires !e.EndOfRun?
    ensures EntryBatch(s, e, order) == EntryBatch(s, e, [])
  {
  }

  /** The caller's pass over a batch leaves the fields as the run says. */
  lemma EntryIsForwarded(s: Snap, e: Entry, order: seq<string>, r: Batch, last: Option<string>)
    requires !e.EndOfRun? && r == EntryBatch(s, e, order)
    ensures var p := PassOver(r.snap.opens, last, r.events);
      p == Wire(Progress(s, last, []), e, order) && r.snap.(opens := p.opens) == After(s, e, order)
  {
    PassForwards(r.snap.opens, last, r.events);
  }

  lemma ClosingOnlyEnds(s: Snap, order: seq<string>)
    ensures forall e :: e in CloseAll(s, order).events ==> !e.Snapshot? && !e.Start?
  {
    CloseMessagesArePlain(s.opens);
    CloseCallsShape(s.args, order);
  }

  lemma OnlyEndsForwarded(last: Option<string>, events: seq<Event>)
    requires forall e :: e in events ==> !e.Snapshot? && !e.Start?
    ensures PassOver(CLOSED, last, events) == Pass(CLOSED, last, events)
  {
    NothingDropped(CLOSED, last, events);
    PassForwards(CLOSED, last, events);
    NothingToReopen(CLOSED, events);
  }

  /** The closing entry clears the fields before its last event is replayed; replaying the whole
      of it over the cleared fields would come to the same. */
  lemma ClosingIsForwarded(s: Snap, order: seq<string>, last: Option<string>)
    ensures Wire(Progress(s, last, []), EndOfRun, order) == Pass(CLOSED, last, CloseAll(s, order).events)
    ensures After(s, EndOfRun, order) == CloseAll(s, order).snap
  {
    ClosingOnlyEnds(s, order);
    OnlyEndsForwarded(last, CloseAll(s, order).events);
  }

  lemma {:induction false} NothingToReopen(o: Opens, events: seq<Event>)
    requires o == CLOSED && forall e :: e in events ==> !e.Start?
    ensures Replay(o, events) == CLOSED
    decreases |events|
  {
    if events != [] {
      var pre, e := events[..|events| - 1], events[|events| - 1];
      assert e in events && forall x :: x in pre ==> x in events;
      NothingToReopen(o, pre);
      assert ReplayOne(CLOSED, e) == CLOSED;
    }
  }
}

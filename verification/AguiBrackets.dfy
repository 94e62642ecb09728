/** Which messages are open after each entry, read off the entries alone: a text message stays open until
    another main chunk or the end, thinking until its text, a subagent's messages until its end. */
module AguiBrackets {
  import opened Common
  import opened AguiEvents
  import opened ReasoningDelta
  import opened AguiStream
  import opened AguiTranslator
  import opened AguiEntries
  import opened AguiRun
  import opened AguiService

  type Ids = set<(Kind, string)>

  ghost function WithoutMainText(open: Ids): Ids { set x | x in open && !(x.0 == Text && !Sub(x.1)) }

  /** The open messages after an entry, whatever its ids. */
  ghost function OpenNext(open: Ids, e: Entry): Ids {
    match e
    case MessagesTuple(Ai(id, uuid, content, reasoning, calls)) =>
      var m := if id != "" then id else uuid;
      if calls != [] then WithoutMainText(open) - {(Reasoning, "reasoning_" + m)}
      else if content != "" then WithoutMainText(open) - {(Reasoning, "reasoning_" + m)} + {(Text, m)}
      else if reasoning != "" then open + {(Reasoning, "reasoning_" + m)}
      else open
    case TokenChunk(task, content) =>
      if task != "" && content != "" then open - {(Reasoning, SubReasoning(task))} + {(Text, SubText(task))} else open
    case ThinkingChunk(task, thinking) =>
      if task != "" && thinking != "" then open + {(Reasoning, SubReasoning(task))} else open
    case TaskTerminal(_, task) =>
      if task != "" then open - {(Reasoning, SubReasoning(task))} - {(Text, SubText(task))} else open
    case EndOfRun => {}
    case _ => open
  }

  ghost function OpenAll(entries: seq<Entry>): Ids {
    if entries == [] then {} else OpenNext(OpenAll(entries[..|entries| - 1]), entries[|entries| - 1])
  }

  // ---- the same on the fields --------------------------------------------------------------------------

  function OpensNext(o: Opens, e: Entry): Opens {
    match e
    case MessagesTuple(Ai(id, uuid, content, reasoning, calls)) =>
      var m, rid := MessageId(e.message), ReasoningId(MessageId(e.message));
      if calls != [] then o.(text := None, reasoning := o.reasoning - {rid})
      else if content != "" then
        (if Sub(m) then o.(text := None, subText := o.subText + {m}, reasoning := o.reasoning - {rid})
         else o.(text := Some(m), reasoning := o.reasoning - {rid}))
      else if reasoning != "" then o.(reasoning := o.reasoning + {rid})
      else o
    case TokenChunk(task, content) =>
      if task != "" && content != "" then
        o.(subReasoning := o.subReasoning - {SubReasoning(task)}, subText := o.subText + {SubText(task)})
      else o
    case ThinkingChunk(task, thinking) =>
      if task != "" && thinking != "" then o.(subReasoning := o.subReasoning + {SubReasoning(task)}) else o
    case TaskTerminal(_, task) =>
      if task != "" then
        o.(subReasoning := o.subReasoning - {SubReasoning(task)}, subText := o.subText - {SubText(task)})
      else o
    case EndOfRun => CLOSED
    case _ => o
  }

  lemma OpenIdsHas(o: Opens, k: Kind, id: string)
    requires Typed(o)
    ensures (k, id) in OpenIds(o) <==>
            if k == Text then (if Sub(id) then id in o.subText else o.text == Some(id))
            else (if Sub(id) then id in o.subReasoning else id in o.reasoning)
  {
  }

  lemma OpensNextTyped(o: Opens, e: Entry)
    requires Typed(o)
    ensures Typed(OpensNext(o, e))
  {
    if e.MessagesTuple? && e.message.Ai? { ReasoningIdIsMain(MessageId(e.message)); }
    if e.TokenChunk? { SubIdsAreSub(e.task); }
    if e.ThinkingChunk? { SubIdsAreSub(e.task); }
    if e.TaskTerminal? { SubIdsAreSub(e.task); }
  }

  lemma MessageNextHas(o: Opens, m: Message, k: Kind, id: string)
    requires Typed(o)
    ensures (k, id) in OpenIds(OpensNext(o, MessagesTuple(m))) <==> (k, id) in OpenNext(OpenIds(o), MessagesTuple(m))
  {
    OpensNextTyped(o, MessagesTuple(m));
    OpenIdsHas(o, k, id);
    OpenIdsHas(OpensNext(o, MessagesTuple(m)), k, id);
    if m.Ai? { ReasoningIdIsMain(MessageId(m)); }
  }

  lemma SubagentNextHas(o: Opens, e: Entry, k: Kind, id: string)
    requires Typed(o) && (e.TokenChunk? || e.ThinkingChunk? || e.TaskTerminal?)
    ensures (k, id) in OpenIds(OpensNext(o, e)) <==> (k, id) in OpenNext(OpenIds(o), e)
  {
    OpensNextTyped(o, e);
    OpenIdsHas(o, k, id);
    OpenIdsHas(OpensNext(o, e), k, id);
    SubIdsAreSub(e.task);
  }

  /** One id under one entry, on either side. */
  lemma NextHas(o: Opens, e: Entry, k: Kind, id: string)
    requires Typed(o)
    ensures (k, id) in OpenIds(OpensNext(o, e)) <==> (k, id) in OpenNext(OpenIds(o), e)
  {
    if e.MessagesTuple? { MessageNextHas(o, e.message, k, id); }
    else if e.TokenChunk? || e.ThinkingChunk? || e.TaskTerminal? { SubagentNextHas(o, e, k, id); }
    else if e.EndOfRun? { OpenIdsHas(CLOSED, k, id); }
  }

  lemma NextIsNext(o: Opens, e: Entry)
    requires Typed(o)
    ensures OpenIds(OpensNext(o, e)) == OpenNext(OpenIds(o), e)
  {
    forall k, id ensures (k, id) in OpenIds(OpensNext(o, e)) <==> (k, id) in OpenNext(OpenIds(o), e) {
      NextHas(o, e, k, id);
    }
    assert forall x :: x in OpenIds(OpensNext(o, e)) ==> (x.0, x.1) in OpenNext(OpenIds(o), e);
    assert forall x :: x in OpenNext(OpenIds(o), e) ==> (x.0, x.1) in OpenIds(OpensNext(o, e));
  }

  // ---- replaying a batch ------------------------------------------------------------------------------------

  lemma {:induction false} ReplayAppend(o: Opens, x: seq<Event>, y: seq<Event>)
    ensures Replay(o, x + y) == Replay(Replay(o, x), y)
    decreases |y|
  {
    if y == [] {
      assert x + y == x;
    } else {
      var z, e := y[..|y| - 1], y[|y| - 1];
      ReplayAppend(o, x, z);
      assert y == z + [e];
      ConcatAssoc(x, z, [e]);
      ReplayPush(o, x + z, e);
    }
  }

  lemma ReplayEndIf(o: Opens, open: bool, rid: string)
    requires !Sub(rid) && (open <==> rid in o.reasoning)
    ensures Replay(o, EndIf(open, Reasoning, rid)) == o.(reasoning := o.reasoning - {rid})
  {
    if open { ReplayPush(o, [], End(Reasoning, rid)); assert [] + [End(Reasoning, rid)] == [End(Reasoning, rid)]; }
    else { assert o.reasoning - {rid} == o.reasoning; }
  }

  lemma ReplayEndText(o: Opens)
    requires Typed(o)
    ensures Replay(o, EndText(o)) == o.(text := None)
  {
    if o.text.Some? {
      ReplayPush(o, [], End(Text, o.text.value));
      assert [] + [End(Text, o.text.value)] == [End(Text, o.text.value)];
    }
  }

  lemma CallsReplay(s: Snap, m: Message)
    requires m.Ai? && Ok(s)
    ensures Replay(s.opens, AiCalls(s, m).events) ==
            s.opens.(text := None, reasoning := s.opens.reasoning - {ReasoningId(MessageId(m))})
  {
    var rid, o := ReasoningId(MessageId(m)), s.opens;
    ReasoningIdIsMain(MessageId(m));
    var open, closed := rid in o.reasoning, o.(reasoning := o.reasoning - {rid});
    var r := ToolCalls(s.(opens := closed), m.calls, MessageId(m));
    ReplayEndIf(o, open, rid);
    ReplayEndText(closed);
    assert EndText(closed) == EndText(o);
    ReplayAppend(o, EndIf(open, Reasoning, rid), EndText(o));
    ToolCallsShape(s.(opens := closed), m.calls, MessageId(m));
    ToolsOnlyReplay(closed.(text := None), r.events);
    ReplayAppend(o, EndIf(open, Reasoning, rid) + EndText(o), r.events);
  }

  lemma ThinkReplays(s: Snap, rid: string, reasoning: string)
    requires !Sub(rid)
    ensures Replay(s.opens, Think(s, rid, reasoning).events) == Think(s, rid, reasoning).snap.opens
  {
    var o := s.opens;
    if reasoning != "" {
      var delta := Delta(Get(s.reasons, rid), reasoning);
      var starting := rid !in o.reasoning;
      var head := StartIf(starting, Reasoning, rid);
      if starting {
        ReplayPush(o, [], Start(Reasoning, rid));
        assert [] + [Start(Reasoning, rid)] == [Start(Reasoning, rid)];
      } else {
        assert o.reasoning + {rid} == o.reasoning;
      }
      assert Replay(o, head) == o.(reasoning := o.reasoning + {rid});
      if delta == "" { assert head + [] == head; } else { ReplayPush(o, head, Content(Reasoning, rid, delta)); }
    }
  }

  lemma OpenTextReplays(o: Opens, p: Opens, id: string, content: string)
    requires Typed(p) && p.text == o.text
    ensures Replay(p, OpenText(o, id) + [Content(Text, id, content)]) ==
            if Sub(id) then p.(text := None, subText := p.subText + {id}) else p.(text := Some(id))
  {
    if o.text == Some(id) {
      assert OpenText(o, id) == [];
    } else {
      ReplayEndText(p);
      assert EndText(p) == EndText(o);
      ReplayPush(p, EndText(o), Start(Text, id));
    }
    ReplayPush(p, OpenText(o, id), Content(Text, id, content));
  }

  /** The part of a text chunk after its thinking. */
  lemma TextPartReplays(o: Opens, p: Opens, rid: string, thinking: bool, id: string, content: string)
    requires Typed(p) && p.text == o.text && !Sub(rid) && (thinking <==> rid in p.reasoning)
    ensures var q := p.(reasoning := p.reasoning - {rid});
      Replay(p, EndIf(thinking, Reasoning, rid) + (OpenText(o, id) + [Content(Text, id, content)])) ==
      if Sub(id) then q.(text := None, subText := p.subText + {id}) else q.(text := Some(id))
  {
    var q := p.(reasoning := p.reasoning - {rid});
    ReplayEndIf(p, thinking, rid);
    OpenTextReplays(o, q, id, content);
    ReplayAppend(p, EndIf(thinking, Reasoning, rid), OpenText(o, id) + [Content(Text, id, content)]);
  }

  lemma ThinkKeeps(s: Snap, rid: string, reasoning: string)
    ensures var t := Think(s, rid, reasoning).snap.opens;
      t.(reasoning := t.reasoning - {rid}) == s.opens.(reasoning := s.opens.reasoning - {rid})
  {
    var t := Think(s, rid, reasoning).snap.opens;
    assert t.reasoning - {rid} == s.opens.reasoning - {rid};
  }

  lemma TextParts(s: Snap, m: Message) returns (thinking: bool)
    requires m.Ai? && m.content != ""
    ensures var id, rid := MessageId(m), ReasoningId(MessageId(m));
      var t := Think(s, rid, m.reasoning);
      && (thinking <==> rid in t.snap.opens.reasoning)
      && AiText(s, m).events ==
         t.events + (EndIf(thinking, Reasoning, rid) + (OpenText(s.opens, id) + [Content(Text, id, m.content)]))
  {
    var id, rid := MessageId(m), ReasoningId(MessageId(m));
    var t := Think(s, rid, m.reasoning);
    thinking := rid in t.snap.opens.reasoning;
    AiTextSplits(s, m);
    Reassociated(t.events, EndIf(thinking, Reasoning, rid), OpenText(s.opens, id), [Content(Text, id, m.content)]);
  }

  lemma Reassociated<T>(w: seq<T>, x: seq<T>, y: seq<T>, z: seq<T>)
    ensures w + x + y + z == w + (x + (y + z))
  {
  }

  lemma TextReplays(s: Snap, m: Message)
    requires m.Ai? && m.calls == [] && Ok(s)
    ensures Replay(s.opens, AiText(s, m).events) == OpensNext(s.opens, MessagesTuple(m))
  {
    ReasoningIdIsMain(MessageId(m));
    if m.content == "" {
      ThinkReplays(s, ReasoningId(MessageId(m)), m.reasoning);
    } else {
      TalkReplays(s, m, MessageId(m), ReasoningId(MessageId(m)));
    }
  }

  lemma TalkReplays(s: Snap, m: Message, id: string, rid: string)
    requires m.Ai? && m.content != "" && Ok(s) && id == MessageId(m) && rid == ReasoningId(id) && !Sub(rid)
    ensures var q := s.opens.(reasoning := s.opens.reasoning - {rid});
      Replay(s.opens, AiText(s, m).events) ==
      if Sub(id) then q.(text := None, subText := s.opens.subText + {id}) else q.(text := Some(id))
  {
    var thinking := TextParts(s, m);
    PartsReplay(s, rid, m.reasoning, thinking, id, m.content, AiText(s, m).events);
  }

  lemma PartsReplay(s: Snap, rid: string, reasoning: string, thinking: bool, id: string, content: string,
                    events: seq<Event>)
    requires Typed(s.opens) && !Sub(rid) && (thinking <==> rid in Think(s, rid, reasoning).snap.opens.reasoning)
    requires events == Think(s, rid, reasoning).events
                       + (EndIf(thinking, Reasoning, rid) + (OpenText(s.opens, id) + [Content(Text, id, content)]))
    ensures var q := s.opens.(reasoning := s.opens.reasoning - {rid});
      Replay(s.opens, events) ==
      if Sub(id) then q.(text := None, subText := s.opens.subText + {id}) else q.(text := Some(id))
  {
    var t := Think(s, rid, reasoning);
    ThinkReplays(s, rid, reasoning);
    ThinkKeeps(s, rid, reasoning);
    TextPartReplays(s.opens, t.snap.opens, rid, thinking, id, content);
    ReplayAppend(s.opens, t.events,
                 EndIf(thinking, Reasoning, rid) + (OpenText(s.opens, id) + [Content(Text, id, content)]));
  }

  /** Every entry opens and closes just these messages, whatever its ids. */
  lemma EntryOpens(s: Snap, e: Entry, order: seq<string>)
    requires Ok(s) && Lists(order, s.tools)
    ensures After(s, e, order).opens == OpensNext(s.opens, e)
  {
    if e.MessagesTuple? {
      MessageOpens(s, e.message);
    } else if e.ToolCallChunk? {
      SubCallFollows(s, Or(e.task, "subagent"), e.call);
    } else if e.ToolResultChunk? {
      var t := Or(e.task, "subagent");
      var id := SubCallId(t, e.rawCall, Or(e.name, "tool"));
      OutcomeShape(s, id, SUBAGENT + t + ":tool-result:" + id, e.content);
      ToolsOnlyReplay(s.opens, EntryBatch(s, e, order).events);
    } else if e.TokenChunk? {
      SubTokenFollows(s, e.task, e.content);
      Settles(s.opens, SubToken(s, e.task, e.content));
    } else if e.ThinkingChunk? {
      SubThinkingFollows(s, e.task, e.thinking);
      Settles(s.opens, SubThinking(s, e.task, e.thinking));
    } else if e.TaskTerminal? {
      SubTerminalFollows(s, e.name, e.task);
    } else if !e.EndOfRun? {
      NotesAreNeutral(s, e, order);
      NotesAreBuilt(s, EntryBatch(s, e, order).events);
    }
  }

  /** Replaying from where a mirroring helper left the fields changes nothing more. */
  lemma Settles(o: Opens, r: Batch)
    requires Typed(o) && Replay(o, r.events) == r.snap.opens && r.snap.opens.text == o.text
    ensures Replay(r.snap.opens, r.events) == r.snap.opens
  {
    MirrorsMention(o, r.events);
    HelperAgreesWithReplay(o, r.snap.opens, r.events);
  }

  lemma MessageOpens(s: Snap, m: Message)
    requires Ok(s)
    ensures Replayed(MessageBatch(s, m)).opens == OpensNext(s.opens, MessagesTuple(m))
  {
    match m {
      case Ai(_, _, _, _, calls) =>
        if calls != [] {
          AiCallsFollow(s, m);
          HelperAgreesWithReplay(s.opens, AiCalls(s, m).snap.opens, AiCalls(s, m).events);
          CallsReplay(s, m);
        } else {
          AiTextFollows(s, m);
          HelperAgreesWithReplay(s.opens, AiText(s, m).snap.opens, AiText(s, m).events);
          TextReplays(s, m);
        }
      case ToolMessage(_, _, call, content) =>
        if call != "" {
          OutcomeShape(s, call, MessageId(m), content);
          ToolsOnlyReplay(s.opens, MessageBatch(s, m).events);
        }
      case OtherMessage =>
    }
  }

  // ---- no END too many ------------------------------------------------------------------------------------------

  /** A message open before and after an entry is not ended in between. */
  ghost predicate EndsNothingKept(open: Ids, e: Entry, events: seq<Event>) {
    forall k, id :: (k, id) in open && (k, id) in OpenNext(open, e) ==> End(k, id) !in events
  }

  lemma CallsEnd(s: Snap, m: Message, x: Event)
    requires m.Ai? && x in AiCalls(s, m).events && x.End?
    ensures x == End(Reasoning, ReasoningId(MessageId(m))) || (s.opens.text.Some? && x == End(Text, s.opens.text.value))
  {
    var rid := ReasoningId(MessageId(m));
    ToolCallsShape(s.(opens := s.opens.(reasoning := s.opens.reasoning - {rid})), m.calls, MessageId(m));
  }

  lemma TextEnds(s: Snap, m: Message, x: Event)
    requires m.Ai? && x in AiText(s, m).events && x.End?
    ensures m.content != ""
    ensures x == End(Reasoning, ReasoningId(MessageId(m)))
            || (s.opens.text.Some? && s.opens.text.value != MessageId(m) && x == End(Text, s.opens.text.value))
  {
    var rid := ReasoningId(MessageId(m));
    if m.content != "" {
      var thinking := TextParts(s, m);
      assert x !in Think(s, rid, m.reasoning).events;
    }
  }

  lemma MessageEndsNothingKept(s: Snap, m: Message, k: Kind, id: string)
    requires m.Ai? && Ok(s) && End(k, id) in MessageBatch(s, m).events
    ensures (k, id) !in OpenNext(OpenIds(s.opens), MessagesTuple(m))
  {
    ReasoningIdIsMain(MessageId(m));
    if m.calls != [] { CallsEnd(s, m, End(k, id)); } else { TextEnds(s, m, End(k, id)); }
  }

  lemma TextEndsNothingKept(s: Snap, m: Message)
    requires m.Ai? && Ok(s)
    ensures EndsNothingKept(OpenIds(s.opens), MessagesTuple(m), MessageBatch(s, m).events)
  {
    forall k, id | End(k, id) in MessageBatch(s, m).events
      ensures (k, id) !in OpenNext(OpenIds(s.opens), MessagesTuple(m))
    {
      MessageEndsNothingKept(s, m, k, id);
    }
  }

  lemma SubagentEndsNothingKept(s: Snap, task: string, text: string)
    requires Ok(s)
    ensures EndsNothingKept(OpenIds(s.opens), TokenChunk(task, text), SubToken(s, task, text).events)
    ensures EndsNothingKept(OpenIds(s.opens), ThinkingChunk(task, text), SubThinking(s, task, text).events)
    ensures EndsNothingKept(OpenIds(s.opens), TaskTerminal(text, task), SubTerminal(s, text, task).events)
  {
    SubIdsAreSub(task);
  }

  lemma ToolsEndNothing(s: Snap, e: Entry, order: seq<string>)
    requires (e.MessagesTuple? && e.message.ToolMessage?) || e.ToolCallChunk? || e.ToolResultChunk?
    ensures forall x :: x in EntryBatch(s, e, order).events ==> !x.End?
  {
    if e.MessagesTuple? {
      OutcomeShape(s, e.message.call, MessageId(e.message), e.message.content);
    } else if e.ToolCallChunk? && e.call.ToolCall? {
      ToolCallsShape(s, [Namespaced(Or(e.task, "subagent"), e.call)], SUBAGENT + Or(e.task, "subagent"));
    }
  }

  lemma EndsNothingKeptAnywhere(s: Snap, e: Entry, order: seq<string>)
    requires Ok(s) && Lists(order, s.tools)
    ensures EndsNothingKept(OpenIds(s.opens), e, EntryBatch(s, e, order).events)
  {
    if e.MessagesTuple? && e.message.Ai? { TextEndsNothingKept(s, e.message); }
    else if (e.MessagesTuple? && e.message.ToolMessage?) || e.ToolCallChunk? || e.ToolResultChunk? {
      ToolsEndNothing(s, e, order);
    }
    else if e.TokenChunk? { SubagentEndsNothingKept(s, e.task, e.content); }
    else if e.ThinkingChunk? { SubagentEndsNothingKept(s, e.task, e.thinking); }
    else if e.TaskTerminal? { SubagentEndsNothingKept(s, e.task, e.name); }
  }

  /** The entry that completes a call: its result, or the end of the run. */
  predicate Answers(e: Entry, c: string) {
    match e
    case MessagesTuple(ToolMessage(_, _, call, _)) => c == call
    case ToolResultChunk(task, name, raw, _) =>
      c == SubCallId(if task != "" then task else "subagent", raw, if name != "" then name else "tool")
    case EndOfRun => true
    case _ => false
  }

  lemma EndsOnlyAnswered(s: Snap, e: Entry, order: seq<string>, c: string)
    requires ToolEnd(c) in EntryBatch(s, e, order).events
    ensures Answers(e, c)
  {
    if e.MessagesTuple? && e.message.Ai? {
      if e.message.calls != [] { AiCallsShape(s, e.message); } else { AiTextShape(s, e.message); }
    } else if e.ToolCallChunk? && e.call.ToolCall? {
      ToolCallsShape(s, [Namespaced(Or(e.task, "subagent"), e.call)], SUBAGENT + Or(e.task, "subagent"));
    }
  }

  /** Messages and calls are ended by what ends them, and by nothing else. */
  ghost predicate EndsRightly(open: Ids, e: Entry, events: seq<Event>) {
    EndsNothingKept(open, e, events) && forall c :: ToolEnd(c) in events ==> Answers(e, c)
  }

  // ---- one connection ------------------------------------------------------------------------------------------

  lemma AdvanceOpens(p: Progress, read: seq<Entry>, e: Entry, order: seq<string>)
    requires Ok(p.snap) && Lists(order, p.snap.tools) && OpenIds(p.snap.opens) == OpenAll(read)
    ensures OpenIds(Advance(p, e, order).snap.opens) == OpenAll(read + [e])
    ensures EndsRightly(OpenAll(read), e, Wire(p, e, order).sent)
  {
    EntryOpens(p.snap, e, order);
    NextIsNext(p.snap.opens, e);
    assert (read + [e])[..|read|] == read;
    EndsNothingKeptAnywhere(p.snap, e, order);
    var r := EntryBatch(p.snap, e, order);
    PassForwards(r.snap.opens, p.last, r.events);
    forall c | ToolEnd(c) in Wire(p, e, order).sent ensures Answers(e, c) { EndsOnlyAnswered(p.snap, e, order, c); }
  }
}

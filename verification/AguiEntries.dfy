/** Every kind of bridge entry: its batch, and that the batch keeps the stream well bracketed
    exactly when no main text chunk reuses an open subagent message id. */
module AguiEntries {
  import opened Common
  import opened AguiEvents
  import opened AguiStream
  import opened AguiTranslator

  function Note(name: string): seq<Event> { [Custom(name)] }

  // ---- subagent helpers ----------------------------------------------------------------------

  /** `_subagent_token_chunk_to_agui`. */
  function SubToken(s: Snap, task: string, content: string): Batch {
    var head := Note("deerflow.subagent.token_chunk");
    if task == "" || content == "" then Batch(s, head)
    else
      var rid, id := SubReasoning(task), SubText(task);
      Batch(s.(opens := s.opens.(subReasoning := s.opens.subReasoning - {rid}, subText := s.opens.subText + {id})),
            head + EndIf(rid in s.opens.subReasoning, Reasoning, rid)
            + StartIf(id !in s.opens.subText, Text, id) + [Content(Text, id, content)])
  }

  /** `_subagent_thinking_chunk_to_agui`. */
  function SubThinking(s: Snap, task: string, thinking: string): Batch {
    var head := Note("deerflow.subagent.thinking_chunk");
    if task == "" || thinking == "" then Batch(s, head)
    else
      var rid := SubReasoning(task);
      Batch(s.(opens := s.opens.(subReasoning := s.opens.subReasoning + {rid})),
            head + StartIf(rid !in s.opens.subReasoning, Reasoning, rid) + [Content(Reasoning, rid, thinking)])
  }

  /** `_subagent_terminal_event_to_agui`: leaves the sets alone; only the replay closes them. */
  function SubTerminal(s: Snap, name: string, task: string): Batch {
    var rid, id := SubReasoning(task), SubText(task);
    Batch(s, EndIf(task != "" && rid in s.opens.subReasoning, Reasoning, rid)
             + EndIf(task != "" && id in s.opens.subText, Text, id) + Note(name))
  }

  lemma SubIdsAreSub(task: string)
    ensures Sub(SubText(task)) && Sub(SubReasoning(task))
  {
    SubPrefix(task + ":message");
    SubPrefix(task + ":reasoning");
  }

  lemma GrowNote(b: Snap, events: seq<Event>, name: string)
    requires Building(b, b.args, b.tools, events)
    ensures Building(b, b.args, b.tools, events + Note(name))
    ensures Replay(b.opens, events + Note(name)) == Replay(b.opens, events)
  {
    Grow(b, b.args, b.tools, events, Custom(name));
  }

  /** A batch of message events and notes only. */
  ghost predicate MessagesOnly(events: seq<Event>) {
    forall e :: e in events ==> e.Start? || e.Content? || e.End? || e.Custom?
  }

  /** The note, and the end of the thinking that came before. */
  lemma SubTokenHead(s: Snap, task: string)
    requires Ok(s)
    ensures var rid := SubReasoning(task);
      var e1 := Note("deerflow.subagent.token_chunk") + EndIf(rid in s.opens.subReasoning, Reasoning, rid);
      && Building(s, s.args, s.tools, e1)
      && Replay(s.opens, e1) == s.opens.(subReasoning := s.opens.subReasoning - {rid})
  {
    EmptyBatch(s);
    SubIdsAreSub(task);
    DropsOne(s.opens, task);
    var rid, head := SubReasoning(task), Note("deerflow.subagent.token_chunk");
    GrowNote(s, [], "deerflow.subagent.token_chunk");
    assert [] + head == head;
    GrowEndIf(s, head, rid in s.opens.subReasoning, Reasoning, rid);
  }

  lemma SubTokenText(s: Snap, id: string, absent: bool, content: string, e1: seq<Event>)
    requires Building(s, s.args, s.tools, e1) && Replay(s.opens, e1).subText == s.opens.subText
    requires Sub(id) && (absent <==> id !in s.opens.subText)
    ensures var events := e1 + StartIf(absent, Text, id) + [Content(Text, id, content)];
      && Building(s, s.args, s.tools, events)
      && Replay(s.opens, events) == Replay(s.opens, e1).(subText := s.opens.subText + {id})
  {
    GrowStartIf(s, e1, absent, Text, id);
    var e2 := e1 + StartIf(absent, Text, id);
    assert Replay(s.opens, e2).subText == s.opens.subText + {id};
    Grow(s, s.args, s.tools, e2, Content(Text, id, content));
  }

  lemma SubTokenShape(s: Snap, task: string, content: string)
    ensures var r := SubToken(s, task, content); MessagesOnly(r.events) && r.snap == s.(opens := r.snap.opens)
  {
  }

  lemma SubTokenFollows(s: Snap, task: string, content: string)
    requires Ok(s)
    ensures var r := SubToken(s, task, content);
      && Building(s, s.args, s.tools, r.events) && MessagesOnly(r.events)
      && Replay(s.opens, r.events) == r.snap.opens
      && r.snap == s.(opens := r.snap.opens)
  {
    SubTokenShape(s, task, content);
    if task == "" || content == "" {
      EmptyBatch(s);
      GrowNote(s, [], "deerflow.subagent.token_chunk");
      assert [] + Note("deerflow.subagent.token_chunk") == Note("deerflow.subagent.token_chunk");
    } else {
      SubTokenHead(s, task);
      var thinking := SubReasoning(task) in s.opens.subReasoning;
      var e1 := Note("deerflow.subagent.token_chunk") + EndIf(thinking, Reasoning, SubReasoning(task));
      SubIdsAreSub(task);
      var absent := SubText(task) !in s.opens.subText;
      SubTokenText(s, SubText(task), absent, content, e1);
    }
  }

  lemma SubThinkingFollows(s: Snap, task: string, thinking: string)
    requires Ok(s)
    ensures var r := SubThinking(s, task, thinking);
      && Building(s, s.args, s.tools, r.events) && MessagesOnly(r.events)
      && Replay(s.opens, r.events) == r.snap.opens
      && r.snap == s.(opens := r.snap.opens) && r.snap.opens.subText == s.opens.subText
  {
    EmptyBatch(s);
    SubIdsAreSub(task);
    var head := Note("deerflow.subagent.thinking_chunk");
    GrowNote(s, [], "deerflow.subagent.thinking_chunk");
    assert [] + head == head;
    if task != "" && thinking != "" {
      var rid := SubReasoning(task);
      GrowStartIf(s, head, rid !in s.opens.subReasoning, Reasoning, rid);
      var e1 := head + StartIf(rid !in s.opens.subReasoning, Reasoning, rid);
      assert Replay(s.opens, e1) == s.opens.(subReasoning := s.opens.subReasoning + {rid});
      Grow(s, s.args, s.tools, e1, Content(Reasoning, rid, thinking));
    }
  }

  /** Without the open sets' help, END events drop just their ids. */
  lemma DropsOne(o: Opens, task: string)
    ensures SubReasoning(task) !in o.subReasoning ==> o.(subReasoning := o.subReasoning - {SubReasoning(task)}) == o
    ensures SubText(task) !in o.subText ==> o.(subText := o.subText - {SubText(task)}) == o
  {
    if SubReasoning(task) !in o.subReasoning { assert o.subReasoning - {SubReasoning(task)} == o.subReasoning; }
    if SubText(task) !in o.subText { assert o.subText - {SubText(task)} == o.subText; }
  }

  lemma SubReasoningEnds(s: Snap, task: string)
    requires Ok(s)
    ensures var e1 := EndIf(task != "" && SubReasoning(task) in s.opens.subReasoning, Reasoning, SubReasoning(task));
      && Building(s, s.args, s.tools, e1)
      && Replay(s.opens, e1) ==
         (if task == "" then s.opens else s.opens.(subReasoning := s.opens.subReasoning - {SubReasoning(task)}))
  {
    EmptyBatch(s);
    SubIdsAreSub(task);
    DropsOne(s.opens, task);
    var open := task != "" && SubReasoning(task) in s.opens.subReasoning;
    GrowEndIf(s, [], open, Reasoning, SubReasoning(task));
    assert [] + EndIf(open, Reasoning, SubReasoning(task)) == EndIf(open, Reasoning, SubReasoning(task));
  }

  lemma SubTextEnds(s: Snap, task: string, head: seq<Event>)
    requires Building(s, s.args, s.tools, head) && Replay(s.opens, head).subText == s.opens.subText
    ensures var events := head + EndIf(task != "" && SubText(task) in s.opens.subText, Text, SubText(task));
      && Building(s, s.args, s.tools, events)
      && Replay(s.opens, events) ==
         (if task == "" then Replay(s.opens, head)
          else Replay(s.opens, head).(subText := s.opens.subText - {SubText(task)}))
  {
    SubIdsAreSub(task);
    DropsOne(s.opens, task);
    GrowEndIf(s, head, task != "" && SubText(task) in s.opens.subText, Text, SubText(task));
  }

  lemma SubTerminalFollows(s: Snap, name: string, task: string)
    requires Ok(s)
    ensures var r := SubTerminal(s, name, task);
      && Building(s, s.args, s.tools, r.events) && MessagesOnly(r.events) && r.snap == s
      && Replay(s.opens, r.events) ==
         (if task == "" then s.opens
          else s.opens.(subReasoning := s.opens.subReasoning - {SubReasoning(task)},
                        subText := s.opens.subText - {SubText(task)}))
  {
    SubReasoningEnds(s, task);
    var e1 := EndIf(task != "" && SubReasoning(task) in s.opens.subReasoning, Reasoning, SubReasoning(task));
    SubTextEnds(s, task, e1);
    GrowNote(s, e1 + EndIf(task != "" && SubText(task) in s.opens.subText, Text, SubText(task)), name);
  }

  /** Helpers that fully mirror the replay differ from it in nothing it does not mention. */
  lemma MirrorsMention(o: Opens, events: seq<Event>)
    requires Typed(o)
    ensures Replay(o, events).text == o.text ==> DiffersAsMentioned(o, Replay(o, events), events)
  {
    ReplayKeepsTyped(o, events);
    if Replay(o, events).text == o.text { ReplayChangesMentioned(o, events); }
  }

  lemma ReplayOneChanges(o: Opens, p: Opens, e: Event, d: (Kind, string))
    requires d in Differences(o, ReplayOne(p, e))
    ensures d in Differences(o, p) || e == Start(d.0, d.1) || e == End(d.0, d.1)
  {
  }

  lemma {:induction false} ReplayChangesMentioned(o: Opens, events: seq<Event>)
    ensures forall d :: d in Differences(o, Replay(o, events)) ==> Mentioned(events, d.0, d.1)
    decreases |events|
  {
    if events == [] {
      assert Differences(o, o) == {};
    } else {
      var pre, e := events[..|events| - 1], events[|events| - 1];
      ReplayChangesMentioned(o, pre);
      assert e in events && forall x :: x in pre ==> x in events;
      forall d | d in Differences(o, Replay(o, events)) ensures Mentioned(events, d.0, d.1) {
        ReplayOneChanges(o, Replay(o, pre), e, d);
      }
    }
  }

  // ---- closing everything --------------------------------------------------------------------------

  function Ends(k: Kind, ids: seq<string>): seq<Event> {
    if ids == [] then [] else Ends(k, ids[..|ids| - 1]) + [End(k, ids[|ids| - 1])]
  }

  ghost predicate Distinct(ids: seq<string>) {
    forall i, j :: 0 <= i < j < |ids| ==> ids[i] != ids[j]
  }

  ghost function Drop(o: Opens, k: Kind, ids: seq<string>): Opens {
    var gone := set id | id in ids;
    if k == Text then o.(subText := o.subText - gone)
    else o.(reasoning := o.reasoning - gone, subReasoning := o.subReasoning - gone)
  }

  lemma {:induction false} EndsFollow(b: Snap, args: map<string, string>, tools: set<string>,
                                      head: seq<Event>, k: Kind, ids: seq<string>)
    requires Building(b, args, tools, head) && Distinct(ids)
    requires forall id :: id in ids ==> Fits(Replay(b.opens, head), End(k, id)) && (k == Text ==> Sub(id))
    ensures Building(b, args, tools, head + Ends(k, ids))
    ensures Replay(b.opens, head + Ends(k, ids)) == Drop(Replay(b.opens, head), k, ids)
    decreases |ids|
  {
    var o := Replay(b.opens, head);
    if ids == [] {
      assert head + [] == head;
      assert Drop(o, k, []) == o;
    } else {
      var pre, id := ids[..|ids| - 1], ids[|ids| - 1];
      assert id !in pre && id in ids && forall x :: x in ids <==> x in pre || x == id;
      EndsFollow(b, args, tools, head, k, pre);
      ReplayKeepsTyped(b.opens, head);
      assert Fits(Drop(o, k, pre), End(k, id));
      Grow(b, args, tools, head + Ends(k, pre), End(k, id));
      assert head + (Ends(k, pre) + [End(k, id)]) == (head + Ends(k, pre)) + [End(k, id)];
      DropOne(o, k, pre, id, ids);
    }
  }

  lemma DropOne(o: Opens, k: Kind, pre: seq<string>, id: string, ids: seq<string>)
    requires Typed(o) && (k == Text ==> Sub(id)) && forall x :: x in ids <==> x in pre || x == id
    ensures ReplayOne(Drop(o, k, pre), End(k, id)) == Drop(o, k, ids)
  {
    var a, c := set x | x in pre, set x | x in ids;
    assert c == a + {id};
    if k == Text {
      assert o.subText - a - {id} == o.subText - c;
    } else if Sub(id) {
      assert o.subReasoning - a - {id} == o.subReasoning - c && o.reasoning - a == o.reasoning - c;
    } else {
      assert o.reasoning - a - {id} == o.reasoning - c && o.subReasoning - a == o.subReasoning - c;
    }
  }

  /** `TOOL_CALL_ARGS` and `TOOL_CALL_END` for each call in `order`. */
  function CloseCalls(args: map<string, string>, order: seq<string>): seq<Event> {
    if order == [] then []
    else
      var c := order[|order| - 1];
      CloseCalls(args, order[..|order| - 1]) + [ToolArgs(c, Recall(args, c))] + [ToolEnd(c)]
  }

  lemma CloseOneMore(b: Snap, args: map<string, string>, tools: set<string>, head: seq<Event>,
                     calls: seq<Event>, c: string, text: string)
    requires Building(b, args, tools, head + calls) && c in tools
    ensures Building(b, args, tools - {c}, head + (calls + [ToolArgs(c, text)] + [ToolEnd(c)]))
    ensures Replay(b.opens, head + (calls + [ToolArgs(c, text)] + [ToolEnd(c)])) == Replay(b.opens, head + calls)
  {
    GrowClosing(b, args, tools, head + calls, c, text);
    var e1, e2 := ToolArgs(c, text), ToolEnd(c);
    assert head + (calls + [e1] + [e2]) == (head + calls) + [e1] + [e2];
  }

  lemma {:induction false} CloseCallsFollow(b: Snap, args: map<string, string>, tools: set<string>,
                                            head: seq<Event>, order: seq<string>)
    requires Building(b, args, tools, head) && Distinct(order) && forall c :: c in order ==> c in tools
    ensures var gone := set c | c in order;
      Building(b, args, tools - gone, head + CloseCalls(args, order))
    ensures Replay(b.opens, head + CloseCalls(args, order)) == Replay(b.opens, head)
    decreases |order|
  {
    if order == [] {
      assert head + [] == head;
      assert tools - {} == tools;
    } else {
      var pre, c := order[..|order| - 1], order[|order| - 1];
      assert c !in pre && c in order && forall x :: x in order <==> x in pre || x == c;
      CloseCallsFollow(b, args, tools, head, pre);
      var gone := set x | x in pre;
      CloseOneMore(b, args, tools - gone, head, CloseCalls(args, pre), c, Recall(args, c));
      assert tools - gone - {c} == tools - (set x | x in order);
    }
  }

  /** `order` lists the open calls, each once; the source takes whatever order its set has. */
  ghost predicate Lists(order: seq<string>, ids: set<string>) {
    Distinct(order) && forall c :: c in order <==> c in ids
  }

  const CLOSED := Opens(None, {}, {}, {})

  /** The END events of every open message: main reasoning, subagent reasoning, text, subagent text. */
  function CloseMessages(o: Opens): seq<Event> {
    Ends(Reasoning, SortedIds(o.reasoning)) + Ends(Reasoning, SortedIds(o.subReasoning))
    + EndText(o) + Ends(Text, SortedIds(o.subText))
  }

  lemma CloseMainReasoningFollows(b: Snap, args: map<string, string>, tools: set<string>, head: seq<Event>)
    requires Building(b, args, tools, head) && Replay(b.opens, head) == b.opens
    ensures var events := head + Ends(Reasoning, SortedIds(b.opens.reasoning));
      && Building(b, args, tools, events)
      && Replay(b.opens, events) == b.opens.(reasoning := {})
  {
    var rs := SortedIds(b.opens.reasoning);
    EndsFollow(b, args, tools, head, Reasoning, rs);
    DropAllReasoning(b.opens, rs);
  }

  lemma CloseReasoningsFollow(b: Snap, args: map<string, string>, tools: set<string>, head: seq<Event>)
    requires Building(b, args, tools, head) && Replay(b.opens, head) == b.opens
    ensures var events := head + Ends(Reasoning, SortedIds(b.opens.reasoning))
                          + Ends(Reasoning, SortedIds(b.opens.subReasoning));
      && Building(b, args, tools, events)
      && Replay(b.opens, events) == b.opens.(reasoning := {}, subReasoning := {})
  {
    CloseMainReasoningFollows(b, args, tools, head);
    var ss := SortedIds(b.opens.subReasoning);
    EndsFollow(b, args, tools, head + Ends(Reasoning, SortedIds(b.opens.reasoning)), Reasoning, ss);
    DropAllSub(b.opens.(reasoning := {}), ss);
  }

  lemma DropAllText(o: Opens, ids: seq<string>)
    requires forall id :: id in ids <==> id in o.subText
    ensures Drop(o, Text, ids) == o.(subText := {})
  {
    var gone := set id | id in ids;
    assert gone == o.subText;
  }

  lemma CloseTextsFollow(b: Snap, args: map<string, string>, tools: set<string>, head: seq<Event>)
    requires Building(b, args, tools, head) && Replay(b.opens, head) == b.opens.(reasoning := {}, subReasoning := {})
    ensures var events := head + EndText(b.opens) + Ends(Text, SortedIds(b.opens.subText));
      Building(b, args, tools, events) && Replay(b.opens, events) == CLOSED
  {
    var o, ts := b.opens, SortedIds(b.opens.subText);
    GrowEndText(b, args, tools, head);
    EndsFollow(b, args, tools, head + EndText(o), Text, ts);
    DropAllText(Opens(None, o.subText, {}, {}), ts);
  }

  lemma CloseMessagesFollow(b: Snap, args: map<string, string>, tools: set<string>, head: seq<Event>)
    requires Building(b, args, tools, head) && Replay(b.opens, head) == b.opens
    ensures Building(b, args, tools, head + CloseMessages(b.opens))
    ensures Replay(b.opens, head + CloseMessages(b.opens)) == CLOSED
  {
    CloseReasoningsFollow(b, args, tools, head);
    var o := b.opens;
    var x, y := Ends(Reasoning, SortedIds(o.reasoning)), Ends(Reasoning, SortedIds(o.subReasoning));
    var middle := head + x + y;
    CloseTextsFollow(b, args, tools, middle);
    CloseSplit(head, o);
  }

  lemma CloseSplit(head: seq<Event>, o: Opens)
    ensures head + CloseMessages(o) == head + Ends(Reasoning, SortedIds(o.reasoning))
              + Ends(Reasoning, SortedIds(o.subReasoning)) + EndText(o) + Ends(Text, SortedIds(o.subText))
  {
    var x, y := Ends(Reasoning, SortedIds(o.reasoning)), Ends(Reasoning, SortedIds(o.subReasoning));
    FourParts(head, x, y, EndText(o));
    ConcatAssoc(head, x + y + EndText(o), Ends(Text, SortedIds(o.subText)));
  }

  lemma DropAllReasoning(o: Opens, ids: seq<string>)
    requires Typed(o) && forall id :: id in ids <==> id in o.reasoning
    ensures Drop(o, Reasoning, ids) == o.(reasoning := {})
  {
    var gone := set id | id in ids;
    assert o.reasoning - gone == {} && o.subReasoning - gone == o.subReasoning;
  }

  lemma DropAllSub(o: Opens, ids: seq<string>)
    requires o.reasoning == {} && forall id :: id in ids <==> id in o.subReasoning
    ensures Drop(o, Reasoning, ids) == o.(subReasoning := {})
  {
    var gone := set id | id in ids;
    assert o.subReasoning - gone == {} && o.reasoning - gone == {};
  }
}

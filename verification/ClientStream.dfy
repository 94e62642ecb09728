/** The client's stream consumer (deerflow/client.py): two LangGraph modes carry the same messages,
    and each must reach the caller once, with its tokens counted once. The consumer remembers ids
    in three sets; here is also what it should say about an item by looking only at the items
    before it, and that the two agree for every sequence of items. */
module ClientStream {
  import opened Common

  datatype Usage = Usage(input: nat, output: nat, total: nat)

  const NOTHING := Usage(0, 0, 0)

  function Plus(a: Usage, b: Usage): Usage { Usage(a.input + b.input, a.output + b.output, a.total + b.total) }

  /** `_lead_usage_from_metadata`. */
  function LeadUsage(u: Usage): Usage { u.(total := u.input + u.output) }

  /** A message; "" is a missing id, None an absent or empty usage. */
  datatype Message =
    | Ai(id: string, text: string, reasoning: string, usage: Option<Usage>, calls: seq<string>)
    | Tool(id: string, content: string)
    | Other(id: string)

  /** `top` is false for items of a subgraph. A values item that is no state dict is Unreadable. */
  datatype Item =
    | CustomItem
    | Chunk(top: bool, message: Message)
    | State(top: bool, messages: seq<Message>)
    | Unreadable

  datatype Out =
    | CustomOut
    | TextOut(id: string, text: string, reasoning: string, usage: Option<Usage>, delta: bool)
    | CallsOut(id: string, calls: seq<string>)
    | ToolOut(id: string, content: string)
    | ValuesOut(messages: seq<Message>)

  // ---- what the consumer does --------------------------------------------------------------

  /** The consumer's bookkeeping at one moment. */
  datatype Marks = Marks(seen: set<string>, streamed: set<string>, counted: set<string>,
                         total: Usage, lead: Option<Usage>)

  function Mark(ids: set<string>, id: string): set<string> { if id == "" then ids else ids + {id} }

  predicate Counts(s: Marks, id: string, usage: Option<Usage>) {
    usage.Some? && (id == "" || id !in s.counted)
  }

  /** `_account_usage` and the lead usage recorded beside it. */
  function Account(s: Marks, top: bool, id: string, usage: Option<Usage>): Marks {
    if usage.None? then s
    else
      var a := if !Counts(s, id, usage) then s
               else s.(counted := Mark(s.counted, id), total := Plus(s.total, usage.value));
      if top then a.(lead := Some(LeadUsage(usage.value))) else a
  }

  datatype Emit = Emit(marks: Marks, out: seq<Out>)

  /** The parts of an item, in the order the consumer meets them. */
  datatype Part =
    | Passed
    | Piece(top: bool, message: Message)
    | Listed(top: bool, message: Message)
    | Whole(messages: seq<Message>)

  function ListParts(top: bool, messages: seq<Message>): seq<Part> {
    if messages == [] then []
    else ListParts(top, messages[..|messages| - 1]) + [Listed(top, messages[|messages| - 1])]
  }

  function Parts(item: Item): seq<Part> {
    match item
    case CustomItem => [Passed]
    case Chunk(top, message) => [Piece(top, message)]
    case State(top, messages) => ListParts(top, messages) + [Whole(messages)]
    case Unreadable => []
  }

  function AllParts(items: seq<Item>): seq<Part> {
    if items == [] then [] else AllParts(items[..|items| - 1]) + Parts(items[|items| - 1])
  }

  function CallsIf(id: string, calls: seq<string>): seq<Out> { if calls == [] then [] else [CallsOut(id, calls)] }

  function TextIf(m: Message, usage: Option<Usage>, delta: bool): seq<Out>
    requires m.Ai?
  {
    if m.text == "" && m.reasoning == "" then [] else [TextOut(m.id, m.text, m.reasoning, usage, delta)]
  }

  function CountedUsage(s: Marks, m: Message): Option<Usage>
    requires m.Ai?
  {
    if Counts(s, m.id, m.usage) then m.usage else None
  }

  /** A messages-mode chunk. */
  function OnPiece(s: Marks, top: bool, m: Message): Emit {
    match m
    case Ai(id, text, reasoning, usage, _) =>
      var a := Account(s, top, id, usage);
      Emit(if text == "" && reasoning == "" then a else a.(streamed := Mark(a.streamed, id)),
           TextIf(m, CountedUsage(s, m), true))
    case Tool(id, content) => Emit(s.(streamed := Mark(s.streamed, id)), [ToolOut(id, content)])
    case Other(_) => Emit(s, [])
  }

  /** One message of a values-mode state. */
  function OnListed(s: Marks, top: bool, m: Message): Emit {
    if m.id in s.seen then Emit(s, [])
    else
      var t := s.(seen := Mark(s.seen, m.id));
      if m.id in s.streamed then
        (if m.Ai? then Emit(Account(t, top, m.id, m.usage), CallsIf(m.id, m.calls)) else Emit(t, []))
      else
        match m
        case Ai(id, _, _, usage, calls) =>
          Emit(Account(t, top, id, usage), CallsIf(id, calls) + TextIf(m, CountedUsage(t, m), false))
        case Tool(id, content) => Emit(t, [ToolOut(id, content)])
        case Other(_) => Emit(t, [])
  }

  function OnPart(s: Marks, p: Part): Emit {
    match p
    case Passed => Emit(s, [CustomOut])
    case Piece(top, m) => OnPiece(s, top, m)
    case Listed(top, m) => OnListed(s, top, m)
    case Whole(messages) => Emit(s, [ValuesOut(messages)])
  }

  function Consume(s: Marks, parts: seq<Part>): Emit {
    if parts == [] then Emit(s, [])
    else
      var before := Consume(s, parts[..|parts| - 1]);
      var e := OnPart(before.marks, parts[|parts| - 1]);
      Emit(e.marks, before.out + e.out)
  }

  /** The messages of a state are met one by one in its order, and then the state itself. */
  lemma {:induction false} StatesAreListed(top: bool, messages: seq<Message>)
    ensures var parts := Parts(State(top, messages));
      && |parts| == |messages| + 1 && parts[|messages|] == Whole(messages)
      && forall i :: 0 <= i < |messages| ==> parts[i] == Listed(top, messages[i])
    decreases |messages|
  {
    if messages != [] { StatesAreListed(top, messages[..|messages| - 1]); }
  }

  lemma ConsumeOne(s: Marks, p: Part)
    ensures Consume(s, [p]) == OnPart(s, p)
  {
    assert [p][..0] == [];
  }

  lemma ConsumePush(s: Marks, parts: seq<Part>, p: Part)
    ensures var before := Consume(s, parts);
      Consume(s, parts + [p]) == Emit(OnPart(before.marks, p).marks, before.out + OnPart(before.marks, p).out)
  {
    assert (parts + [p])[..|parts|] == parts;
  }

  lemma {:induction false} ConsumeAppend(s: Marks, x: seq<Part>, y: seq<Part>)
    ensures var head := Consume(s, x);
      var tail := Consume(head.marks, y);
      Consume(s, x + y) == Emit(tail.marks, head.out + tail.out)
    decreases |y|
  {
    var head := Consume(s, x);
    if y == [] {
      assert x + y == x && head.out + [] == head.out;
    } else {
      var z, p := y[..|y| - 1], y[|y| - 1];
      ConsumeAppend(s, x, z);
      ConsumePush(s, x + z, p);
      ConsumePush(head.marks, z, p);
      assert y == z + [p];
      ConcatAssoc(x, z, [p]);
      var middle := Consume(head.marks, z);
      ConcatAssoc(head.out, middle.out, OnPart(middle.marks, p).out);
    }
  }

  /** The bookkeeping of a new turn: only the checkpoint's ids are seen. */
  function Seeded(checkpoint: set<string>): Marks { Marks(checkpoint, {}, {}, NOTHING, None) }

  // ---- what it should say, from the parts alone ---------------------------------------------

  /** The message id of a part, "" when it has none. */
  function IdOf(p: Part): string {
    match p
    case Passed => ""
    case Whole(_) => ""
    case Piece(_, m) => m.id
    case Listed(_, m) => m.id
  }

  /** A listed message already in the checkpoint or in an earlier state. */
  ghost predicate Repeated(seed: set<string>, parts: seq<Part>, i: nat)
    requires i < |parts|
  {
    && parts[i].Listed? && IdOf(parts[i]) != ""
    && (IdOf(parts[i]) in seed || exists j :: 0 <= j < i && parts[j].Listed? && IdOf(parts[j]) == IdOf(parts[i]))
  }

  /** A chunk that delivers something of its message. */
  predicate Delivers(p: Part) {
    p.Piece? && (p.message.Tool? || (p.message.Ai? && (p.message.text != "" || p.message.reasoning != "")))
  }

  ghost predicate StreamedBefore(parts: seq<Part>, i: nat)
    requires i < |parts|
  {
    IdOf(parts[i]) != "" && exists j :: 0 <= j < i && Delivers(parts[j]) && IdOf(parts[j]) == IdOf(parts[i])
  }

  /** An AI message met with token usage. */
  ghost predicate ShowsUsage(seed: set<string>, parts: seq<Part>, i: nat)
    requires i < |parts|
  {
    && (parts[i].Piece? || parts[i].Listed?) && parts[i].message.Ai? && parts[i].message.usage.Some?
    && !Repeated(seed, parts, i)
  }

  /** The first usage of its id, or usage without an id. */
  ghost predicate FirstUsage(seed: set<string>, parts: seq<Part>, i: nat)
    requires i < |parts|
  {
    && ShowsUsage(seed, parts, i)
    && (IdOf(parts[i]) == "" || forall j :: 0 <= j < i && ShowsUsage(seed, parts, j) ==>
         IdOf(parts[j]) != IdOf(parts[i]))
  }

  ghost function UsageSum(seed: set<string>, parts: seq<Part>, n: nat): Usage
    requires n <= |parts|
  {
    if n == 0 then NOTHING
    else
      var before := UsageSum(seed, parts, n - 1);
      if !FirstUsage(seed, parts, n - 1) then before
      else
        var u := parts[n - 1].message.usage.value;
        Usage(before.input + u.input, before.output + u.output, before.total + u.total)
  }

  ghost function LastLead(seed: set<string>, parts: seq<Part>, n: nat): Option<Usage>
    requires n <= |parts|
  {
    if n == 0 then None
    else if ShowsUsage(seed, parts, n - 1) && parts[n - 1].top then
      var u := parts[n - 1].message.usage.value;
      Some(Usage(u.input, u.output, u.input + u.output))
    else LastLead(seed, parts, n - 1)
  }

  /** What part `i` should make the caller see. */
  ghost function Shown(seed: set<string>, parts: seq<Part>, i: nat): seq<Out>
    requires i < |parts|
  {
    var p := parts[i];
    match p
    case Passed => [CustomOut]
    case Whole(messages) => [ValuesOut(messages)]
    case Piece(_, m) =>
      (match m
       case Ai(id, text, reasoning, usage, _) =>
         if text == "" && reasoning == "" then []
         else [TextOut(id, text, reasoning, if FirstUsage(seed, parts, i) then usage else None, true)]
       case Tool(id, content) => [ToolOut(id, content)]
       case Other(_) => [])
    case Listed(_, m) =>
      if Repeated(seed, parts, i) then []
      else
        match m
        case Ai(id, text, reasoning, usage, calls) =>
          (if calls == [] then [] else [CallsOut(id, calls)])
          + (if StreamedBefore(parts, i) || (text == "" && reasoning == "") then []
             else [TextOut(id, text, reasoning, if FirstUsage(seed, parts, i) then usage else None, false)])
        case Tool(id, content) => if StreamedBefore(parts, i) then [] else [ToolOut(id, content)]
        case Other(_) => []
  }

  ghost function ShownUpTo(seed: set<string>, parts: seq<Part>, n: nat): seq<Out>
    requires n <= |parts|
  {
    if n == 0 then [] else ShownUpTo(seed, parts, n - 1) + Shown(seed, parts, n - 1)
  }

  // ---- the two agree ---------------------------------------------------------------------------

  ghost predicate ListedBy(parts: seq<Part>, n: nat, id: string)
    requires n <= |parts|
  {
    exists j :: 0 <= j < n && parts[j].Listed? && IdOf(parts[j]) == id
  }

  ghost predicate DeliveredBy(parts: seq<Part>, n: nat, id: string)
    requires n <= |parts|
  {
    exists j :: 0 <= j < n && Delivers(parts[j]) && IdOf(parts[j]) == id
  }

  ghost predicate UsedBy(seed: set<string>, parts: seq<Part>, n: nat, id: string)
    requires n <= |parts|
  {
    exists j :: 0 <= j < n && ShowsUsage(seed, parts, j) && IdOf(parts[j]) == id
  }

  /** What the three sets and the totals mean in terms of the parts so far. */
  ghost predicate Remembers(seed: set<string>, parts: seq<Part>, n: nat, s: Marks)
    requires n <= |parts|
  {
    && (forall id :: id in s.seen <==> (id != "" && (id in seed || ListedBy(parts, n, id))))
    && (forall id :: id in s.streamed <==> (id != "" && DeliveredBy(parts, n, id)))
    && (forall id :: id in s.counted <==> (id != "" && UsedBy(seed, parts, n, id)))
    && s.total == UsageSum(seed, parts, n)
    && s.lead == LastLead(seed, parts, n)
  }

  lemma OneMorePart(seed: set<string>, parts: seq<Part>, n: nat, id: string)
    requires n < |parts|
    ensures ListedBy(parts, n + 1, id) <==> ListedBy(parts, n, id) || (parts[n].Listed? && IdOf(parts[n]) == id)
    ensures DeliveredBy(parts, n + 1, id) <==> DeliveredBy(parts, n, id) || (Delivers(parts[n]) && IdOf(parts[n]) == id)
    ensures UsedBy(seed, parts, n + 1, id) <==>
            UsedBy(seed, parts, n, id) || (ShowsUsage(seed, parts, n) && IdOf(parts[n]) == id)
  {
  }

  lemma RememberedMeans(seed: set<string>, parts: seq<Part>, i: nat, s: Marks)
    requires i < |parts| && Remembers(seed, parts, i, s)
    requires parts[i].Piece? || parts[i].Listed?
    ensures parts[i].Listed? ==> (IdOf(parts[i]) in s.seen <==> Repeated(seed, parts, i))
    ensures IdOf(parts[i]) in s.streamed <==> StreamedBefore(parts, i)
    ensures parts[i].message.Ai? && !Repeated(seed, parts, i) ==>
              (Counts(s, IdOf(parts[i]), parts[i].message.usage) <==> FirstUsage(seed, parts, i))
  {
  }

  lemma PartShows(seed: set<string>, parts: seq<Part>, i: nat, s: Marks)
    requires i < |parts| && Remembers(seed, parts, i, s)
    ensures OnPart(s, parts[i]).out == Shown(seed, parts, i)
  {
    if parts[i].Piece? || parts[i].Listed? {
      RememberedMeans(seed, parts, i, s);
    }
  }

  /** How one part changes the marks. */
  lemma MarksMove(s: Marks, p: Part)
    ensures var t, id := OnPart(s, p).marks, IdOf(p);
      && t.seen == (if p.Listed? then Mark(s.seen, id) else s.seen)
      && t.streamed == (if Delivers(p) then Mark(s.streamed, id) else s.streamed)
      && (t.counted == if (p.Piece? || (p.Listed? && id !in s.seen)) && p.message.Ai? && p.message.usage.Some?
                       then Mark(s.counted, id) else s.counted)
  {
  }

  lemma SetsMove(seed: set<string>, parts: seq<Part>, i: nat, s: Marks)
    requires i < |parts| && Remembers(seed, parts, i, s)
    ensures var t := OnPart(s, parts[i]).marks;
      && (forall id :: id in t.seen <==> (id != "" && (id in seed || ListedBy(parts, i + 1, id))))
      && (forall id :: id in t.streamed <==> (id != "" && DeliveredBy(parts, i + 1, id)))
      && (forall id :: id in t.counted <==> (id != "" && UsedBy(seed, parts, i + 1, id)))
  {
    MarksMove(s, parts[i]);
    if parts[i].Piece? || parts[i].Listed? { RememberedMeans(seed, parts, i, s); }
    var t := OnPart(s, parts[i]).marks;
    forall id
      ensures id in t.seen <==> (id != "" && (id in seed || ListedBy(parts, i + 1, id)))
      ensures id in t.streamed <==> (id != "" && DeliveredBy(parts, i + 1, id))
      ensures id in t.counted <==> (id != "" && UsedBy(seed, parts, i + 1, id))
    {
      OneMorePart(seed, parts, i, id);
    }
  }

  lemma TotalsMove(seed: set<string>, parts: seq<Part>, i: nat, s: Marks)
    requires i < |parts| && Remembers(seed, parts, i, s)
    ensures var t := OnPart(s, parts[i]).marks;
      t.total == UsageSum(seed, parts, i + 1) && t.lead == LastLead(seed, parts, i + 1)
  {
    if parts[i].Piece? || parts[i].Listed? { RememberedMeans(seed, parts, i, s); }
  }

  lemma PartRemembers(seed: set<string>, parts: seq<Part>, i: nat, s: Marks)
    requires i < |parts| && Remembers(seed, parts, i, s)
    ensures Remembers(seed, parts, i + 1, OnPart(s, parts[i]).marks)
  {
    SetsMove(seed, parts, i, s);
    TotalsMove(seed, parts, i, s);
  }

  /** For every sequence of parts the consumer says exactly what each part should show, and its
      totals are the first usage of every id plus all usage without an id. */
  lemma {:induction false} ConsumerIsExact(seed: set<string>, parts: seq<Part>, n: nat)
    requires n <= |parts| && "" !in seed
    ensures var e := Consume(Seeded(seed), parts[..n]);
      Remembers(seed, parts, n, e.marks) && e.out == ShownUpTo(seed, parts, n)
  {
    if n > 0 {
      ConsumerIsExact(seed, parts, n - 1);
      var before := Consume(Seeded(seed), parts[..n - 1]).marks;
      assert parts[..n][..n - 1] == parts[..n - 1];
      PartShows(seed, parts, n - 1, before);
      PartRemembers(seed, parts, n - 1, before);
    } else {
      assert parts[..0] == [];
    }
  }

  // ---- what callers rely on ----------------------------------------------------------------------

  predicate Speaks(o: Out, id: string) {
    match o
    case TextOut(i, _, _, _, _) => i == id
    case CallsOut(i, _) => i == id
    case ToolOut(i, _) => i == id
    case CustomOut => false
    case ValuesOut(_) => false
  }

  /** Messages of earlier turns, however often a state lists them, are never said again. */
  lemma {:induction false} CheckpointStaysSilent(seed: set<string>, parts: seq<Part>, id: string)
    requires id in seed && forall p :: p in parts && p.Piece? ==> IdOf(p) != id
    ensures id in Consume(Seeded(seed), parts).marks.seen
    ensures forall o :: o in Consume(Seeded(seed), parts).out ==> !Speaks(o, id)
    decreases |parts|
  {
    if parts != [] {
      var pre, p := parts[..|parts| - 1], parts[|parts| - 1];
      assert p in parts && forall q :: q in pre ==> q in parts;
      CheckpointStaysSilent(seed, pre, id);
      MarksMove(Consume(Seeded(seed), pre).marks, p);
    }
  }

  /** The events of one kind about one message. */
  function CallsAbout(out: seq<Out>, id: string): seq<Out> {
    if out == [] then []
    else
      var o := out[|out| - 1];
      CallsAbout(out[..|out| - 1], id) + if o.CallsOut? && o.id == id then [o] else []
  }

  function TextsAbout(out: seq<Out>, id: string): seq<Out> {
    if out == [] then []
    else
      var o := out[|out| - 1];
      TextsAbout(out[..|out| - 1], id) + if o.TextOut? && o.id == id then [o] else []
  }

  lemma CallsPush(out: seq<Out>, o: Out, id: string)
    ensures CallsAbout(out + [o], id) == CallsAbout(out, id) + if o.CallsOut? && o.id == id then [o] else []
  {
    assert (out + [o])[..|out|] == out;
  }

  lemma TextsPush(out: seq<Out>, o: Out, id: string)
    ensures TextsAbout(out + [o], id) == TextsAbout(out, id) + if o.TextOut? && o.id == id then [o] else []
  {
    assert (out + [o])[..|out|] == out;
  }

  /** Nothing, one thing, or tool calls and then text. */
  predicate Brief(out: seq<Out>) {
    && |out| <= 2
    && (|out| == 2 ==> out[0].CallsOut? && out[1].TextOut?)
  }

  lemma PartIsBrief(s: Marks, p: Part)
    ensures Brief(OnPart(s, p).out)
  {
  }

  lemma CallsBrief(out: seq<Out>, more: seq<Out>, id: string)
    requires Brief(more)
    ensures CallsAbout(out + more, id) ==
            CallsAbout(out, id) + if more != [] && more[0].CallsOut? && more[0].id == id then [more[0]] else []
  {
    if more == [] {
      assert out + more == out;
    } else {
      CallsPush(out, more[0], id);
      if |more| == 2 {
        CallsPush(out + [more[0]], more[1], id);
        assert out + more == out + [more[0]] + [more[1]];
      } else {
        assert out + more == out + [more[0]];
      }
    }
  }

  lemma TextsBrief(out: seq<Out>, more: seq<Out>, id: string)
    requires Brief(more)
    ensures TextsAbout(out + more, id) == TextsAbout(out, id)
              + if more != [] && more[|more| - 1].TextOut? && more[|more| - 1].id == id then [more[|more| - 1]] else []
  {
    if more == [] {
      assert out + more == out;
    } else {
      TextsPush(out, more[0], id);
      if |more| == 2 {
        TextsPush(out + [more[0]], more[1], id);
        assert out + more == out + [more[0]] + [more[1]];
      } else {
        assert out + more == out + [more[0]];
      }
    }
  }

  /** What a part says of an identified message, it says first, and marks. */
  lemma PartMarks(s: Marks, p: Part, id: string)
    requires id != ""
    ensures var e := OnPart(s, p);
      && (e.out != [] && e.out[0].CallsOut? && e.out[0].id == id ==> id !in s.seen && id in e.marks.seen)
      && (e.out != [] && e.out[|e.out| - 1].TextOut? && e.out[|e.out| - 1].id == id ==>
            (id in e.marks.seen || id in e.marks.streamed)
            && (e.out[|e.out| - 1].delta || (id !in s.seen && id !in s.streamed)))
      && s.seen <= e.marks.seen && s.streamed <= e.marks.streamed
  {
    MarksMove(s, p);
  }

  /** At most one tool-calls event about `id`, and after its first text only deltas. */
  ghost predicate Quiet(e: Emit, id: string) {
    var calls, texts := CallsAbout(e.out, id), TextsAbout(e.out, id);
    && |calls| <= 1 && (calls != [] ==> id in e.marks.seen)
    && (forall k :: 0 < k < |texts| ==> texts[k].TextOut? && texts[k].delta)
    && (texts != [] ==> id in e.marks.seen || id in e.marks.streamed)
  }

  lemma StaysQuiet(before: Emit, p: Part, id: string)
    requires id != "" && Quiet(before, id)
    ensures var e := OnPart(before.marks, p); Quiet(Emit(e.marks, before.out + e.out), id)
  {
    var e := OnPart(before.marks, p);
    PartIsBrief(before.marks, p);
    PartMarks(before.marks, p, id);
    CallsBrief(before.out, e.out, id);
    TextsBrief(before.out, e.out, id);
  }

  /** Tool calls of an identified message reach the caller at most once, and once any of its text
      has been shown, whatever follows is a streamed delta. */
  lemma {:induction false} NothingIsEchoed(seed: set<string>, parts: seq<Part>, id: string)
    requires id != ""
    ensures Quiet(Consume(Seeded(seed), parts), id)
    decreases |parts|
  {
    if parts != [] {
      var pre := parts[..|parts| - 1];
      NothingIsEchoed(seed, pre, id);
      StaysQuiet(Consume(Seeded(seed), pre), parts[|parts| - 1], id);
    }
  }

  /** Usage that a state lists for a checkpointed message is never counted, and neither is usage that a
      later state adds to a message first listed without it: the consumer skips the message before it
      looks. Usage is counted from the first time it is shown, not listed. */
  lemma MaskedUsageIsNotCounted(id: string, usage: Usage)
    requires id != ""
    ensures Consume(Seeded({id}), [Listed(true, Ai(id, "", "", Some(usage), []))]).marks == Seeded({id})
    ensures var first, again := Listed(true, Ai(id, "", "", None, [])), Listed(true, Ai(id, "", "", Some(usage), []));
      Consume(Seeded({}), [first] + [again]).marks.total == NOTHING
  {
    var first, again := Listed(true, Ai(id, "", "", None, [])), Listed(true, Ai(id, "", "", Some(usage), []));
    ConsumeOne(Seeded({id}), again);
    ConsumeOne(Seeded({}), first);
    ConsumePush(Seeded({}), [first], again);
  }

  // ---- the object that does it --------------------------------------------------------------------

  class StreamState {
    var seen: set<string>
    var streamed: set<string>
    var counted: set<string>
    var total: Usage
    var lead: Option<Usage>

    function Now(): Marks
      reads this
    {
      Marks(seen, streamed, counted, total, lead)
    }

    /** A new state, seeded with the checkpoint's message ids; missing ids are skipped. */
    constructor (checkpoint: seq<string>)
      ensures Now() == Seeded(set id | id in checkpoint && id != "")
    {
      streamed, counted, total, lead := {}, {}, NOTHING, None;
      var ids := {};
      for i := 0 to |checkpoint|
        invariant ids == set id | id in checkpoint[..i] && id != ""
      {
        if checkpoint[i] != "" { ids := ids + {checkpoint[i]}; }
      }
      assert checkpoint[..|checkpoint|] == checkpoint;
      seen := ids;
    }

    /** `_account_usage`, and the lead usage its callers record. */
    method AccountUsage(top: bool, id: string, usage: Option<Usage>) returns (counts: Option<Usage>)
      modifies this`counted, this`total, this`lead
      ensures Now() == Account(old(Now()), top, id, usage)
      ensures counts == if Counts(old(Now()), id, usage) then usage else None
    {
      counts := None;
      if usage.Some? {
        if id == "" || id !in counted {
          if id != "" { counted := counted + {id}; }
          total := Plus(total, usage.value);
          counts := usage;
        }
        if top { lead := Some(LeadUsage(usage.value)); }
      }
    }

    method OnChunk(top: bool, m: Message) returns (out: seq<Out>)
      requires "" !in seen && "" !in streamed
      modifies this
      ensures "" !in seen && "" !in streamed
      ensures Emit(Now(), out) == OnPiece(old(Now()), top, m)
    {
      out := [];
      match m {
        case Ai(id, text, reasoning, usage, _) =>
          var counts := AccountUsage(top, id, usage);
          if text != "" || reasoning != "" {
            if id != "" { streamed := streamed + {id}; }
            out := [TextOut(id, text, reasoning, counts, true)];
          }
        case Tool(id, content) =>
          if id != "" { streamed := streamed + {id}; }
          out := [ToolOut(id, content)];
        case Other(_) =>
      }
    }

    method OnStateMessage(top: bool, m: Message) returns (out: seq<Out>)
      requires "" !in seen && "" !in streamed
      modifies this
      ensures Emit(Now(), out) == OnListed(old(Now()), top, m)
      ensures "" !in seen && "" !in streamed
    {
      out := [];
      if m.id != "" && m.id in seen { return; }
      if m.id != "" { seen := seen + {m.id}; }
      if m.id != "" && m.id in streamed {
        if m.Ai? {
          var _ := AccountUsage(top, m.id, m.usage);
          if m.calls != [] { out := [CallsOut(m.id, m.calls)]; }
        }
        return;
      }
      match m {
        case Ai(id, text, reasoning, usage, calls) =>
          var counts := AccountUsage(top, id, usage);
          if calls != [] { out := [CallsOut(id, calls)]; }
          if text != "" || reasoning != "" { out := out + [TextOut(id, text, reasoning, counts, false)]; }
        case Tool(id, content) => out := [ToolOut(id, content)];
        case Other(_) =>
      }
    }

    /** The messages of a values-mode state, in order. */
    method OnMessages(top: bool, messages: seq<Message>) returns (out: seq<Out>)
      requires "" !in seen && "" !in streamed
      modifies this
      ensures "" !in seen && "" !in streamed
      ensures Emit(Now(), out) == Consume(old(Now()), ListParts(top, messages))
    {
      out := [];
      ghost var start := Now();
      for i := 0 to |messages|
        invariant "" !in seen && "" !in streamed
        invariant Emit(Now(), out) == Consume(start, ListParts(top, messages[..i]))
      {
        var more := OnStateMessage(top, messages[i]);
        ListPush(start, top, messages, i);
        out := out + more;
      }
      assert messages[..|messages|] == messages;
    }

    /** A values-mode state: its messages, then the snapshot itself. */
    method OnState(top: bool, messages: seq<Message>) returns (out: seq<Out>)
      requires "" !in seen && "" !in streamed
      modifies this
      ensures "" !in seen && "" !in streamed
      ensures Emit(Now(), out) == Consume(old(Now()), ListParts(top, messages) + [Whole(messages)])
    {
      ConsumePush(Now(), ListParts(top, messages), Whole(messages));
      out := OnMessages(top, messages);
      out := out + [ValuesOut(messages)];
    }

    /** `_events_from_stream_item`. */
    method EventsFromStreamItem(item: Item) returns (out: seq<Out>)
      requires "" !in seen && "" !in streamed
      modifies this
      ensures "" !in seen && "" !in streamed
      ensures Emit(Now(), out) == Consume(old(Now()), Parts(item))
    {
      out := [];
      match item {
        case CustomItem =>
          ConsumeOne(Now(), Passed);
          out := [CustomOut];
        case Chunk(top, m) =>
          ConsumeOne(Now(), Piece(top, m));
          out := OnChunk(top, m);
        case Unreadable =>
        case State(top, messages) => out := OnState(top, messages);
      }
    }
  }

  lemma ListPush(s: Marks, top: bool, messages: seq<Message>, i: nat)
    requires i < |messages|
    ensures var before := Consume(s, ListParts(top, messages[..i]));
      var e := OnListed(before.marks, top, messages[i]);
      Consume(s, ListParts(top, messages[..i + 1])) == Emit(e.marks, before.out + e.out)
  {
    assert messages[..i + 1][..i] == messages[..i];
    ConsumePush(s, ListParts(top, messages[..i]), Listed(top, messages[i]));
  }

  /** A whole turn: everything shown, and the totals of its end event, by positions. */
  method Stream(checkpoint: seq<string>, items: seq<Item>) returns (out: seq<Out>, total: Usage, lead: Option<Usage>)
    ensures var seed := set id | id in checkpoint && id != "";
      var parts := AllParts(items);
      && out == ShownUpTo(seed, parts, |parts|)
      && total == UsageSum(seed, parts, |parts|)
      && lead == LastLead(seed, parts, |parts|)
  {
    var state := new StreamState(checkpoint);
    ghost var start := state.Now();
    out := [];
    for i := 0 to |items|
      invariant "" !in state.seen && "" !in state.streamed
      invariant Emit(state.Now(), out) == Consume(start, AllParts(items[..i]))
    {
      assert items[..i + 1][..i] == items[..i];
      ConsumeAppend(start, AllParts(items[..i]), Parts(items[i]));
      var more := state.EventsFromStreamItem(items[i]);
      out := out + more;
    }
    assert items[..|items|] == items;
    ghost var parts := AllParts(items);
    ConsumerIsExact((set id | id in checkpoint && id != ""), parts, |parts|);
    assert parts[..|parts|] == parts;
    total, lead := state.total, state.lead;
  }

  // ---- chat ------------------------------------------------------------------------------------------

  /** All text shown for one message. */
  function TextFor(out: seq<Out>, id: string): string {
    if out == [] then ""
    else
      var o := out[|out| - 1];
      TextFor(out[..|out| - 1], id) + if o.TextOut? && o.id == id then o.text else ""
  }

  /** The message whose text came last, "" when there was none. */
  function LastSpeaker(out: seq<Out>): string {
    if out == [] then ""
    else
      var o := out[|out| - 1];
      if o.TextOut? && o.text != "" then o.id else LastSpeaker(out[..|out| - 1])
  }

  predicate Speaking(o: Out) { o.TextOut? && o.text != "" }

  /** By positions: the last event with text. */
  lemma {:induction false} SpokeLast(out: seq<Out>, i: nat)
    requires i < |out| && Speaking(out[i]) && forall j :: i < j < |out| ==> !Speaking(out[j])
    ensures LastSpeaker(out) == out[i].id
    decreases |out|
  {
    var n := |out| - 1;
    if i < n { SpokeLast(out[..n], i); }
  }

  function Glue(pieces: seq<string>): string {
    if pieces == [] then "" else Glue(pieces[..|pieces| - 1]) + pieces[|pieces| - 1]
  }

  function PiecesOf(chunks: map<string, seq<string>>, id: string): seq<string> {
    if id in chunks then chunks[id] else []
  }

  /** Each id's pieces make up its text. */
  ghost predicate Holds(chunks: map<string, seq<string>>, out: seq<Out>) {
    forall id :: Glue(PiecesOf(chunks, id)) == TextFor(out, id)
  }

  lemma TextPush(out: seq<Out>, o: Out, id: string)
    ensures TextFor(out + [o], id) == TextFor(out, id) + if o.TextOut? && o.id == id then o.text else ""
  {
    assert (out + [o])[..|out|] == out;
  }

  lemma GluePush(pieces: seq<string>, piece: string)
    ensures Glue(pieces + [piece]) == Glue(pieces) + piece
  {
    assert (pieces + [piece])[..|pieces|] == pieces;
  }

  lemma HoldsPush(chunks: map<string, seq<string>>, out: seq<Out>, o: Out)
    requires Holds(chunks, out)
    ensures Holds(if o.TextOut? && o.text != "" then chunks[o.id := PiecesOf(chunks, o.id) + [o.text]]
        else chunks, out + [o])
  {
    var now := if o.TextOut? && o.text != "" then chunks[o.id := PiecesOf(chunks, o.id) + [o.text]] else chunks;
    forall id ensures Glue(PiecesOf(now, id)) == TextFor(out + [o], id) {
      TextPush(out, o, id);
      assert Glue(PiecesOf(chunks, id)) == TextFor(out, id);
      if o.TextOut? { GluePush(PiecesOf(chunks, o.id), o.text); }
    }
  }

  /** `chat`: the whole text of the last message that spoke, whatever was interleaved with it. */
  method Chat(out: seq<Out>) returns (text: string)
    ensures text == TextFor(out, LastSpeaker(out))
  {
    var chunks: map<string, seq<string>> := map[];
    var last := "";
    for i := 0 to |out|
      invariant last == LastSpeaker(out[..i])
      invariant Holds(chunks, out[..i])
    {
      assert out[..i + 1] == out[..i] + [out[i]];
      assert out[..i + 1][..i] == out[..i];
      var o := out[i];
      HoldsPush(chunks, out[..i], o);
      if o.TextOut? && o.text != "" {
        chunks := chunks[o.id := PiecesOf(chunks, o.id) + [o.text]];
        last := o.id;
      }
    }
    assert out[..|out|] == out;
    text := Glue(PiecesOf(chunks, last));
  }

  function ChunkText(p: Part, id: string): string {
    if p.Piece? && p.message.Ai? && p.message.id == id then p.message.text else ""
  }

  /** The text a provider streamed for one message. */
  function PieceText(parts: seq<Part>, id: string): string {
    if parts == [] then ""
    else PieceText(parts[..|parts| - 1], id) + ChunkText(parts[|parts| - 1], id)
  }

  /** Streaming came first: no state lists the message before some chunk delivered part of it. */
  ghost predicate StreamedFirst(parts: seq<Part>, id: string) {
    forall i :: 0 <= i < |parts| && parts[i].Listed? && IdOf(parts[i]) == id ==> StreamedBefore(parts, i)
  }

  lemma {:induction false} TextForAppend(x: seq<Out>, y: seq<Out>, id: string)
    ensures TextFor(x + y, id) == TextFor(x, id) + TextFor(y, id)
    decreases |y|
  {
    if y == [] {
      assert x + y == x;
    } else {
      var z := y[..|y| - 1];
      assert (x + y)[..|x + y| - 1] == x + z;
      TextForAppend(x, z, id);
    }
  }

  lemma TextOfBrief(out: seq<Out>, id: string)
    requires Brief(out)
    ensures TextFor(out, id) ==
            if out != [] && out[|out| - 1].TextOut? && out[|out| - 1].id == id then out[|out| - 1].text else ""
  {
    if |out| == 1 { assert out[..0] == []; }
    if |out| == 2 {
      TextPush([out[0]], out[1], id);
      TextPush([], out[0], id);
      assert out == [out[0]] + [out[1]] && [] + [out[0]] == [out[0]];
    }
  }

  lemma ShownIsBrief(seed: set<string>, parts: seq<Part>, i: nat, id: string)
    requires i < |parts| && id != ""
    requires parts[i].Listed? && IdOf(parts[i]) == id ==> StreamedBefore(parts, i)
    ensures var out := Shown(seed, parts, i);
      && Brief(out)
      && ChunkText(parts[i], id) ==
         if out != [] && out[|out| - 1].TextOut? && out[|out| - 1].id == id then out[|out| - 1].text else ""
  {
  }

  lemma TextOfPart(seed: set<string>, parts: seq<Part>, i: nat, id: string)
    requires i < |parts| && id != ""
    requires parts[i].Listed? && IdOf(parts[i]) == id ==> StreamedBefore(parts, i)
    ensures TextFor(Shown(seed, parts, i), id) == ChunkText(parts[i], id)
  {
    ShownIsBrief(seed, parts, i, id);
    TextOfBrief(Shown(seed, parts, i), id);
  }

  /** A streamed message's text is exactly its chunks, however often states list it afterwards. */
  lemma {:induction false} StreamedTextIsItsChunks(seed: set<string>, parts: seq<Part>, id: string, n: nat)
    requires id != "" && "" !in seed && StreamedFirst(parts, id) && n <= |parts|
    ensures TextFor(ShownUpTo(seed, parts, n), id) == PieceText(parts[..n], id)
  {
    if n > 0 {
      StreamedTextIsItsChunks(seed, parts, id, n - 1);
      assert parts[..n][..n - 1] == parts[..n - 1];
      TextForAppend(ShownUpTo(seed, parts, n - 1), Shown(seed, parts, n - 1), id);
      TextOfPart(seed, parts, n - 1, id);
    }
  }
}

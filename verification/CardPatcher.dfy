/** The coalescing card patcher (app/channels/feishu.py): the stream keeps only the newest text of
    each message, one worker per message sends it to that message's card, and the end of the stream
    waits for the workers. A step is the code between two awaits; patch calls and card creation
    take any time and may fail. */
module CardPatcher {
  import opened Common

  const INTERVAL: real := 1.0
  const INITIAL_MIN_CHARS := 24

  /** A message's card: being created, there, or not to be had. */
  datatype Card = Creating | Ready(id: nat) | Missing

  /** A message's worker. Idle is no task, or one that is done. */
  datatype Worker =
    | Idle
    | Created
    | AwaitingCard(content: string)
    | Patching(content: string, start: real)
    | Sleeping(until: real)

  datatype Patch = Patch(content: string, start: real, finish: real)

  /** The dictionaries keyed by message id, one record per id; `patches` are the patch calls that
      returned, and `hurt` says that one raised after the final text was queued. */
  datatype Msg = Msg(text: string, card: Card, worker: Worker, pending: Option<string>, lastPatched: Option<string>,
                     lastPatchAt: Option<real>, patches: seq<Patch>, hurt: bool)

  datatype State = State(now: real, msgs: map<string, Msg>, initialBound: bool, nextCard: nat, closed: bool)

  /** Card 0 is the acknowledgement card sent before the stream began, if there is one: without it
      every message gets a card of its own, as once it has been bound. */
  function Start(acknowledged: bool): State { State(0.0, map[], !acknowledged, 1, false) }

  datatype Step =
    | Tick(d: real)
    | Chunk(id: string, piece: string)
    | CardSent(id: string, ok: bool)
    | WorkerStarts(id: string)
    | CardArrives(id: string)
    | PatchReturns(id: string)
    | PatchRaises(id: string)
    | WorkerWakes(id: string)
    | StreamEnds

  // ---- what each step does ---------------------------------------------------------------------

  function Schedule(m: Msg, content: string): Msg {
    m.(pending := Some(content), worker := if m.worker.Idle? then Created else m.worker)
  }

  predicate ShouldPatch(m: Msg, now: real) {
    && m.text != ""
    && (m.lastPatchAt.None? ==> |Trim(m.text)| >= INITIAL_MIN_CHARS)
    && now - m.lastPatchAt.GetOr(0.0) >= INTERVAL
  }

  function NewMessage(initialBound: bool): Msg {
    Msg("", if initialBound then Creating else Ready(0), Idle, None, None, None, [], false)
  }

  function AddPiece(m: Msg, piece: string, now: real): Msg {
    var t := m.(text := m.text + piece);
    if ShouldPatch(t, now) then Schedule(t, t.text) else t
  }

  /** After a patch call, or the lack of a card: record, then stop or sleep. */
  function Settle(m: Msg, content: string, now: real): Msg {
    m.(lastPatched := Some(content), lastPatchAt := Some(now),
       worker := if m.pending == Some(content) then Idle else Sleeping(now + INTERVAL))
  }

  /** With the card known: send, or go on without one. */
  function Send(m: Msg, content: string, now: real): Msg {
    if m.card.Ready? then m.(worker := Patching(content, now)) else Settle(m, content, now)
  }

  /** The head of the worker's loop. */
  function LoopHead(m: Msg, now: real): Msg {
    if m.pending.None? || m.pending.value == "" || m.pending == m.lastPatched then m.(worker := Idle)
    else if m.card.Creating? then m.(worker := AwaitingCard(m.pending.value))
    else Send(m, m.pending.value, now)
  }

  function PatchOver(m: Msg, now: real): Msg
    requires m.worker.Patching?
  {
    var w := m.worker;
    Settle(m.(patches := m.patches + [Patch(w.content, w.start, now)]), w.content, now)
  }

  predicate Enabled(s: State, step: Step) {
    match step
    case Tick(d) => d >= 0.0
    case Chunk(id, piece) => !s.closed && id != "" && piece != ""
    case CardSent(id, _) => id in s.msgs && s.msgs[id].card.Creating?
    case WorkerStarts(id) => id in s.msgs && s.msgs[id].worker.Created?
    case CardArrives(id) => id in s.msgs && s.msgs[id].worker.AwaitingCard? && !s.msgs[id].card.Creating?
    case PatchReturns(id) => id in s.msgs && s.msgs[id].worker.Patching?
    case PatchRaises(id) => id in s.msgs && s.msgs[id].worker.Patching?
    case WorkerWakes(id) => id in s.msgs && s.msgs[id].worker.Sleeping? && s.now >= s.msgs[id].worker.until
    case StreamEnds => !s.closed
  }

  function Put(s: State, id: string, m: Msg): State { s.(msgs := s.msgs[id := m]) }

  function Apply(s: State, step: Step): State
    requires Enabled(s, step)
  {
    match step
    case Tick(d) => s.(now := s.now + d)
    case Chunk(id, piece) =>
      var m := if id in s.msgs then s.msgs[id] else NewMessage(s.initialBound);
      Put(s.(initialBound := s.initialBound || id !in s.msgs), id, AddPiece(m, piece, s.now))
    case CardSent(id, ok) =>
      Put(s.(nextCard := s.nextCard + 1), id, s.msgs[id].(card := if ok then Ready(s.nextCard) else Missing))
    case WorkerStarts(id) => Put(s, id, LoopHead(s.msgs[id], s.now))
    case CardArrives(id) => Put(s, id, Send(s.msgs[id], s.msgs[id].worker.content, s.now))
    case PatchReturns(id) => Put(s, id, PatchOver(s.msgs[id], s.now))
    case PatchRaises(id) => Put(s, id, s.msgs[id].(worker := Idle, hurt := s.msgs[id].hurt || s.closed))
    case WorkerWakes(id) => Put(s, id, LoopHead(s.msgs[id], s.now))
    case StreamEnds => s.(closed := true, msgs := map id | id in s.msgs :: Schedule(s.msgs[id], s.msgs[id].text))
  }

  ghost predicate Possible(s: State, steps: seq<Step>)
    decreases |steps|
  {
    steps == [] || (Enabled(s, steps[0]) && Possible(Apply(s, steps[0]), steps[1..]))
  }

  ghost function Exec(s: State, steps: seq<Step>): State
    requires Possible(s, steps)
    decreases |steps|
  {
    if steps == [] then s else Exec(Apply(s, steps[0]), steps[1..])
  }

  // ---- what holds of one message ----------------------------------------------------------------------

  predicate StrictPrefix(a: string, b: string) { StartsWith(b, a) && |a| < |b| }

  /** Each patch extends the one before it. */
  ghost predicate Growing(patches: seq<Patch>) {
    forall i, j :: 0 <= i < j < |patches| ==> StrictPrefix(patches[i].content, patches[j].content)
  }

  /** Patches start an interval after the one before returned, except possibly the last one, and that
      one only when the stream is over and it carries the whole text. */
  ghost predicate Spaced(patches: seq<Patch>, text: string, closed: bool) {
    forall i :: 0 < i < |patches| ==>
      patches[i].start >= patches[i - 1].finish + INTERVAL
      || (i == |patches| - 1 && closed && patches[i].content == text)
  }

  /** What was last sent is a beginning of what is queued, which is a beginning of the text. */
  ghost predicate Contents(m: Msg, closed: bool) {
    && m.text != ""
    && (m.pending.None? ==> m.worker.Idle? && m.lastPatched.None?)
    && (m.pending.Some? ==> m.pending.value != "" && StartsWith(m.text, m.pending.value))
    && (m.lastPatched.Some? ==> m.pending.Some? && StartsWith(m.pending.value, m.lastPatched.value))
    && (closed ==> m.pending == Some(m.text))
  }

  /** The calls that returned, and what the worker holds. */
  ghost predicate Sent(m: Msg, closed: bool) {
    && Growing(m.patches) && Spaced(m.patches, m.text, closed)
    && (m.card.Creating? || m.card.Missing? || m.worker.AwaitingCard? ==> m.patches == [])
    && (m.card.Creating? || m.worker.AwaitingCard? ==> m.lastPatched.None? && m.lastPatchAt.None?)
    && (m.card.Ready? ==> m.lastPatched == LastContent(m) && m.lastPatchAt == LastFinish(m))
  }

  function LastContent(m: Msg): Option<string> {
    if m.patches == [] then None else Some(m.patches[|m.patches| - 1].content)
  }

  function LastFinish(m: Msg): Option<real> {
    if m.patches == [] then None else Some(m.patches[|m.patches| - 1].finish)
  }

  /** Time since the last call returned: a full interval, or the stream is over. */
  ghost predicate Rested(m: Msg, at: real) {
    m.patches != [] ==> at >= m.patches[|m.patches| - 1].finish + INTERVAL
  }

  ghost predicate Working(m: Msg, now: real, closed: bool) {
    match m.worker
    case Idle => closed && !m.hurt ==> m.lastPatched == Some(m.text)
    case Created => Rested(m, now) || closed
    case AwaitingCard(content) => content != "" && m.pending.Some? && StartsWith(m.pending.value, content)
    case Patching(content, start) =>
      && m.card.Ready? && content != "" && m.pending.Some? && StartsWith(m.pending.value, content)
      && (m.lastPatched.Some? ==> StrictPrefix(m.lastPatched.value, content))
      && (Rested(m, start) || (closed && content == m.text))
    case Sleeping(until) => Rested(m, until)
  }

  ghost predicate MsgOk(m: Msg, now: real, closed: bool) {
    Contents(m, closed) && Sent(m, closed) && Working(m, now, closed)
  }

  // ---- every step keeps it ------------------------------------------------------------------------------

  lemma PrefixTrans(a: string, b: string, c: string)
    requires StartsWith(b, a) && StartsWith(c, b)
    ensures StartsWith(c, a)
  {
    assert c[..|a|] == c[..|b|][..|a|];
  }

  lemma TimePasses(m: Msg, now: real, later: real, closed: bool)
    requires MsgOk(m, now, closed) && later >= now
    ensures MsgOk(m, later, closed)
  {
  }

  lemma GrownText(m: Msg, piece: string, now: real)
    requires MsgOk(m, now, false)
    ensures MsgOk(m.(text := m.text + piece), now, false)
  {
    if m.pending.Some? { PrefixTrans(m.pending.value, m.text, m.text + piece); }
    assert StartsWith(m.text + piece, m.text);
  }

  lemma Scheduled(m: Msg, now: real, closed: bool)
    requires MsgOk(m, now, false)
    requires closed || !m.worker.Idle? || Rested(m, now)
    ensures MsgOk(Schedule(m, m.text), now, closed)
  {
    var t := Schedule(m, m.text);
    assert StartsWith(m.text, m.text);
    if m.pending.Some? {
      if m.lastPatched.Some? { PrefixTrans(m.lastPatched.value, m.pending.value, m.text); }
      if m.worker.AwaitingCard? || m.worker.Patching? { PrefixTrans(m.worker.content, m.pending.value, m.text); }
    }
  }

  lemma PieceAdded(m: Msg, piece: string, now: real)
    requires MsgOk(m, now, false)
    ensures MsgOk(AddPiece(m, piece, now), now, false)
  {
    GrownText(m, piece, now);
    var t := m.(text := m.text + piece);
    if ShouldPatch(t, now) {
      assert t.worker.Idle? ==> Rested(t, now);
      Scheduled(t, now, false);
    }
  }

  lemma CardSettled(m: Msg, now: real, closed: bool, card: Card)
    requires MsgOk(m, now, closed) && m.card.Creating? && !card.Creating?
    ensures MsgOk(m.(card := card), now, closed)
  {
  }

  lemma NextExtends(last: string, content: string, text: string)
    requires StartsWith(text, content) && StartsWith(text, last) && content != last && |last| <= |content|
    ensures StrictPrefix(last, content)
  {
    assert text[..|content|][..|last|] == text[..|last|];
    assert content[..|content|] == content;
  }

  /** What the worker takes from the queue extends what was last sent. */
  lemma TakenExtends(m: Msg, closed: bool)
    requires Contents(m, closed) && m.pending.Some? && m.pending != m.lastPatched
    ensures m.lastPatched.Some? ==> StrictPrefix(m.lastPatched.value, m.pending.value)
  {
    assert StartsWith(m.pending.value, m.pending.value);
    if m.lastPatched.Some? { NextExtends(m.lastPatched.value, m.pending.value, m.pending.value); }
  }

  lemma LoopHeadKeeps(m: Msg, now: real, closed: bool)
    requires MsgOk(m, now, closed)
    requires m.worker.Created? || (m.worker.Sleeping? && now >= m.worker.until)
    ensures MsgOk(LoopHead(m, now), now, closed)
  {
    assert m.pending.Some? && m.pending.value != "";
    assert StartsWith(m.pending.value, m.pending.value);
    if m.pending != m.lastPatched {
      TakenExtends(m, closed);
      if m.card.Missing? { UnsentKeeps(m, m.pending.value, now, closed); }
    }
  }

  /** Without a card the worker only records. */
  lemma UnsentKeeps(m: Msg, content: string, now: real, closed: bool)
    requires MsgOk(m, now, closed) && m.card.Missing?
    requires m.pending.Some? && StartsWith(m.pending.value, content)
    ensures MsgOk(Settle(m, content, now), now, closed)
  {
  }

  lemma CardArrivesKeeps(m: Msg, now: real, closed: bool)
    requires MsgOk(m, now, closed) && m.worker.AwaitingCard? && !m.card.Creating?
    ensures MsgOk(Send(m, m.worker.content, now), now, closed)
  {
    if m.card.Missing? { UnsentKeeps(m, m.worker.content, now, closed); }
  }

  lemma PatchesGrow(m: Msg, now: real, closed: bool)
    requires MsgOk(m, now, closed) && m.worker.Patching?
    ensures Growing(PatchOver(m, now).patches)
  {
    var t := PatchOver(m, now).patches;
    var n := |m.patches|;
    forall i, j | 0 <= i < j < |t| ensures StrictPrefix(t[i].content, t[j].content) {
      if j == n {
        assert StrictPrefix(m.patches[n - 1].content, m.worker.content);
        if i < n - 1 {
          assert StrictPrefix(m.patches[i].content, m.patches[n - 1].content);
          PrefixTrans(m.patches[i].content, m.patches[n - 1].content, m.worker.content);
        }
      } else {
        assert StrictPrefix(m.patches[i].content, m.patches[j].content);
      }
    }
  }

  lemma PatchesStaySpaced(m: Msg, now: real, closed: bool)
    requires MsgOk(m, now, closed) && m.worker.Patching?
    ensures Spaced(PatchOver(m, now).patches, m.text, closed)
  {
    var t := PatchOver(m, now).patches;
    var n := |m.patches|;
    if n > 0 { PrefixLength(m); }
    forall i | 0 < i < |t|
      ensures t[i].start >= t[i - 1].finish + INTERVAL || (i == |t| - 1 && closed && t[i].content == m.text)
    {
      if i < n { assert m.patches[i].start >= m.patches[i - 1].finish + INTERVAL || i == n - 1; }
    }
  }

  /** A call in flight sends more than the last one did, so that one was not the whole text. */
  lemma PrefixLength(m: Msg)
    requires m.worker.Patching? && m.pending.Some? && m.lastPatched.Some?
    requires StartsWith(m.text, m.pending.value) && StartsWith(m.pending.value, m.worker.content)
    requires StrictPrefix(m.lastPatched.value, m.worker.content)
    ensures m.lastPatched.value != m.text
  {
  }

  lemma PatchReturnsKeeps(m: Msg, now: real, closed: bool)
    requires MsgOk(m, now, closed) && m.worker.Patching?
    ensures MsgOk(PatchOver(m, now), now, closed)
  {
    PatchesGrow(m, now, closed);
    PatchesStaySpaced(m, now, closed);
  }

  lemma PatchRaisesKeeps(m: Msg, now: real, closed: bool)
    requires MsgOk(m, now, closed) && m.worker.Patching?
    ensures MsgOk(m.(worker := Idle, hurt := m.hurt || closed), now, closed)
  {
  }

  lemma NewMessageOk(initialBound: bool, piece: string, now: real)
    requires piece != ""
    ensures MsgOk(AddPiece(NewMessage(initialBound), piece, now), now, false)
  {
    var m := NewMessage(initialBound).(text := piece);
    assert "" + piece == piece;
    assert MsgOk(m, now, false);
    if ShouldPatch(m, now) { Scheduled(m, now, false); }
  }

  // ---- all messages together -------------------------------------------------------------------------------

  ghost predicate OneCardEach(s: State) {
    && (forall id :: id in s.msgs && s.msgs[id].card.Ready? ==>
          s.msgs[id].card.id < s.nextCard && (s.msgs[id].card.id == 0 ==> s.initialBound))
    && (forall a, b :: a in s.msgs && b in s.msgs && s.msgs[a].card.Ready? && s.msgs[a].card == s.msgs[b].card ==>
         a == b)
    && s.nextCard > 0
  }

  ghost predicate Inv(s: State) {
    OneCardEach(s) && forall id :: id in s.msgs ==> MsgOk(s.msgs[id], s.now, s.closed)
  }

  /** Workers, ticks and the end of the stream leave every card as it is. */
  lemma CardsUntouched(s: State, step: Step)
    requires Enabled(s, step) && !step.Chunk? && !step.CardSent?
    ensures var t := Apply(s, step);
      && t.msgs.Keys == s.msgs.Keys && t.nextCard == s.nextCard && t.initialBound == s.initialBound
      && forall id :: id in s.msgs ==> t.msgs[id].card == s.msgs[id].card
  {
    if !step.Tick? && !step.StreamEnds? { assert Apply(s, step).msgs.Keys == s.msgs.Keys + {step.id}; }
  }

  lemma ChunkBindsOneCard(s: State, id: string, piece: string)
    requires OneCardEach(s) && Enabled(s, Chunk(id, piece))
    ensures OneCardEach(Apply(s, Chunk(id, piece)))
  {
    var t := Apply(s, Chunk(id, piece));
    assert t.msgs[id].card == if id in s.msgs then s.msgs[id].card else if s.initialBound then Creating else Ready(0);
  }

  lemma SentCardIsNew(s: State, id: string, ok: bool)
    requires OneCardEach(s) && Enabled(s, CardSent(id, ok))
    ensures OneCardEach(Apply(s, CardSent(id, ok)))
  {
  }

  lemma CardsStayApart(s: State, step: Step)
    requires Inv(s) && Enabled(s, step)
    ensures OneCardEach(Apply(s, step))
  {
    if step.Chunk? { ChunkBindsOneCard(s, step.id, step.piece); }
    else if step.CardSent? { SentCardIsNew(s, step.id, step.ok); }
    else { CardsUntouched(s, step); }
  }

  lemma OwnMessageKept(s: State, step: Step, id: string)
    requires Inv(s) && Enabled(s, step) && !step.Tick? && !step.StreamEnds? && step.id == id
    ensures MsgOk(Apply(s, step).msgs[id], s.now, s.closed)
  {
    if id in s.msgs { assert MsgOk(s.msgs[id], s.now, s.closed); }
    match step {
      case Chunk(_, piece) =>
        if id in s.msgs { PieceAdded(s.msgs[id], piece, s.now); } else { NewMessageOk(s.initialBound, piece, s.now); }
      case CardSent(_, ok) => CardSettled(s.msgs[id], s.now, s.closed, Apply(s, step).msgs[id].card);
      case WorkerStarts(_) => LoopHeadKeeps(s.msgs[id], s.now, s.closed);
      case WorkerWakes(_) => LoopHeadKeeps(s.msgs[id], s.now, s.closed);
      case CardArrives(_) => CardArrivesKeeps(s.msgs[id], s.now, s.closed);
      case PatchReturns(_) => PatchReturnsKeeps(s.msgs[id], s.now, s.closed);
      case PatchRaises(_) => PatchRaisesKeeps(s.msgs[id], s.now, s.closed);
    }
  }

  lemma StepKeeps(s: State, step: Step)
    requires Inv(s) && Enabled(s, step)
    ensures Inv(Apply(s, step))
  {
    CardsStayApart(s, step);
    var t := Apply(s, step);
    forall id | id in t.msgs ensures MsgOk(t.msgs[id], t.now, t.closed) {
      if step.Tick? { TimePasses(s.msgs[id], s.now, t.now, s.closed); }
      else if step.StreamEnds? { Scheduled(s.msgs[id], s.now, true); }
      else if step.id == id { OwnMessageKept(s, step, id); }
      else { assert t.msgs[id] == s.msgs[id]; }
    }
  }

  lemma {:induction false} EveryRunKeeps(s: State, steps: seq<Step>)
    requires Inv(s) && Possible(s, steps)
    ensures Inv(Exec(s, steps))
    decreases |steps|
  {
    if steps != [] {
      StepKeeps(s, steps[0]);
      EveryRunKeeps(Apply(s, steps[0]), steps[1..]);
    }
  }

  /** The stream is over and every worker has been waited for. */
  predicate Drained(s: State) { s.closed && forall id :: id in s.msgs ==> s.msgs[id].worker.Idle? }

  /** In every interleaving: the patches of a message are strictly growing beginnings of its text,
      an interval apart except possibly the last; and once the workers are drained the last patch is
      the whole text, unless a patch call raised after the final text was queued. */
  lemma NoLostFinalText(ack: bool, steps: seq<Step>, id: string)
    requires Possible(Start(ack), steps) && id in Exec(Start(ack), steps).msgs
    ensures var s := Exec(Start(ack), steps);
      var m := s.msgs[id];
      && Growing(m.patches) && Spaced(m.patches, m.text, s.closed)
      && (forall i :: 0 <= i < |m.patches| ==> StartsWith(m.text, m.patches[i].content))
      && (Drained(s) && m.card.Ready? && !m.hurt ==> LastContent(m) == Some(m.text))
  {
    EveryRunKeeps(Start(ack), steps);
    var s := Exec(Start(ack), steps);
    var m := s.msgs[id];
    assert MsgOk(m, s.now, s.closed);
    if m.patches != [] {
      var last := |m.patches| - 1;
      PrefixTrans(m.patches[last].content, m.pending.value, m.text);
      forall i | 0 <= i < |m.patches| ensures StartsWith(m.text, m.patches[i].content) {
        if i < last {
          assert StrictPrefix(m.patches[i].content, m.patches[last].content);
          PrefixTrans(m.patches[i].content, m.patches[last].content, m.text);
        }
      }
    }
  }

  /** No card shows two messages, and the acknowledgement card is reused at most once. */
  lemma NoSharedCard(ack: bool, steps: seq<Step>, a: string, b: string)
    requires Possible(Start(ack), steps)
    requires var s := Exec(Start(ack), steps);
      a in s.msgs && b in s.msgs && s.msgs[a].card.Ready? && s.msgs[b].card == s.msgs[a].card
    ensures a == b
  {
    EveryRunKeeps(Start(ack), steps);
  }

  // ---- text and progress ---------------------------------------------------------------------------------

  /** What the stream has delivered for one message. */
  function Delivered(steps: seq<Step>, id: string): string {
    if steps == [] then ""
    else
      (if steps[0].Chunk? && steps[0].id == id then steps[0].piece else "") + Delivered(steps[1..], id)
  }

  function TextOf(s: State, id: string): string { if id in s.msgs then s.msgs[id].text else "" }

  lemma StepAddsText(s: State, step: Step, id: string)
    requires Enabled(s, step)
    ensures TextOf(Apply(s, step), id) ==
            TextOf(s, id) + if step.Chunk? && step.id == id then step.piece else ""
  {
    assert TextOf(s, id) + "" == TextOf(s, id);
    if step.Chunk? && step.id == id && id !in s.msgs { assert "" + step.piece == step.piece; }
  }

  /** A message's text is all its chunks, in order, whatever happens in between. */
  lemma {:induction false} TextsAreTheirChunks(s: State, steps: seq<Step>, id: string)
    requires Possible(s, steps)
    ensures TextOf(Exec(s, steps), id) == TextOf(s, id) + Delivered(steps, id)
    decreases |steps|
  {
    if steps == [] {
      assert TextOf(s, id) + "" == TextOf(s, id);
    } else {
      StepAddsText(s, steps[0], id);
      TextsAreTheirChunks(Apply(s, steps[0]), steps[1..], id);
      ConcatAssoc(TextOf(s, id), if steps[0].Chunk? && steps[0].id == id then steps[0].piece else "",
                  Delivered(steps[1..], id));
    }
  }

  /** When a text is due: a second after the last patch returned, and before the first one when it has 24
      characters between its white space and the clock stands at a second. */
  predicate Due(text: string, last: Option<real>, now: real) {
    match last
    case Some(at) => now >= at + 1.0
    case None => |Trim(text)| >= 24 && now >= 1.0
  }

  /** In every interleaving a chunk queues the whole text so far exactly when it is due, for a worker that is
      alive; otherwise the queue stays as it was. */
  lemma DueTextIsQueued(ack: bool, steps: seq<Step>, id: string, piece: string)
    requires Possible(Start(ack), steps) && Enabled(Exec(Start(ack), steps), Chunk(id, piece))
    ensures var s := Exec(Start(ack), steps);
      var m, last := Apply(s, Chunk(id, piece)).msgs[id], if id in s.msgs then s.msgs[id].lastPatchAt else None;
      && m.text == TextOf(s, id) + piece
      && (m.pending == Some(m.text) <==> Due(m.text, last, s.now))
      && (Due(m.text, last, s.now) ==> !m.worker.Idle?)
      && (!Due(m.text, last, s.now) ==> m.pending == if id in s.msgs then s.msgs[id].pending else None)
  {
    EveryRunKeeps(Start(ack), steps);
    var s := Exec(Start(ack), steps);
    StepAddsText(s, Chunk(id, piece), id);
    if id in s.msgs { assert MsgOk(s.msgs[id], s.now, s.closed); }
  }

  // ---- waiting for the workers ends --------------------------------------------------------------------

  /** How many worker turns a message can still take once the stream is over. */
  function TurnsLeft(m: Msg): nat {
    match m.worker
    case Idle => 0
    case Created => 4
    case AwaitingCard(content) => if content == m.text then 3 else 7
    case Patching(content, _) => if content == m.text then 1 else 6
    case Sleeping(_) => 5
  }

  predicate WorkerStep(step: Step) {
    step.WorkerStarts? || step.CardArrives? || step.PatchReturns? || step.PatchRaises? || step.WorkerWakes?
  }

  /** After the end of the stream every worker turn brings its message nearer to Idle and nothing
      takes any message further away, so draining comes to an end. */
  lemma DrainingEnds(s: State, step: Step, id: string)
    requires Inv(s) && s.closed && Enabled(s, step) && id in s.msgs
    ensures var t := Apply(s, step);
      && id in t.msgs && t.closed && TurnsLeft(t.msgs[id]) <= TurnsLeft(s.msgs[id])
      && (WorkerStep(step) && step.id == id ==> TurnsLeft(t.msgs[id]) < TurnsLeft(s.msgs[id]))
  {
    assert MsgOk(s.msgs[id], s.now, s.closed);
  }

  // ---- the object that does it ----------------------------------------------------------------------------

  class CardRenderer {
    var msgs: map<string, Msg>
    var initialBound: bool
    var nextCard: nat
    var closed: bool

    function At(now: real): State
      reads this
    {
      State(now, msgs, initialBound, nextCard, closed)
    }

    constructor (acknowledged: bool)
      ensures At(0.0) == Start(acknowledged)
    {
      msgs, initialBound, nextCard, closed := map[], !acknowledged, 1, false;
    }

    /** `schedule_patch`: queue the newest text; a worker that is still alive will find it. */
    method SchedulePatch(id: string, content: string)
      requires id in msgs
      modifies this`msgs
      ensures msgs == old(msgs)[id := Schedule(old(msgs)[id], content)]
    {
      var m := msgs[id].(pending := Some(content));
      if m.worker.Idle? { m := m.(worker := Created); }
      msgs := msgs[id := m];
    }

    /** One streamed delta: collect, bind a card, perhaps queue a patch. */
    method OnDelta(id: string, piece: string, now: real)
      requires !closed
      modifies this
      ensures At(now) == if id == "" || piece == "" then old(At(now)) else Apply(old(At(now)), Chunk(id, piece))
    {
      if id == "" || piece == "" { return; }
      if id !in msgs {
        msgs := msgs[id := Msg("", if initialBound then Creating else Ready(0), Idle, None, None, None, [], false)];
        initialBound := true;
      }
      var m := msgs[id];
      m := m.(text := m.text + piece);
      msgs := msgs[id := m];
      if ShouldPatch(m, now) { SchedulePatch(id, m.text); }
    }

    method OnCardSent(id: string, ok: bool, now: real)
      requires id in msgs && msgs[id].card.Creating?
      modifies this
      ensures At(now) == Apply(old(At(now)), CardSent(id, ok))
    {
      msgs := msgs[id := msgs[id].(card := if ok then Ready(nextCard) else Missing)];
      nextCard := nextCard + 1;
    }

    /** The worker from its loop head to its next await, on starting and on waking. */
    method WorkerTurn(id: string, now: real)
      requires id in msgs && (msgs[id].worker.Created? || (msgs[id].worker.Sleeping? && now >= msgs[id].worker.until))
      modifies this`msgs
      ensures At(now) ==
          Apply(old(At(now)), if old(msgs)[id].worker.Created? then WorkerStarts(id) else WorkerWakes(id))
    {
      var m := msgs[id];
      if m.pending.None? || m.pending.value == "" || m.pending == m.lastPatched {
        m := m.(worker := Idle);
      } else if m.card.Creating? {
        m := m.(worker := AwaitingCard(m.pending.value));
      } else {
        m := Send(m, m.pending.value, now);
      }
      msgs := msgs[id := m];
    }

    /** The worker after its patch call has returned. */
    method OnPatchReturned(id: string, now: real)
      requires id in msgs && msgs[id].worker.Patching?
      modifies this`msgs
      ensures At(now) == Apply(old(At(now)), PatchReturns(id))
    {
      var m, w := msgs[id], msgs[id].worker;
      m := m.(patches := m.patches + [Patch(w.content, w.start, now)]);
      m := m.(lastPatched := Some(w.content), lastPatchAt := Some(now));
      m := m.(worker := if m.pending == Some(w.content) then Idle else Sleeping(now + INTERVAL));
      msgs := msgs[id := m];
    }

    /** The end of the stream: every message's whole text is queued. */
    method FinishStream(now: real)
      requires !closed
      modifies this
      ensures At(now) == Apply(old(At(now)), StreamEnds)
    {
      closed := true;
      var rest := msgs.Keys;
      while rest != {}
        invariant rest <= msgs.Keys == old(msgs).Keys
        invariant initialBound == old(initialBound) && nextCard == old(nextCard) && closed
        invariant forall id :: id in msgs ==>
          msgs[id] == if id in rest then old(msgs)[id] else Schedule(old(msgs)[id], old(msgs)[id].text)
        decreases rest
      {
        var id :| id in rest;
        SchedulePatch(id, msgs[id].text);
        rest := rest - {id};
      }
    }
  }
}

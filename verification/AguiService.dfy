/** One /chat/agui connection as a specification: the caller's pass over each batch, which replays it and
    drops repeated snapshots, the invariant between entries, and the closing of what is left at the
    end. AguiEndpoint has the object that does this in place. */
module AguiService {
  import opened Common
  import opened AguiEvents
  import opened ReasoningDelta
  import opened AguiStream
  import opened AguiTranslator
  import opened AguiEntries
  import opened AguiRun

  // ---- the caller's pass over a batch ---------------------------------------------------------

  /** What the pass has forwarded, and the fields and snapshot signature it has reached. */
  datatype Pass = Pass(opens: Opens, last: Option<string>, sent: seq<Event>)

  function PassOne(p: Pass, e: Event): Pass {
    if e.Snapshot? && p.last == Some(e.signature) then p
    else Pass(ReplayOne(p.opens, e), if e.Snapshot? then Some(e.signature) else p.last, p.sent + [e])
  }

  function PassOver(o: Opens, last: Option<string>, events: seq<Event>): Pass {
    if events == [] then Pass(o, last, [])
    else PassOne(PassOver(o, last, events[..|events| - 1]), events[|events| - 1])
  }

  lemma {:induction false} PassForwards(o: Opens, last: Option<string>, events: seq<Event>)
    ensures var p := PassOver(o, last, events);
      p.opens == Replay(o, events) && forall e :: e in p.sent ==> e in events
    decreases |events|
  {
    if events != [] {
      var pre := events[..|events| - 1];
      assert forall x :: x in pre ==> x in events;
      PassForwards(o, last, pre);
    }
  }

  lemma {:induction false} InnerKeepsStreaming(b: Brackets, events: seq<Event>)
    requires (b.Broken? || b.stage == Streaming) && Inner(events)
    ensures Scan(b, events).Broken? || Scan(b, events).stage == Streaming
  {
    if events != [] {
      var pre := events[..|events| - 1];
      assert events[|events| - 1] in events && forall x :: x in pre ==> x in events;
      InnerKeepsStreaming(b, pre);
    }
  }

  /** One event more, forwarded or dropped: the same to the checker. */
  lemma PassOneScans(b: Brackets, p: Pass, e: Event, pre: seq<Event>)
    requires Scan(b, p.sent) == Scan(b, pre) && (Scan(b, pre).Broken? || Scan(b, pre).stage == Streaming)
    ensures Scan(b, PassOne(p, e).sent) == Next(Scan(b, pre), e)
  {
    ScanPush(b, p.sent, e);
  }

  /** Dropping repeated snapshots changes nothing the checker sees. */
  lemma {:induction false} PassScansAlike(o: Opens, last: Option<string>, events: seq<Event>, b: Brackets)
    requires (b.Broken? || b.stage == Streaming) && Inner(events)
    ensures Scan(b, PassOver(o, last, events).sent) == Scan(b, events)
    decreases |events|
  {
    if events != [] {
      var pre, e := events[..|events| - 1], events[|events| - 1];
      InnerPrefix(events);
      PassScansAlike(o, last, pre, b);
      InnerKeepsStreaming(b, pre);
      PassOneScans(b, PassOver(o, last, pre), e, pre);
    }
  }

  lemma InnerPrefix(events: seq<Event>)
    requires Inner(events) && events != []
    ensures Inner(events[..|events| - 1])
  {
    assert forall x :: x in events[..|events| - 1] ==> x in events;
  }

  /** The signatures of the snapshots on the wire, in order. */
  function Signatures(trace: seq<Event>): seq<string> {
    if trace == [] then []
    else
      var e := trace[|trace| - 1];
      Signatures(trace[..|trace| - 1]) + (if e.Snapshot? then [e.signature] else [])
  }

  /** No snapshot repeats the one before it, and `last` is the latest. */
  ghost predicate NoRepeat(trace: seq<Event>, last: Option<string>) {
    var sigs := Signatures(trace);
    && (last == if sigs == [] then None else Some(sigs[|sigs| - 1]))
    && forall i :: 0 < i < |sigs| ==> sigs[i - 1] != sigs[i]
  }

  lemma SignaturesPush(trace: seq<Event>, e: Event)
    ensures Signatures(trace + [e]) == Signatures(trace) + if e.Snapshot? then [e.signature] else []
  {
    assert (trace + [e])[..|trace|] == trace;
  }

  lemma NoRepeatPush(trace: seq<Event>, last: Option<string>, e: Event)
    requires NoRepeat(trace, last) && !(e.Snapshot? && last == Some(e.signature))
    ensures NoRepeat(trace + [e], if e.Snapshot? then Some(e.signature) else last)
  {
    SignaturesPush(trace, e);
  }

  lemma {:induction false} PassNeverRepeats(o: Opens, last: Option<string>, events: seq<Event>, out: seq<Event>)
    requires NoRepeat(out, last)
    ensures var p := PassOver(o, last, events); NoRepeat(out + p.sent, p.last)
    decreases |events|
  {
    if events == [] {
      assert out + [] == out;
    } else {
      var pre, e := events[..|events| - 1], events[|events| - 1];
      PassNeverRepeats(o, last, pre, out);
      var p := PassOver(o, last, pre);
      if !(e.Snapshot? && p.last == Some(e.signature)) {
        NoRepeatPush(out + p.sent, p.last, e);
        ConcatAssoc(out, p.sent, [e]);
      }
    }
  }

  lemma {:induction false} PassJoins(o: Opens, last: Option<string>, events: seq<Event>, k: Kind, id: string)
    ensures Joined(PassOver(o, last, events).sent, k, id) == Joined(events, k, id)
    decreases |events|
  {
    if events != [] {
      var pre, e := events[..|events| - 1], events[|events| - 1];
      PassJoins(o, last, pre, k, id);
      JoinedPush(PassOver(o, last, pre).sent, e, k, id);
    }
  }

  lemma PassOnward(p: Pass, e: Event)
    requires !e.Snapshot?
    ensures PassOne(p, e).sent == p.sent + [e] && PassOne(p, e).last == p.last
  {
  }

  ghost predicate NoSnapshots(events: seq<Event>) { forall e :: e in events ==> !e.Snapshot? }

  lemma NoSnapshotsBefore(events: seq<Event>)
    requires NoSnapshots(events) && events != []
    ensures NoSnapshots(events[..|events| - 1]) && !events[|events| - 1].Snapshot?
  {
    assert events[|events| - 1] in events;
    assert forall x :: x in events[..|events| - 1] ==> x in events;
  }

  lemma {:induction false} NothingDropped(o: Opens, last: Option<string>, events: seq<Event>)
    requires NoSnapshots(events)
    ensures PassOver(o, last, events).sent == events && PassOver(o, last, events).last == last
    decreases |events|
  {
    if events != [] {
      var pre, e := events[..|events| - 1], events[|events| - 1];
      NoSnapshotsBefore(events);
      NothingDropped(o, last, pre);
      PassOnward(PassOver(o, last, pre), e);
      assert PassOver(o, last, events) == PassOne(PassOver(o, last, pre), e);
      assert pre + [e] == events;
    }
  }

  // ---- one connection, entry by entry -------------------------------------------------------------

  datatype Progress = Progress(snap: Snap, last: Option<string>, out: seq<Event>)

  const BEGIN := Progress(Snap(CLOSED, map[], {}, map[]), None, [RunStarted])

  /** What one entry puts on the wire. */
  function Wire(p: Progress, e: Entry, order: seq<string>): Pass {
    var r := EntryBatch(p.snap, e, order);
    PassOver(r.snap.opens, p.last, r.events)
  }

  function Advance(p: Progress, e: Entry, order: seq<string>): Progress {
    var w := Wire(p, e, order);
    Progress(After(p.snap, e, order), w.last, p.out + w.sent)
  }

  /** What holds between entries, for the entries read so far. */
  ghost predicate RunInv(p: Progress, read: seq<Entry>) {
    && Ok(p.snap)
    && p.snap.args == ArgsSeen(read)
    && NoRepeat(p.out, p.last)
    && (forall id :: !Sub(id) ==> Get(p.snap.reasons, id) == Joined(p.out, Reasoning, id))
    && (forall id :: Get(p.snap.reasons, id) == Feed("", ReasonChunks(read, id)))
    && (SomeCollision(read) ==> Scan(INITIAL, p.out) == Broken)
    && (!SomeCollision(read) ==> Scan(INITIAL, p.out) == ViewOf(p.snap) && p.snap.opens.subText == SubOpen(read))
  }

  lemma BeginHolds()
    ensures RunInv(BEGIN, [])
  {
    var out := BEGIN.out;
    assert out[..0] == [] && OpenIds(CLOSED) == {};
    assert Scan(INITIAL, out) == Next(INITIAL, RunStarted);
    assert Signatures([]) == [];
    forall id ensures Joined(out, Reasoning, id) == "" { assert Joined([], Reasoning, id) == ""; }
  }

  lemma OneMoreFold(read: seq<Entry>, e: Entry)
    ensures var all := read + [e];
      && ArgsSeen(all) == ArgsAfter(ArgsSeen(read), e)
      && SubOpen(all) == SubOpenAfter(SubOpen(read), e)
      && (forall id :: ReasonChunks(all, id)
           == ReasonChunks(read, id) + if Reasons(e, id) then [e.message.reasoning] else [])
  {
    assert (read + [e])[..|read|] == read;
  }

  lemma OneMoreCollision(read: seq<Entry>, e: Entry)
    ensures SomeCollision(read + [e]) <==> SomeCollision(read) || Collides(SubOpen(read), e)
  {
    var all, n := read + [e], |read|;
    assert all[..n] == read && all[n] == e;
    assert forall i :: 0 <= i < n ==> all[..i] == read[..i] && all[i] == read[i];
    if SomeCollision(read) {
      var i :| 0 <= i < n && Collides(SubOpen(read[..i]), read[i]);
      assert Collides(SubOpen(all[..i]), all[i]);
    }
    if Collides(SubOpen(read), e) { assert Collides(SubOpen(all[..n]), all[n]); }
  }

  lemma AdvanceReasons(p: Progress, e: Entry, order: seq<string>, id: string)
    requires EntryKeeps(p.snap, e, order) && !Sub(id)
    requires Get(p.snap.reasons, id) == Joined(p.out, Reasoning, id)
    ensures var q := Advance(p, e, order); Get(q.snap.reasons, id) == Joined(q.out, Reasoning, id)
  {
    var r := EntryBatch(p.snap, e, order);
    PassJoins(r.snap.opens, p.last, r.events, Reasoning, id);
    JoinedAppend(p.out, Wire(p, e, order).sent, Reasoning, id);
  }

  lemma AdvanceRecords(p: Progress, read: seq<Entry>, e: Entry, order: seq<string>, id: string)
    requires EntryKeeps(p.snap, e, order)
    requires Get(p.snap.reasons, id) == Feed("", ReasonChunks(read, id))
    ensures Get(Advance(p, e, order).snap.reasons, id) == Feed("", ReasonChunks(read + [e], id))
  {
    OneMoreFold(read, e);
    if Reasons(e, id) {
      FeedPush("", ReasonChunks(read, id), e.message.reasoning);
    } else {
      assert ReasonChunks(read, id) + [] == ReasonChunks(read, id);
    }
  }

  lemma AdvanceScans(p: Progress, e: Entry, order: seq<string>)
    requires Ok(p.snap) && Lists(order, p.snap.tools)
    requires Scan(INITIAL, p.out) == Broken || Scan(INITIAL, p.out) == ViewOf(p.snap)
    ensures Scan(INITIAL, Advance(p, e, order).out) == Scan(Scan(INITIAL, p.out), EntryBatch(p.snap, e, order).events)
  {
    var r := EntryBatch(p.snap, e, order);
    EveryBatchIsInner(p.snap, e, order);
    ScanAppend(INITIAL, p.out, Wire(p, e, order).sent);
    PassScansAlike(r.snap.opens, p.last, r.events, Scan(INITIAL, p.out));
  }

  /** The invariant survives every entry, whatever it is. */
  lemma AdvanceKeeps(p: Progress, read: seq<Entry>, e: Entry, order: seq<string>)
    requires RunInv(p, read) && Lists(order, p.snap.tools)
    ensures RunInv(Advance(p, e, order), read + [e])
    ensures ArgsFrom(ArgsSeen(read), Wire(p, e, order).sent)
  {
    var r, q := EntryBatch(p.snap, e, order), Advance(p, e, order);
    EveryEntryKeeps(p.snap, e, order);
    OneMoreFold(read, e);
    OneMoreCollision(read, e);
    AdvanceScans(p, e, order);
    PassForwards(r.snap.opens, p.last, r.events);
    PassNeverRepeats(r.snap.opens, p.last, r.events, p.out);
    forall id | !Sub(id) ensures Get(q.snap.reasons, id) == Joined(q.out, Reasoning, id) {
      AdvanceReasons(p, e, order, id);
    }
    forall id ensures Get(q.snap.reasons, id) == Feed("", ReasonChunks(read + [e], id)) {
      AdvanceRecords(p, read, e, order, id);
    }
    BrokenStaysBroken(r.events);
  }

  // ---- the end of the connection --------------------------------------------------------------------

  /** The closing events of the generator itself: calls first, then messages. */
  function Farewell(s: Snap, order: seq<string>): seq<Event> {
    CloseCalls(s.args, order) + CloseMessages(s.opens)
  }

  lemma FarewellBuilds(s: Snap, order: seq<string>)
    requires Ok(s) && Lists(order, s.tools)
    ensures Building(s, s.args, {}, Farewell(s, order)) && Replay(s.opens, Farewell(s, order)) == CLOSED
  {
    EmptyBatch(s);
    CloseCallsFollow(s, s.args, s.tools, [], order);
    var calls := CloseCalls(s.args, order);
    assert [] + calls == calls && s.tools - (set c | c in order) == {};
    CloseMessagesFollow(s, s.args, {}, calls);
  }

  lemma FarewellCloses(s: Snap, order: seq<string>, terminal: Event)
    requires Ok(s) && Lists(order, s.tools) && Terminal(terminal)
    ensures var b := Scan(ViewOf(s), Farewell(s, order) + [terminal]);
      b.Brackets? && b.stage == Finished
  {
    FarewellBuilds(s, order);
    ScanPush(ViewOf(s), Farewell(s, order), terminal);
    assert OpenIds(CLOSED) == {};
  }

  lemma FarewellSends(s: Snap, order: seq<string>)
    requires Ok(s) && Lists(order, s.tools)
    ensures ArgsFrom(s.args, Farewell(s, order)) && Plain(Farewell(s, order))
    ensures forall e :: e in Farewell(s, order) ==> !e.Snapshot?
  {
    CloseMessagesArePlain(s.opens);
    CloseCallsPlain(s.args, order, s);
    CloseCallsShape(s.args, order);
    SendsTogether(s.args, CloseCalls(s.args, order), CloseMessages(s.opens));
  }
}

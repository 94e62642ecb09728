/** `_reasoning_delta` (app/routers/chat.py, and the same function in
    app/routers/openai_compatible.py): providers send reasoning either as increments or as
    growing cumulative text, and clients must always receive increments. */
module ReasoningDelta {
  import opened Common

  /** The increment to emit for a chunk, given everything emitted before. */
  function Delta(previous: string, chunk: string): (delta: string)
    ensures delta == chunk || previous + delta == chunk
  {
    if previous != "" && StartsWith(chunk, previous) then chunk[|previous|..] else chunk
  }

  /** What the state records after the chunk. */
  function Recorded(previous: string, chunk: string): string {
    if StartsWith(chunk, previous) then chunk else previous + Delta(previous, chunk)
  }

  /** The recorded state is always exactly what has been emitted. */
  lemma RecordedIsEmitted(previous: string, chunk: string)
    ensures Recorded(previous, chunk) == previous + Delta(previous, chunk)
  {
    if StartsWith(chunk, previous) {
      assert chunk == previous + chunk[|previous|..];
    }
  }

  /** The state after a provider's chunks, in order. */
  function Feed(previous: string, chunks: seq<string>): string
    decreases |chunks|
  {
    if chunks == [] then previous else Feed(Recorded(previous, chunks[0]), chunks[1..])
  }

  lemma {:induction false} FeedPush(previous: string, chunks: seq<string>, chunk: string)
    ensures Feed(previous, chunks + [chunk]) == Recorded(Feed(previous, chunks), chunk)
    decreases |chunks|
  {
    if chunks == [] {
      assert Feed(Recorded(previous, chunk), (chunks + [chunk])[1..]) == Recorded(previous, chunk);
    } else {
      FeedPush(Recorded(previous, chunks[0]), chunks[1..], chunk);
      assert (chunks + [chunk])[1..] == chunks[1..] + [chunk];
    }
  }

  function Concat(chunks: seq<string>): string
    decreases |chunks|
  {
    if chunks == [] then "" else chunks[0] + Concat(chunks[1..])
  }

  ghost predicate Growing(chunks: seq<string>) {
    forall i :: 0 <= i < |chunks| - 1 ==> StartsWith(chunks[i + 1], chunks[i])
  }

  /** A provider of growing cumulative text: exactly its last text. */
  lemma {:induction false} CumulativeYieldsLast(previous: string, chunks: seq<string>)
    requires chunks != [] && StartsWith(chunks[0], previous) && Growing(chunks)
    ensures Feed(previous, chunks) == chunks[|chunks| - 1]
    decreases |chunks|
  {
    if |chunks| > 1 {
      assert StartsWith(chunks[1], chunks[0]);
      var rest := chunks[1..];
      assert Growing(rest) by {
        forall i | 0 <= i < |rest| - 1 ensures StartsWith(rest[i + 1], rest[i]) {
          assert rest[i + 1] == chunks[i + 2] && rest[i] == chunks[i + 1];
        }
      }
      CumulativeYieldsLast(chunks[0], rest);
    } else {
      assert Feed(chunks[0], chunks[1..]) == chunks[0];
    }
  }

  /** No increment repeats, as its own beginning, everything sent before it. */
  predicate Unambiguous(previous: string, chunks: seq<string>)
    decreases |chunks|
  {
    chunks == []
    || ((previous == "" || !StartsWith(chunks[0], previous)) && Unambiguous(previous + chunks[0], chunks[1..]))
  }

  lemma {:induction false} FeedNeverExceeds(previous: string, chunks: seq<string>)
    ensures |Feed(previous, chunks)| <= |previous| + |Concat(chunks)|
    decreases |chunks|
  {
    if chunks != [] { FeedNeverExceeds(Recorded(previous, chunks[0]), chunks[1..]); }
  }

  lemma IncrementIsAdded(previous: string, c: string, rest: string)
    requires c != "" && (previous == "" || !StartsWith(c, previous))
    ensures Recorded(previous, c) == previous + c
    ensures (previous + c) + rest == previous + (c + rest)
  {
    assert previous == "" ==> previous + c == c;
  }

  /** The chunk is taken for cumulative text, and what came before is dropped once. */
  lemma DroppedOnce(previous: string, chunks: seq<string>)
    requires chunks != [] && previous != "" && chunks[0] != "" && StartsWith(chunks[0], previous)
    ensures Feed(previous, chunks) != previous + Concat(chunks)
  {
    FeedNeverExceeds(chunks[0], chunks[1..]);
    assert |Feed(previous, chunks)| < |previous + Concat(chunks)|;
  }

  /** A provider of non-empty increments: their concatenation, exactly when no increment is
      ambiguous with cumulative text. */
  lemma {:induction false} IncrementsYieldConcatExactly(previous: string, chunks: seq<string>)
    requires forall c :: c in chunks ==> c != ""
    ensures Feed(previous, chunks) == previous + Concat(chunks) <==> Unambiguous(previous, chunks)
    decreases |chunks|
  {
    if chunks == [] {
      assert previous + Concat(chunks) == previous;
    } else {
      var c, rest := chunks[0], chunks[1..];
      if previous == "" || !StartsWith(c, previous) {
        assert forall x :: x in rest ==> x in chunks;
        assert c in chunks;
        IncrementIsAdded(previous, c, Concat(rest));
        IncrementsYieldConcatExactly(previous + c, rest);
      } else {
        assert c in chunks;
        DroppedOnce(previous, chunks);
      }
    }
  }
}

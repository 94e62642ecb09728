/** Places inside nested values, and what the text tests of the redactors mean position by position. */
module JsonPaths {
  import opened Common
  import opened JsonValues

  datatype PathStep = Key(key: string) | Index(i: nat)

  function Child(v: Value, step: PathStep): Value {
    match step case Key(k) => Get(v, k) case Index(i) => Item(v, i)
  }

  predicate HasChild(v: Value, step: PathStep) {
    match step case Key(k) => v.Dict? && k in v.entries case Index(i) => v.List? && i < |v.items|
  }

  /** The value at a place; nothing there reads as None. */
  function At(v: Value, path: seq<PathStep>): Value
    decreases |path|
  {
    if path == [] then v else At(Child(v, path[0]), path[1..])
  }

  /** The key a place hangs on; an item of a list has none. */
  function KeyAt(key: string, path: seq<PathStep>): string {
    if path == [] then key
    else match path[|path| - 1] case Key(k) => k case Index(_) => ""
  }

  function KeyOf(step: PathStep): string { match step case Key(k) => k case Index(_) => "" }

  lemma KeyAtTail(key: string, path: seq<PathStep>)
    requires path != []
    ensures KeyAt(key, path) == KeyAt(KeyOf(path[0]), path[1..])
  {
  }

  // ---- text, by position --------------------------------------------------------------------------

  /** `part` stands in `s` at `i`. */
  predicate StandsAt(s: string, part: string, i: int) { 0 <= i <= |s| - |part| && s[i..i + |part|] == part }

  lemma {:induction false} ContainsExactly(s: string, part: string)
    ensures Contains(s, part) <==> exists i :: StandsAt(s, part, i)
    decreases |s|
  {
    if StartsWith(s, part) {
      assert StandsAt(s, part, 0);
    } else if s != "" {
      ContainsExactly(s[1..], part);
      if i :| StandsAt(s, part, i) {
        assert i > 0 && s[1..][i - 1..i - 1 + |part|] == s[i..i + |part|];
        assert StandsAt(s[1..], part, i - 1);
      }
      if i :| StandsAt(s[1..], part, i) {
        assert s[1..][i..i + |part|] == s[i + 1..i + 1 + |part|];
        assert StandsAt(s, part, i + 1);
      }
    }
  }

  /** `word` stands in `s` at `i` between underscores or ends. */
  predicate WordAt(s: string, word: string, i: int) {
    StandsAt(s, word, i) && (i == 0 || s[i - 1] == '_') && (i + |word| == |s| || s[i + |word|] == '_')
  }

  lemma UnderscoredStands(s: string, word: string, i: int)
    requires StandsAt(s, "_" + word + "_", i)
    ensures WordAt(s, word, i + 1)
  {
    var w := "_" + word + "_";
    assert w[1..1 + |word|] == word && w[0] == '_' && w[|word| + 1] == '_';
    assert s[i..i + |w|] == w;
    assert forall x :: 0 <= x < |word| ==> s[i + 1 + x] == s[i..i + |w|][1 + x] == w[1 + x] == word[x];
    assert s[i + 1..i + 1 + |word|] == word;
    assert s[i] == s[i..i + |w|][0] && s[i + 1 + |word|] == s[i..i + |w|][|word| + 1];
  }

  lemma WordStandsUnderscored(s: string, word: string, i: int)
    requires WordAt(s, word, i) && 0 < i && i + |word| < |s|
    ensures StandsAt(s, "_" + word + "_", i - 1)
  {
    assert s[i - 1..i + |word| + 1] == [s[i - 1]] + s[i..i + |word|] + [s[i + |word|]];
  }

  lemma WordAtStart(s: string, word: string)
    ensures StartsWith(s, word + "_") ==> WordAt(s, word, 0)
    ensures WordAt(s, word, 0) && |word| < |s| ==> StartsWith(s, word + "_")
  {
    var w := word + "_";
    if StartsWith(s, w) {
      assert s[..|word|] == s[..|w|][..|word|] && w[..|word|] == word;
      assert s[|word|] == s[..|w|][|word|] == '_';
    }
    if WordAt(s, word, 0) && |word| < |s| { assert s[..|w|] == s[..|word|] + [s[|word|]]; }
  }

  lemma WordAtEnd(s: string, word: string)
    ensures EndsWith(s, "_" + word) ==> WordAt(s, word, |s| - |word|)
    ensures WordAt(s, word, |s| - |word|) && |word| < |s| ==> EndsWith(s, "_" + word)
  {
    var w := "_" + word;
    var n := |s| - |word|;
    if EndsWith(s, w) {
      assert s[n - 1..][1..] == s[n..] && w[1..] == word;
      assert s[n..n + |word|] == s[n..];
      assert s[n - 1] == s[n - 1..][0] == '_';
    }
    if WordAt(s, word, n) && |word| < |s| { assert s[n - 1..] == [s[n - 1]] + s[n..n + |word|]; }
  }

  lemma HasWordExactly(s: string, word: string)
    ensures HasWord(s, word) <==> exists i :: WordAt(s, word, i)
  {
    WordAtStart(s, word);
    WordAtEnd(s, word);
    ContainsExactly(s, "_" + word + "_");
    if s == word { assert WordAt(s, word, 0); }
    if i :| StandsAt(s, "_" + word + "_", i) { UnderscoredStands(s, word, i); }
    if i :| WordAt(s, word, i) {
      if 0 < i && i + |word| < |s| {
        WordStandsUnderscored(s, word, i);
      } else if i == 0 && |word| == |s| {
        assert s == s[0..|word|];
      }
    }
  }

  /** Lower case and underscores, letter by letter. */
  lemma {:induction false} NormalizedLetters(key: string)
    ensures |Normalized(key)| == |key|
    ensures forall i :: 0 <= i < |key| ==>
              var c := key[i];
              Normalized(key)[i] == if 'A' <= c <= 'Z' then (c as int - 'A' as int + 'a' as int) as char
                                    else if c == '-' then '_' else c
    decreases |key|
  {
    if key != "" { NormalizedLetters(key[1..]); }
  }

  // ---- white space ------------------------------------------------------------------------------------

  /** Tab, line feed, vertical tab, form feed, carriage return, the four separators, and space. */
  const SPACES: set<int> := {9, 10, 11, 12, 13, 28, 29, 30, 31, 32}

  predicate Blank(s: string) { forall i :: 0 <= i < |s| ==> s[i] as int in SPACES }

  lemma SpacesAreThese(c: char)
    ensures Space(c) <==> c as int in SPACES
  {
  }

  lemma {:induction false} TrimLeftSplits(s: string) returns (n: nat)
    ensures n <= |s| && TrimLeft(s) == s[n..] && Blank(s[..n]) && (n < |s| ==> s[n] as int !in SPACES)
    decreases |s|
  {
    if s != "" { SpacesAreThese(s[0]); }
    if s != "" && Space(s[0]) {
      var m := TrimLeftSplits(s[1..]);
      n := m + 1;
      assert s[1..][m..] == s[n..] && s[..n] == [s[0]] + s[1..][..m];
    } else {
      n := 0;
    }
  }

  lemma {:induction false} TrimRightSplits(s: string) returns (n: nat)
    ensures n <= |s| && TrimRight(s) == s[..n] && Blank(s[n..]) && (n > 0 ==> s[n - 1] as int !in SPACES)
    decreases |s|
  {
    if s != "" { SpacesAreThese(s[|s| - 1]); }
    if s != "" && Space(s[|s| - 1]) {
      var t := s[..|s| - 1];
      n := TrimRightSplits(t);
      assert t[..n] == s[..n] && s[n..] == t[n..] + [s[|s| - 1]];
    } else {
      n := |s|;
    }
  }

  /** What strip leaves: a middle part without white space at its ends, and only white space around it. */
  lemma TrimSplits(s: string) returns (i: nat, j: nat)
    ensures i <= j <= |s| && Trim(s) == s[i..j] && Blank(s[..i]) && Blank(s[j..])
    ensures i < j ==> s[i] as int !in SPACES && s[j - 1] as int !in SPACES
  {
    i := TrimLeftSplits(s);
    var m := TrimRightSplits(s[i..]);
    j := i + m;
    assert s[i..][..m] == s[i..j] && s[i..][m..] == s[j..];
  }

  /** The first character that is no white space. */
  ghost predicate FirstIs(s: string, c: char) {
    exists i :: 0 <= i < |s| && s[i] == c && Blank(s[..i])
  }

  lemma BlankHas(s: string, i: nat, j: nat, k: nat)
    requires i <= k < j <= |s| && (Blank(s[i..j]) || (i == 0 && Blank(s[..j])) || (j == |s| && Blank(s[i..])))
    ensures s[k] as int in SPACES
  {
    assert s[k] == s[i..j][k - i];
    if i == 0 { assert s[k] == s[..j][k]; }
    if j == |s| { assert s[k] == s[i..][k - i]; }
  }

  lemma TrimStartsExactly(s: string, c: char)
    requires c as int !in SPACES
    ensures StartsWith(Trim(s), [c]) <==> FirstIs(s, c)
  {
    var i, j := TrimSplits(s);
    if StartsWith(Trim(s), [c]) {
      assert s[i..j][0] == Trim(s)[..1][0] == c;
      assert s[i] == c && Blank(s[..i]);
    }
    if k :| 0 <= k < |s| && s[k] == c && Blank(s[..k]) {
      if k < i { BlankHas(s, 0, i, k); }
      if i < k && i < j { BlankHas(s, 0, k, i); }
      assert k == i && Trim(s)[0] == c;
      assert Trim(s)[..1] == [c];
    }
  }
}

/** Small shared vocabulary: optional values, text order, and the ordered prefix
    that an SQL `ORDER BY ... LIMIT n` returns. */
module Common {

  datatype Option<+T> = None | Some(value: T) {
    function GetOr(default: T): T {
      match this
      case Some(v) => v
      case None => default
    }
  }

  /** True when `prefix` is how `s` begins (Python's str.startswith). */
  predicate StartsWith(s: string, prefix: string) {
    |prefix| <= |s| && s[..|prefix|] == prefix
  }

  lemma ConcatAssoc<T>(a: seq<T>, b: seq<T>, c: seq<T>)
    ensures (a + b) + c == a + (b + c)
  {
  }

  lemma {:induction false} SubsetSize<T>(a: set<T>, b: set<T>)
    requires a <= b
    ensures |a| <= |b|
    decreases |a|
  {
    if a != {} {
      var x :| x in a;
      SubsetSize(a - {x}, b - {x});
    }
  }

  /** ASCII white space, as str.strip takes it. */
  predicate Space(c: char) { c == ' ' || 9 <= c as int <= 13 || 28 <= c as int <= 31 }

  function TrimLeft(s: string): string { if s != "" && Space(s[0]) then TrimLeft(s[1..]) else s }
  function TrimRight(s: string): string { if s != "" && Space(s[|s| - 1]) then TrimRight(s[..|s| - 1]) else s }

  /** str.strip, on ASCII white space. */
  function Trim(s: string): string { TrimRight(TrimLeft(s)) }

  /** SQLite's BINARY collation and Python's str order on code points. */
  predicate TextLess(a: string, b: string) {
    if b == [] then false
    else if a == [] then true
    else if a[0] != b[0] then a[0] < b[0]
    else TextLess(a[1..], b[1..])
  }

  ghost predicate StrictTotal<T(!new)>(less: (T, T) -> bool) {
    && (forall x :: !less(x, x))
    && (forall x, y :: less(x, y) || less(y, x) || x == y)
    && (forall x, y, z :: less(x, y) && less(y, z) ==> less(x, z))
  }

  lemma {:induction false} TextTrichotomy(a: string, b: string)
    ensures !TextLess(a, a)
    ensures TextLess(a, b) || TextLess(b, a) || a == b
  {
    if a != [] {
      TextTrichotomy(a[1..], a[1..]);
    }
    if a != [] && b != [] && a[0] == b[0] {
      TextTrichotomy(a[1..], b[1..]);
      assert a == [a[0]] + a[1..] && b == [b[0]] + b[1..];
    }
  }

  /** By positions: a text before another is its beginning, or has the lesser character where they first
      differ. */
  lemma {:induction false} TextLessExactly(a: string, b: string)
    ensures TextLess(a, b) <==> (|a| < |b| && b[..|a|] == a) || exists i :: DifferAt(a, b, i) && a[i] < b[i]
    decreases |a|
  {
    if a != [] && b != [] && a[0] == b[0] {
      var x, y := a[1..], b[1..];
      TextLessExactly(x, y);
      assert a == [a[0]] + x && b == [b[0]] + y;
      if i :| DifferAt(x, y, i) && x[i] < y[i] { Shifted(a, b, i); }
      if i :| DifferAt(a, b, i) && a[i] < b[i] { Shifted(a, b, i - 1); }
      assert |a| < |b| && b[..|a|] == a <==> |x| < |y| && y[..|x|] == x;
    } else if a != [] && b != [] {
      assert DifferAt(a, b, 0);
      if i :| DifferAt(a, b, i) && a[i] < b[i] { assert i == 0; }
    }
  }

  predicate DifferAt(a: string, b: string, i: int) { 0 <= i < |a| && i < |b| && a[..i] == b[..i] && a[i] != b[i] }

  lemma Shifted(a: string, b: string, i: nat)
    requires a != [] && b != [] && a[0] == b[0] && i < |a| - 1 && i < |b| - 1
    ensures DifferAt(a[1..], b[1..], i) <==> DifferAt(a, b, i + 1)
  {
    assert a[..i + 1] == [a[0]] + a[1..][..i] && b[..i + 1] == [b[0]] + b[1..][..i];
  }

  lemma {:induction false} TextTransitive(a: string, b: string, c: string)
    requires TextLess(a, b) && TextLess(b, c)
    ensures TextLess(a, c)
  {
    if a != [] && a[0] == b[0] && b[0] == c[0] {
      TextTransitive(a[1..], b[1..], c[1..]);
    }
  }

  lemma TextAsymmetric(a: string, b: string)
    requires TextLess(a, b)
    ensures !TextLess(b, a) && a != b
  {
    TextTrichotomy(a, a);
    if TextLess(b, a) { TextTransitive(a, b, a); }
  }

  /** Thread ids compare as text, and that order is a strict total order. */
  lemma TextOrderIsTotal()
    ensures StrictTotal(TextLess)
  {
    forall a: string, b: string
      ensures !TextLess(a, a) && (TextLess(a, b) || TextLess(b, a) || a == b)
    {
      TextTrichotomy(a, b);
    }
    forall a: string, b: string, c: string | TextLess(a, b) && TextLess(b, c)
      ensures TextLess(a, c)
    {
      TextTransitive(a, b, c);
    }
  }

  ghost predicate Ascending<T(!new)>(s: seq<T>, less: (T, T) -> bool) {
    forall i, j :: 0 <= i < j < |s| ==> less(s[i], s[j])
  }

  lemma {:induction false} LeastExists<T(!new)>(s: set<T>, less: (T, T) -> bool) returns (m: T)
    requires s != {} && StrictTotal(less)
    ensures m in s && forall x :: x in s && x != m ==> less(m, x)
    decreases |s|
  {
    var y :| y in s;
    if s == {y} {
      m := y;
    } else {
      var rest := s - {y};
      assert s == rest + {y};
      var k := LeastExists(rest, less);
      m := if less(y, k) then y else k;
      assert forall x :: x in s && x != y ==> x in rest;
    }
  }

  /** The least element of a non-empty set. */
  function Least<T(==,!new)>(s: set<T>, less: (T, T) -> bool): (m: T)
    requires s != {} && StrictTotal(less)
    ensures m in s && forall x :: x in s && x != m ==> less(m, x)
  {
    assert exists m :: m in s && forall x :: x in s && x != m ==> less(m, x) by {
      var m := LeastExists(s, less);
    }
    var m :| m in s && forall x :: x in s && x != m ==> less(m, x);
    m
  }

  /** The first `n` elements of `s` in ascending order: what ORDER BY with LIMIT
      returns. Elements left out all come after every element returned. */
  function FirstN<T(==,!new)>(s: set<T>, n: nat, less: (T, T) -> bool): (page: seq<T>)
    requires StrictTotal(less)
    ensures Ascending(page, less)
    ensures forall x :: x in page ==> x in s
    ensures |page| <= n
    ensures forall x, y :: x in s && x !in page && y in page ==> less(y, x)
    ensures |page| < n ==> forall x :: x in s ==> x in page
    ensures s != {} && n > 0 ==> page != []
    decreases n
  {
    if n == 0 || s == {} then []
    else
      var m := Least(s, less);
      [m] + FirstN(s - {m}, n - 1, less)
  }

  /** Python's sorted() of a set. */
  function Sorted<T(==,!new)>(s: set<T>, less: (T, T) -> bool): (order: seq<T>)
    requires StrictTotal(less)
    ensures Ascending(order, less)
    ensures forall x :: x in order <==> x in s
    decreases |s|
  {
    if s == {} then []
    else
      var m := Least(s, less);
      [m] + Sorted(s - {m}, less)
  }

  /** sorted() of a set of ids: each id once. */
  function SortedIds(s: set<string>): (order: seq<string>)
    ensures forall x :: x in order <==> x in s
    ensures forall i, j :: 0 <= i < j < |order| ==> order[i] != order[j]
  {
    TextOrderIsTotal();
    Sorted(s, TextLess)
  }
}

/** Nested configuration values with string keys, and the text tests the redactors make on keys. */
module JsonValues {
  import opened Common

  datatype Value =
    | Null
    | Bool(flag: bool)
    | Number(digits: string)
    | Text(text: string)
    | List(items: seq<Value>)
    | Dict(entries: map<string, Value>)

  /** `get`: a missing key reads as None. */
  function Get(v: Value, key: string): Value {
    if v.Dict? && key in v.entries then v.entries[key] else Null
  }

  function Item(v: Value, i: nat): Value { if v.List? && i < |v.items| then v.items[i] else Null }

  function Lower(c: char): char { if 'A' <= c <= 'Z' then ((c as int) + 32) as char else if c == '-' then '_' else c }

  /** `key.lower().replace("-", "_")`, for ASCII letters. */
  function Normalized(key: string): string {
    if key == "" then "" else [Lower(key[0])] + Normalized(key[1..])
  }

  predicate EndsWith(s: string, suffix: string) {
    |suffix| <= |s| && s[|s| - |suffix|..] == suffix
  }

  /** `part in s`. */
  predicate Contains(s: string, part: string) {
    StartsWith(s, part) || (s != "" && Contains(s[1..], part))
  }

  /** `part in s.split("_")`, for a part without underscores: it stands between underscores or ends. */
  predicate HasWord(s: string, part: string) {
    s == part || StartsWith(s, part + "_") || EndsWith(s, "_" + part) || Contains(s, "_" + part + "_")
  }

  lemma {:induction false} ContainsUses(s: string, part: string, c: char)
    requires Contains(s, part) && c in part
    ensures c in s
    decreases |s|
  {
    if StartsWith(s, part) {
      var i :| 0 <= i < |part| && part[i] == c;
      assert s[i] == s[..|part|][i];
    } else {
      ContainsUses(s[1..], part, c);
    }
  }

  lemma HasWordUses(s: string, part: string, c: char)
    requires HasWord(s, part) && c in part
    ensures c in s
  {
    var i :| 0 <= i < |part| && part[i] == c;
    if StartsWith(s, part + "_") {
      assert s[i] == s[..|part + "_"|][i] == (part + "_")[i];
    } else if EndsWith(s, "_" + part) {
      var at := |s| - |"_" + part|;
      assert s[at..][i + 1] == ("_" + part)[i + 1] == c;
    } else if s != part {
      assert ("_" + part + "_")[i + 1] == c;
      ContainsUses(s, "_" + part + "_", c);
    }
  }
}

/** The desktop configuration tool (deerflow/config_tool.py): secrets are replaced by one fixed
    placeholder text, and a saved document is restored against the stored configuration. */
module DesktopRedaction {
  import opened Common
  import opened JsonValues

  const REDACTED := "__DEERFLOW_REDACTED__"
  const PLACEHOLDER := Text(REDACTED)

  const SENSITIVE_NAMES := {"api_key", "access_key", "secret_key", "private_key", "app_secret", "client_secret",
                            "password", "token", "access_token", "refresh_token", "verification_token",
                            "credential", "credentials"}

  predicate SensitiveKey(key: string) {
    var k := Normalized(Trim(key));
    k in SENSITIVE_NAMES || EndsWith(k, "_api_key") || EndsWith(k, "_access_key") || EndsWith(k, "_secret")
    || EndsWith(k, "_password") || EndsWith(k, "_token")
  }

  predicate Letter(c: char) { 'a' <= c <= 'z' || 'A' <= c <= 'Z' || c == '_' }
  predicate Digit(c: char) { '0' <= c <= '9' }

  /** `$NAME` or `${...}` and nothing else. */
  predicate EnvReference(text: string) {
    || (|text| > 1 && text[0] == '$' && Letter(text[1])
        && forall i :: 1 < i < |text| ==> Letter(text[i]) || Digit(text[i]))
    || (|text| > 3 && StartsWith(text, "${") && text[|text| - 1] == '}' && '\n' !in text)
  }

  predicate Hidden(v: Value, key: string) {
    SensitiveKey(key) && v != Null && v != Text("") && !(v.Text? && EnvReference(Trim(v.text)))
  }

  /** `_redact_sensitive`. */
  function Redact(v: Value, key: string): Value
    decreases v
  {
    if Hidden(v, key) then PLACEHOLDER
    else
      match v
      case Dict(entries) => Dict(map k | k in entries :: Redact(entries[k], k))
      case List(items) => List(seq(|items|, i requires 0 <= i < |items| => Redact(items[i], "")))
      case _ => v
  }

  /** `_restore_redacted`. */
  function Restore(incoming: Value, existing: Value): Value
    decreases incoming
  {
    if incoming == PLACEHOLDER then (if existing != Null then existing else PLACEHOLDER)
    else
      match incoming
      case Dict(entries) => Dict(map k | k in entries :: Restore(entries[k], Get(existing, k)))
      case List(items) => List(seq(|items|, i requires 0 <= i < |items| => Restore(items[i], Item(existing, i))))
      case _ => incoming
  }

  /** `_contains_redacted`. */
  predicate ContainsRedacted(v: Value)
    decreases v
  {
    v == PLACEHOLDER ||
    match v
    case Dict(entries) => exists k :: k in entries && ContainsRedacted(entries[k])
    case List(items) => exists i :: 0 <= i < |items| && ContainsRedacted(items[i])
    case _ => false
  }

  // ---- the round trip --------------------------------------------------------------------------

  /** Restoring a redacted value against its original gives the original: always. */
  lemma {:induction false} RestoreUndoesRedact(v: Value, key: string)
    ensures Restore(Redact(v, key), v) == v
    decreases v
  {
    if !Hidden(v, key) {
      if v.Dict? {
        var r := Redact(v, key);
        forall k | k in v.entries ensures Restore(r.entries[k], Get(v, k)) == v.entries[k] {
          RestoreUndoesRedact(v.entries[k], k);
        }
        assert Restore(r, v).entries == v.entries;
      } else if v.List? {
        var r := Redact(v, key);
        forall i | 0 <= i < |v.items| ensures Restore(r.items[i], Item(v, i)) == v.items[i] {
          RestoreUndoesRedact(v.items[i], "");
        }
        assert Restore(r, v).items == v.items;
      }
    }
  }

  /** A placeholder with nothing stored behind it. */
  predicate Unmatched(incoming: Value, existing: Value)
    decreases incoming
  {
    if incoming == PLACEHOLDER then existing == Null
    else
      match incoming
      case Dict(entries) => exists k :: k in entries && Unmatched(entries[k], Get(existing, k))
      case List(items) => exists i :: 0 <= i < |items| && Unmatched(items[i], Item(existing, i))
      case _ => false
  }

  /** Saving refuses a document that still contains a placeholder after restoring. Against a stored
      value without placeholders, that is exactly when some placeholder had nothing behind it: a
      placeholder never reaches the file, and no restorable document is refused. */
  lemma {:induction false} LeftoverExactlyWhenUnmatched(incoming: Value, existing: Value)
    requires !ContainsRedacted(existing)
    ensures ContainsRedacted(Restore(incoming, existing)) <==> Unmatched(incoming, existing)
    decreases incoming
  {
    if incoming != PLACEHOLDER {
      var r := Restore(incoming, existing);
      if incoming.Dict? {
        forall k | k in incoming.entries
          ensures ContainsRedacted(r.entries[k]) <==> Unmatched(incoming.entries[k], Get(existing, k))
        {
          LeftoverExactlyWhenUnmatched(incoming.entries[k], Get(existing, k));
        }
      } else if incoming.List? {
        forall i | 0 <= i < |incoming.items|
          ensures ContainsRedacted(r.items[i]) <==> Unmatched(incoming.items[i], Item(existing, i))
        {
          LeftoverExactlyWhenUnmatched(incoming.items[i], Item(existing, i));
        }
      }
    }
  }

  /** Everything outside sensitive keys is shown as stored: nothing sensitive, nothing hidden. */
  predicate HasHidden(v: Value, key: string)
    decreases v
  {
    Hidden(v, key) ||
    match v
    case Dict(entries) => exists k :: k in entries && HasHidden(entries[k], k)
    case List(items) => exists i :: 0 <= i < |items| && HasHidden(items[i], "")
    case _ => false
  }

  lemma {:induction false} ShownAsStoredExactly(v: Value, key: string)
    requires !ContainsRedacted(v)
    ensures Redact(v, key) == v <==> !HasHidden(v, key)
    decreases v
  {
    if !Hidden(v, key) {
      var r := Redact(v, key);
      if v.Dict? {
        forall k | k in v.entries ensures r.entries[k] == v.entries[k] <==> !HasHidden(v.entries[k], k) {
          ShownAsStoredExactly(v.entries[k], k);
        }
        assert r == v <==> forall k :: k in v.entries ==> r.entries[k] == v.entries[k];
      } else if v.List? {
        forall i | 0 <= i < |v.items| ensures r.items[i] == v.items[i] <==> !HasHidden(v.items[i], "") {
          ShownAsStoredExactly(v.items[i], "");
        }
        assert r == v <==> forall i :: 0 <= i < |v.items| ==> r.items[i] == v.items[i];
      }
    }
  }

  // ---- named items -----------------------------------------------------------------------------------

  /** The stored items by name; a later item of the same name wins. `show` is str(). */
  function ByName(existing: seq<Value>, show: Value -> string): map<string, Value> {
    if existing == [] then map[]
    else
      var before := ByName(existing[..|existing| - 1], show);
      var item := existing[|existing| - 1];
      if item.Dict? then before[show(Get(item, "name")) := item] else before
  }

  /** `_restore_named_items`. */
  function RestoreNamed(incoming: seq<Value>, existing: seq<Value>, show: Value -> string): seq<Value> {
    var stored := ByName(existing, show);
    seq(|incoming|, i requires 0 <= i < |incoming| =>
      var name := show(Get(incoming[i], "name"));
      Restore(incoming[i], if name in stored then stored[name] else Null))
  }

  /** Items with a text for a name, no two alike. */
  ghost predicate UniquelyNamed(items: seq<Value>) {
    && (forall i :: 0 <= i < |items| ==> items[i].Dict? && Get(items[i], "name").Text?)
    && (forall i, j :: 0 <= i < j < |items| ==> Get(items[i], "name") != Get(items[j], "name"))
  }

  lemma {:induction false} FoundByName(items: seq<Value>, show: Value -> string, i: nat)
    requires UniquelyNamed(items) && i < |items| && forall t :: show(Text(t)) == t
    ensures var name := Get(items[i], "name").text; name in ByName(items, show) && ByName(items, show)[name] == items[i]
    decreases |items|
  {
    var n := |items| - 1;
    if i < n {
      assert Get(items[i], "name") != Get(items[n], "name");
      FoundByName(items[..n], show, i);
      assert show(Text(Get(items[n], "name").text)) != Get(items[i], "name").text;
    } else {
      assert show(Text(Get(items[n], "name").text)) == Get(items[n], "name").text;
    }
  }

  lemma NameIsShown(item: Value)
    requires item.Dict? && Get(item, "name").Text?
    ensures Redact(item, "").Dict? && Get(Redact(item, ""), "name") == Get(item, "name")
  {
    assert Trim("name") == "name" && !Space("name"[0]) && !Space("name"[3]);
    assert Normalized("name") == "name";
    assert !SensitiveKey("name");
    assert Normalized(Trim("")) == "" && !SensitiveKey("");
  }

  /** Uniquely named items come back whichever of them are sent, in whatever order and however often:
      each redacted item is restored to its own original. */
  lemma NamedItemsComeBack(items: seq<Value>, show: Value -> string, picks: seq<nat>)
    requires UniquelyNamed(items) && forall t :: show(Text(t)) == t
    requires forall p :: 0 <= p < |picks| ==> picks[p] < |items|
    ensures var sent := seq(|picks|, p requires 0 <= p < |picks| => Redact(items[picks[p]], ""));
      RestoreNamed(sent, items, show) == seq(|picks|, p requires 0 <= p < |picks| => items[picks[p]])
  {
    var sent := seq(|picks|, p requires 0 <= p < |picks| => Redact(items[picks[p]], ""));
    var back := RestoreNamed(sent, items, show);
    forall p | 0 <= p < |picks| ensures back[p] == items[picks[p]] {
      var item := items[picks[p]];
      NameIsShown(item);
      FoundByName(items, show, picks[p]);
      RestoreUndoesRedact(item, "");
      assert show(Text(Get(item, "name").text)) == Get(item, "name").text;
    }
  }
}

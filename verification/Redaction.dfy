/** What the admin API shows of a configuration, and how it takes it back (app/routers/admin.py).
    Secrets are replaced by small marker dictionaries; restoring a shown value against the stored
    one puts the secrets back. */
module Redaction {
  import opened Common
  import opened JsonValues

  const SECRET_NAMES := {"api_key", "access_key", "secret_key", "secret", "token", "password", "authorization",
                         "client_secret", "refresh_token", "app_secret"}

  /** `_is_secret_key`; "" is no key. */
  predicate SecretKey(key: string) {
    var k := Normalized(key);
    && k != "" && k != "api_key_env"
    && (k in SECRET_NAMES || Contains(k, "api_key") || Contains(k, "secret") || Contains(k, "password")
        || Contains(k, "authorization") || HasWord(k, "token"))
  }

  predicate SecretTable(key: string, v: Value) {
    (Normalized(key) == "env" || Normalized(key) == "headers") && v.Dict?
  }

  // ---- the three markers ---------------------------------------------------------------------

  const CLEAR := Dict(map["redacted" := Bool(false), "configured" := Bool(false)])
  const LITERAL := Dict(map["redacted" := Bool(true), "configured" := Bool(true), "source" := Text("literal")])

  function EnvMarker(v: Value): Value {
    Dict(map["redacted" := Bool(false), "configured" := Bool(true), "source" := Text("env_ref"), "value" := v])
  }

  predicate LiteralShaped(v: Value) { v == LITERAL }
  predicate ClearShaped(v: Value) { v == CLEAR }
  predicate EnvShaped(v: Value) { v.Dict? && "value" in v.entries && v == EnvMarker(v.entries["value"]) }

  predicate Empty(v: Value) { v == Null || v == Text("") }
  predicate EnvReference(v: Value) { v.Text? && StartsWith(Trim(v.text), "$") }

  /** `_redacted_secret`. */
  function RedactedSecret(v: Value): Value {
    if Empty(v) then CLEAR else if EnvReference(v) then EnvMarker(v) else LITERAL
  }

  /** `_redact_value`. */
  function Redact(key: string, v: Value): Value
    decreases v
  {
    if SecretTable(key, v) then Dict(map k | k in v.entries :: RedactedSecret(v.entries[k]))
    else if SecretKey(key) then RedactedSecret(v)
    else
      match v
      case Dict(entries) => Dict(map k | k in entries :: Redact(k, entries[k]))
      case List(items) => List(seq(|items|, i requires 0 <= i < |items| => Redact("", items[i])))
      case _ => v
  }

  /** `_restore_redacted_values`; None is the refusal to keep a secret that was never stored. */
  function Restore(incoming: Value, existing: Value): Option<Value>
    decreases incoming
  {
    if LiteralShaped(incoming) then (if existing == Null then None else Some(existing))
    else if ClearShaped(incoming) then Some(Null)
    else if EnvShaped(incoming) then Some(incoming.entries["value"])
    else
      match incoming
      case Dict(entries) =>
        if exists k :: k in entries && Restore(entries[k], Get(existing, k)) == None then None
        else Some(Dict(map k | k in entries :: Restore(entries[k], Get(existing, k)).GetOr(Null)))
      case List(items) =>
        if exists i :: 0 <= i < |items| && Restore(items[i], Item(existing, i)) == None then None
        else Some(List(seq(|items|, i requires 0 <= i < |items| => Restore(items[i], Item(existing, i)).GetOr(Null))))
      case _ => Some(incoming)
  }

  // ---- the round trip -------------------------------------------------------------------------

  /** An empty secret reads back as none at all. */
  function NormSecret(v: Value): Value { if v == Text("") then Null else v }

  function Norm(key: string, v: Value): Value
    decreases v
  {
    if SecretTable(key, v) then Dict(map k | k in v.entries :: NormSecret(v.entries[k]))
    else if SecretKey(key) then NormSecret(v)
    else
      match v
      case Dict(entries) => Dict(map k | k in entries :: Norm(k, entries[k]))
      case List(items) => List(seq(|items|, i requires 0 <= i < |items| => Norm("", items[i])))
      case _ => v
  }

  /** No dictionary that is shown as it is looks like a clear or an environment marker. A literal
      lookalike does no harm. */
  predicate NoLookalike(key: string, v: Value)
    decreases v
  {
    if SecretTable(key, v) || SecretKey(key) then true
    else
      match v
      case Dict(entries) => !ClearShaped(v) && !EnvShaped(v) && forall k :: k in entries ==> NoLookalike(k, entries[k])
      case List(items) => forall i :: 0 <= i < |items| ==> NoLookalike("", items[i])
      case _ => true
  }

  lemma MarkersDiffer(v: Value)
    ensures CLEAR != LITERAL && EnvMarker(v) != CLEAR && EnvMarker(v) != LITERAL
    ensures EnvShaped(EnvMarker(v)) && !EnvShaped(CLEAR) && !EnvShaped(LITERAL)
  {
    assert CLEAR.entries["redacted"] != LITERAL.entries["redacted"];
    assert "value" in EnvMarker(v).entries && "value" !in CLEAR.entries && "value" !in LITERAL.entries;
    assert EnvMarker(v).entries["value"] == v;
  }

  lemma SecretRoundTrip(v: Value)
    ensures Restore(RedactedSecret(v), v) == Some(NormSecret(v))
  {
    MarkersDiffer(v);
  }

  /** Letters every secret key has. */
  ghost predicate PlainLetters(k: string) {
    'p' !in k && 'k' !in k && ('s' !in k || 't' !in k) && ('a' !in k || 't' !in k || 'o' !in k)
  }

  lemma NotNamed(k: string)
    requires PlainLetters(k)
    ensures k !in SECRET_NAMES
  {
  }

  lemma NoSecretPart(k: string)
    requires PlainLetters(k)
    ensures !Contains(k, "api_key") && !Contains(k, "secret") && !Contains(k, "password")
        && !Contains(k, "authorization")
    ensures !HasWord(k, "token")
  {
    if Contains(k, "api_key") { ContainsUses(k, "api_key", "api_key"[1]); }
    if Contains(k, "secret") { ContainsUses(k, "secret", "secret"[0]); ContainsUses(k, "secret", "secret"[5]); }
    if Contains(k, "password") { ContainsUses(k, "password", "password"[0]); }
    if Contains(k, "authorization") {
      ContainsUses(k, "authorization", "authorization"[0]);
      ContainsUses(k, "authorization", "authorization"[2]);
      ContainsUses(k, "authorization", "authorization"[4]);
    }
    if HasWord(k, "token") { HasWordUses(k, "token", "token"[2]); }
  }

  lemma {:induction false} LowerCaseIsNormal(key: string)
    requires forall i :: 0 <= i < |key| ==> 'a' <= key[i] <= 'z'
    ensures Normalized(key) == key
  {
    if key != "" { LowerCaseIsNormal(key[1..]); }
  }

  /** A lower-case key without those letters is shown as it is. */
  lemma PlainKey(key: string)
    requires forall i :: 0 <= i < |key| ==> 'a' <= key[i] <= 'z'
    requires PlainLetters(key) && key != "env" && key != "headers"
    ensures forall v :: Shown(key, v)
  {
    LowerCaseIsNormal(key);
    NotNamed(key);
    NoSecretPart(key);
  }

  lemma FlagKeysArePlain()
    ensures forall v :: Shown("redacted", v) && Shown("configured", v)
  {
    PlainKey("redacted");
    PlainKey("configured");
  }

  lemma TextKeysArePlain()
    ensures forall v :: Shown("source", v) && Shown("value", v)
  {
    PlainKey("source");
    PlainKey("value");
  }

  lemma MarkerKeysArePlain()
    ensures forall v :: Shown("redacted", v) && Shown("configured", v) && Shown("source", v) && Shown("value", v)
  {
    FlagKeysArePlain();
    TextKeysArePlain();
  }

  lemma TableKeysArePlain(key: string)
    ensures Normalized(key) == "env" || Normalized(key) == "headers" ==> !SecretKey(key)
  {
    if Normalized(key) == "env" || Normalized(key) == "headers" {
      NotNamed(Normalized(key));
      NoSecretPart(Normalized(key));
    }
  }

  /** A dictionary shown as it is. */
  predicate Shown(key: string, v: Value) { !SecretTable(key, v) && !SecretKey(key) }

  /** What shows as a marker's flag or source is just that. */
  lemma ScalarShows(key: string, v: Value, scalar: Value)
    requires Shown(key, v) && (scalar.Bool? || scalar.Text?)
    ensures Redact(key, v) == scalar <==> v == scalar
    ensures Norm(key, v) == scalar <==> v == scalar
  {
  }

  /** A shown dictionary looks like a marker exactly when the stored one does. */
  lemma ShapesShow(key: string, v: Value)
    requires Shown(key, v) && v.Dict?
    ensures LiteralShaped(Redact(key, v)) <==> LiteralShaped(v)
    ensures ClearShaped(Redact(key, v)) <==> ClearShaped(v)
    ensures EnvShaped(Redact(key, v)) <==> EnvShaped(v)
  {
    MarkerKeysArePlain();
    var r := Redact(key, v);
    assert r.entries.Keys == v.entries.Keys;
    if "redacted" in v.entries {
      ScalarShows("redacted", v.entries["redacted"], Bool(true));
      ScalarShows("redacted", v.entries["redacted"], Bool(false));
    }
    if "configured" in v.entries {
      ScalarShows("configured", v.entries["configured"], Bool(true));
      ScalarShows("configured", v.entries["configured"], Bool(false));
    }
    if "source" in v.entries {
      ScalarShows("source", v.entries["source"], Text("literal"));
      ScalarShows("source", v.entries["source"], Text("env_ref"));
    }
    ShapesByEntries(r);
    ShapesByEntries(v);
  }

  predicate Holds(v: Value, key: string, scalar: Value) { v.Dict? && key in v.entries && v.entries[key] == scalar }

  lemma ShapesByEntries(v: Value)
    requires v.Dict?
    ensures LiteralShaped(v) <==>
            (v.entries.Keys == {"redacted", "configured", "source"} && Holds(v, "redacted", Bool(true))
             && Holds(v, "configured", Bool(true)) && Holds(v, "source", Text("literal")))
    ensures ClearShaped(v) <==>
            (v.entries.Keys == {"redacted", "configured"} && Holds(v, "redacted", Bool(false))
             && Holds(v, "configured", Bool(false)))
    ensures EnvShaped(v) <==>
            (v.entries.Keys == {"redacted", "configured", "source", "value"} && Holds(v, "redacted", Bool(false))
             && Holds(v, "configured", Bool(true)) && Holds(v, "source", Text("env_ref")))
  {
  }

  /** One value comes back. */
  predicate Returns(key: string, v: Value) { Restore(Redact(key, v), v) == Some(Norm(key, v)) }

  /** A shown value never equals an environment marker around its own normal form: each would have to
      be nested in the other for ever. */
  lemma {:induction false} NeverItsOwnMarker(w: Value)
    ensures Redact("value", w) != EnvMarker(Norm("value", w))
    decreases w
  {
    MarkerKeysArePlain();
    assert Shown("value", w);
    if Redact("value", w) == EnvMarker(Norm("value", w)) {
      assert w.Dict?;
      ShapesShow("value", w);
      MarkersDiffer(Norm("value", w));
      assert EnvShaped(w);
      var inner := w.entries["value"];
      NormOfMarker("value", w);
      assert Redact("value", w).entries["value"] == Redact("value", inner);
      assert EnvMarker(Norm("value", w)).entries["value"] == Norm("value", w);
      NeverItsOwnMarker(inner);
    }
  }

  /** A shown dictionary is redacted and normalised entry by entry. */
  lemma EntryByEntry(key: string, v: Value)
    requires Shown(key, v) && v.Dict?
    ensures Redact(key, v).Dict? && Redact(key, v).entries.Keys == v.entries.Keys
    ensures Norm(key, v).Dict? && Norm(key, v).entries.Keys == v.entries.Keys
    ensures forall k :: k in v.entries ==>
              Redact(key, v).entries[k] == Redact(k, v.entries[k]) && Norm(key, v).entries[k] == Norm(k, v.entries[k])
  {
  }

  lemma ScalarEntry(key: string, v: Value, k: string, scalar: Value)
    requires Shown(key, v) && Holds(v, k, scalar) && Shown(k, scalar) && (scalar.Bool? || scalar.Text?)
    ensures Holds(Redact(key, v), k, scalar) && Holds(Norm(key, v), k, scalar)
  {
    EntryByEntry(key, v);
    ScalarShows(k, scalar, scalar);
  }

  lemma NormOfMarker(key: string, v: Value)
    requires Shown(key, v) && EnvShaped(v)
    ensures Norm(key, v) == EnvMarker(Norm("value", v.entries["value"]))
    ensures Redact(key, v) == EnvMarker(Redact("value", v.entries["value"]))
  {
    MarkerKeysArePlain();
    ShapesByEntries(v);
    EntryByEntry(key, v);
    ScalarEntry(key, v, "redacted", Bool(false));
    ScalarEntry(key, v, "configured", Bool(true));
    ScalarEntry(key, v, "source", Text("env_ref"));
    ShapesByEntries(Norm(key, v));
    ShapesByEntries(Redact(key, v));
  }

  /** A stored dictionary shaped like a clear or environment marker is taken for one. */
  lemma LookalikeIsLost(key: string, v: Value)
    requires Shown(key, v) && v.Dict? && (ClearShaped(v) || EnvShaped(v))
    ensures !Returns(key, v)
  {
    ShapesShow(key, v);
    if EnvShaped(v) {
      var w := v.entries["value"];
      NormOfMarker(key, v);
      MarkersDiffer(Redact("value", w));
      NeverItsOwnMarker(w);
    } else {
      MarkersDiffer(Null);
    }
  }

  lemma LiteralLookalikeReturns(key: string, v: Value)
    requires Shown(key, v) && LiteralShaped(v)
    ensures Returns(key, v)
  {
    ShapesShow(key, v);
    MarkerKeysArePlain();
    ShapesByEntries(v);
    EntryByEntry(key, v);
    ScalarEntry(key, v, "redacted", Bool(true));
    ScalarEntry(key, v, "configured", Bool(true));
    ScalarEntry(key, v, "source", Text("literal"));
    ShapesByEntries(Norm(key, v));
  }

  lemma LiteralHasNoLookalike(key: string, v: Value)
    requires Shown(key, v) && LiteralShaped(v)
    ensures NoLookalike(key, v)
  {
    MarkersDiffer(Null);
  }

  /** Restoring an ordinary dictionary whose entries all restore. */
  lemma RestoreEntries(incoming: Value, existing: Value, want: map<string, Value>)
    requires incoming.Dict? && !LiteralShaped(incoming) && !ClearShaped(incoming) && !EnvShaped(incoming)
    requires want.Keys == incoming.entries.Keys
    requires forall k :: k in want ==> Restore(incoming.entries[k], Get(existing, k)) == Some(want[k])
    ensures Restore(incoming, existing) == Some(Dict(want))
  {
    assert Restore(incoming, existing).Some?;
    assert Restore(incoming, existing).value.entries == want;
  }

  lemma DictComesBack(key: string, v: Value)
    requires Shown(key, v) && v.Dict? && !LiteralShaped(v) && !ClearShaped(v) && !EnvShaped(v)
    requires forall k :: k in v.entries ==> Returns(k, v.entries[k])
    ensures Returns(key, v)
  {
    ShapesShow(key, v);
    EntryByEntry(key, v);
    var r, want := Redact(key, v), Norm(key, v).entries;
    forall k | k in want ensures Restore(r.entries[k], Get(v, k)) == Some(want[k]) {
      assert Returns(k, v.entries[k]);
    }
    RestoreEntries(r, v, want);
  }

  /** Restoring an ordinary dictionary restores each entry, or refuses. */
  lemma RestoredEntry(incoming: Value, existing: Value, k: string)
    requires incoming.Dict? && !LiteralShaped(incoming) && !ClearShaped(incoming) && !EnvShaped(incoming)
    requires k in incoming.entries && Restore(incoming, existing).Some?
    ensures var back := Restore(incoming, existing).value;
      back.Dict? && k in back.entries && Restore(incoming.entries[k], Get(existing, k)) == Some(back.entries[k])
  {
    assert Restore(incoming.entries[k], Get(existing, k)) != None;
  }

  lemma DictIsLost(key: string, v: Value, k: string)
    requires Shown(key, v) && v.Dict? && !LiteralShaped(v) && !ClearShaped(v) && !EnvShaped(v)
    requires k in v.entries && !Returns(k, v.entries[k])
    ensures !Returns(key, v)
  {
    ShapesShow(key, v);
    EntryByEntry(key, v);
    if Restore(Redact(key, v), v).Some? { RestoredEntry(Redact(key, v), v, k); }
  }

  /** An ordinary dictionary comes back when and only when each of its entries does. */
  lemma DictReturns(key: string, v: Value)
    requires Shown(key, v) && v.Dict? && !LiteralShaped(v) && !ClearShaped(v) && !EnvShaped(v)
    ensures Returns(key, v) <==> forall k :: k in v.entries ==> Returns(k, v.entries[k])
  {
    if k :| k in v.entries && !Returns(k, v.entries[k]) { DictIsLost(key, v, k); } else { DictComesBack(key, v); }
  }

  lemma ListReturns(key: string, v: Value)
    requires Shown(key, v) && v.List?
    ensures Returns(key, v) <==> forall i :: 0 <= i < |v.items| ==> Returns("", v.items[i])
  {
    var r := Redact(key, v);
    assert r.List? && |r.items| == |v.items|;
    assert forall i :: 0 <= i < |v.items| ==> r.items[i] == Redact("", v.items[i]) && Item(v, i) == v.items[i];
    if forall i :: 0 <= i < |v.items| ==> Returns("", v.items[i]) {
      assert Restore(r, v).value.items == Norm(key, v).items;
    } else {
      var i :| 0 <= i < |v.items| && !Returns("", v.items[i]);
      if Restore(r, v).Some? { assert Restore(r, v).value.items[i] != Norm(key, v).items[i]; }
    }
  }

  /** A dictionary of markers is itself none: its flags are dictionaries. */
  lemma TableIsOrdinary(r: Value)
    requires r.Dict? && forall k :: k in r.entries ==> r.entries[k].Dict?
    ensures !LiteralShaped(r) && !ClearShaped(r) && !EnvShaped(r)
  {
    ShapesByEntries(r);
  }

  lemma SecretTableReturns(key: string, v: Value)
    requires SecretTable(key, v)
    ensures Returns(key, v)
  {
    var r, want := Redact(key, v), Norm(key, v).entries;
    assert r.entries.Keys == v.entries.Keys == want.Keys;
    TableIsOrdinary(r);
    forall k | k in want ensures Restore(r.entries[k], Get(v, k)) == Some(want[k]) {
      SecretRoundTrip(v.entries[k]);
    }
    RestoreEntries(r, v, want);
  }

  /** Restoring what was shown against what is stored gives back what is stored, with empty secrets
      read as none, exactly when no shown dictionary looks like a clear or environment marker. */
  lemma {:induction false} RoundTripExactly(key: string, v: Value)
    ensures Restore(Redact(key, v), v) == Some(Norm(key, v)) <==> NoLookalike(key, v)
    decreases v
  {
    if SecretTable(key, v) {
      SecretTableReturns(key, v);
    } else if SecretKey(key) {
      SecretRoundTrip(v);
    } else if v.Dict? {
      forall k | k in v.entries ensures Returns(k, v.entries[k]) <==> NoLookalike(k, v.entries[k]) {
        RoundTripExactly(k, v.entries[k]);
      }
      MarkersDiffer(Null);
      if ClearShaped(v) || EnvShaped(v) { LookalikeIsLost(key, v); }
      else if LiteralShaped(v) { LiteralLookalikeReturns(key, v); LiteralHasNoLookalike(key, v); }
      else { DictReturns(key, v); }
    } else if v.List? {
      forall i | 0 <= i < |v.items| ensures Returns("", v.items[i]) <==> NoLookalike("", v.items[i]) {
        RoundTripExactly("", v.items[i]);
      }
      ListReturns(key, v);
    }
  }

  // ---- what is shown tells nothing about secrets -----------------------------------------------

  /** Both empty, the same environment reference, or both literal. */
  predicate SameSecretKind(a: Value, b: Value) {
    (Empty(a) && Empty(b)) || (EnvReference(a) && a == b)
    || (!Empty(a) && !Empty(b) && !EnvReference(a) && !EnvReference(b))
  }

  /** Equal except for the content of literal secrets. */
  predicate AlikeOutsideSecrets(key: string, a: Value, b: Value)
    decreases a
  {
    if SecretTable(key, a) && SecretTable(key, b) then
      a.entries.Keys == b.entries.Keys && forall k :: k in a.entries ==> SameSecretKind(a.entries[k], b.entries[k])
    else if SecretKey(key) then SameSecretKind(a, b)
    else
      match a
      case Dict(x) =>
        b.Dict? && x.Keys == b.entries.Keys && forall k :: k in x ==> AlikeOutsideSecrets(k, x[k], b.entries[k])
      case List(x) =>
        b.List? && |x| == |b.items| && forall i :: 0 <= i < |x| ==> AlikeOutsideSecrets("", x[i], b.items[i])
      case _ => a == b
  }

  lemma SecretsShowTheirKind(a: Value, b: Value)
    ensures RedactedSecret(a) == RedactedSecret(b) <==> SameSecretKind(a, b)
  {
    MarkersDiffer(a);
    MarkersDiffer(b);
    if EnvReference(a) && EnvReference(b) {
      assert EnvMarker(a).entries["value"] == a && EnvMarker(b).entries["value"] == b;
    }
  }

  lemma TablesHide(key: string, a: Value, b: Value)
    requires SecretTable(key, a) && SecretTable(key, b)
    ensures Redact(key, a) == Redact(key, b) <==> AlikeOutsideSecrets(key, a, b)
  {
    var x, y := Redact(key, a), Redact(key, b);
    forall k | k in a.entries && k in b.entries
      ensures x.entries[k] == y.entries[k] <==> SameSecretKind(a.entries[k], b.entries[k])
    {
      SecretsShowTheirKind(a.entries[k], b.entries[k]);
    }
    assert x.entries.Keys == a.entries.Keys && y.entries.Keys == b.entries.Keys;
    assert x == y <==>
      (x.entries.Keys == y.entries.Keys && forall k :: k in x.entries ==> x.entries[k] == y.entries[k]);
  }

  lemma AlikeByEntries(key: string, a: Value, b: Value)
    requires Shown(key, a) && Shown(key, b) && a.Dict? && b.Dict?
    ensures AlikeOutsideSecrets(key, a, b) <==>
            (a.entries.Keys == b.entries.Keys
             && forall k :: k in a.entries ==> AlikeOutsideSecrets(k, a.entries[k], b.entries[k]))
  {
  }

  lemma MapsEqual(x: map<string, Value>, y: map<string, Value>)
    ensures x == y <==> (x.Keys == y.Keys && forall k :: k in x ==> x[k] == y[k])
  {
  }

  lemma DictsHide(key: string, a: Value, b: Value)
    requires Shown(key, a) && Shown(key, b) && a.Dict? && b.Dict?
    requires forall k :: k in a.entries && k in b.entries ==>
               (Redact(k, a.entries[k]) == Redact(k, b.entries[k]) <==>
                 AlikeOutsideSecrets(k, a.entries[k], b.entries[k]))
    ensures Redact(key, a) == Redact(key, b) <==> AlikeOutsideSecrets(key, a, b)
  {
    EntryByEntry(key, a);
    EntryByEntry(key, b);
    AlikeByEntries(key, a, b);
    MapsEqual(Redact(key, a).entries, Redact(key, b).entries);
  }

  lemma ListsHide(key: string, a: Value, b: Value)
    requires Shown(key, a) && a.List? && b.List?
    requires forall i :: 0 <= i < |a.items| && i < |b.items| ==>
               (Redact("", a.items[i]) == Redact("", b.items[i]) <==> AlikeOutsideSecrets("", a.items[i], b.items[i]))
    ensures Redact(key, a) == Redact(key, b) <==> AlikeOutsideSecrets(key, a, b)
  {
    var x, y := Redact(key, a), Redact(key, b);
    assert |x.items| == |a.items| && |y.items| == |b.items|;
    assert x == y <==> (|x.items| == |y.items| && forall i :: 0 <= i < |x.items| ==> x.items[i] == y.items[i]);
  }

  /** Two values are shown alike exactly when they differ in nothing but literal secrets: everything
      else is shown, and no literal secret is. */
  lemma {:induction false} OnlySecretsAreHidden(key: string, a: Value, b: Value)
    ensures Redact(key, a) == Redact(key, b) <==> AlikeOutsideSecrets(key, a, b)
    decreases a
  {
    if SecretTable(key, a) && SecretTable(key, b) {
      TablesHide(key, a, b);
    } else if SecretKey(key) {
      TableKeysArePlain(key);
      SecretsShowTheirKind(a, b);
    } else if a.Dict? && b.Dict? {
      forall k | k in a.entries && k in b.entries
        ensures Redact(k, a.entries[k]) == Redact(k, b.entries[k]) <==>
            AlikeOutsideSecrets(k, a.entries[k], b.entries[k])
      {
        OnlySecretsAreHidden(k, a.entries[k], b.entries[k]);
      }
      DictsHide(key, a, b);
    } else if a.List? && b.List? {
      forall i | 0 <= i < |a.items| && i < |b.items|
        ensures Redact("", a.items[i]) == Redact("", b.items[i]) <==> AlikeOutsideSecrets("", a.items[i], b.items[i])
      {
        OnlySecretsAreHidden("", a.items[i], b.items[i]);
      }
      ListsHide(key, a, b);
    }
  }
}

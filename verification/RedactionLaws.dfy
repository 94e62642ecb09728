/** What the admin redactor shows and takes back, said of the texts and places themselves: which keys are
    secret, what stands in place of a secret, and where an edited value ends up. */
module RedactionLaws {
  import opened Common
  import opened JsonValues
  import opened JsonPaths
  import opened Redaction

  // ---- which keys are secret ----------------------------------------------------------------------

  /** Of a key in lower case with underscores: a name on the list, a key with one of the parts anywhere in
      it, or one with `token` between underscores; but not the name of an environment variable. */
  ghost predicate NamesASecret(k: string) {
    && k != "" && k != "api_key_env"
    && (|| k in {"api_key", "access_key", "secret_key", "secret", "token", "password", "authorization",
                 "client_secret", "refresh_token", "app_secret"}
        || (exists i :: StandsAt(k, "api_key", i)) || (exists i :: StandsAt(k, "secret", i))
        || (exists i :: StandsAt(k, "password", i)) || (exists i :: StandsAt(k, "authorization", i))
        || (exists i :: WordAt(k, "token", i)))
  }

  lemma SecretKeysExactly(key: string)
    ensures SecretKey(key) <==> NamesASecret(Normalized(key))
  {
    var k := Normalized(key);
    ContainsExactly(k, "api_key");
    ContainsExactly(k, "secret");
    ContainsExactly(k, "password");
    ContainsExactly(k, "authorization");
    HasWordExactly(k, "token");
  }

  lemma StandsHas(s: string, part: string, i: int, j: nat)
    requires StandsAt(s, part, i) && j < |part|
    ensures 0 <= i + j < |s| && s[i + j] == part[j]
  {
    assert s[i + j] == s[i..i + |part|][j];
  }

  /** Access tokens are secrets, token counts are none. */
  lemma CountsAreShown()
    ensures !NamesASecret("max_tokens") && NamesASecret("access_token")
  {
    var k := "max_tokens";
    if i :| StandsAt(k, "api_key", i) { StandsHas(k, "api_key", i, 1); }
    if i :| StandsAt(k, "secret", i) { StandsHas(k, "secret", i, 2); }
    if i :| StandsAt(k, "password", i) { StandsHas(k, "password", i, 0); }
    if i :| StandsAt(k, "authorization", i) { StandsHas(k, "authorization", i, 1); }
    if i :| WordAt(k, "token", i) { StandsHas(k, "token", i, 0); }
    assert "access_token"[7..12] == "token";
    assert WordAt("access_token", "token", 7);
  }

  // ---- what stands in place of a secret --------------------------------------------------------------

  /** Nothing, an environment reference in full, or a literal of which nothing is left. */
  ghost predicate StandsFor(shown: Value, v: Value) {
    if v == Null || v == Text("") then
      shown == Dict(map["redacted" := Bool(false), "configured" := Bool(false)])
    else if v.Text? && FirstIs(v.text, '$') then
      shown == Dict(map["redacted" := Bool(false), "configured" := Bool(true), "source" := Text("env_ref"),
                        "value" := v])
    else
      shown == Dict(map["redacted" := Bool(true), "configured" := Bool(true), "source" := Text("literal")])
  }

  lemma RedactedSecretStands(v: Value)
    ensures StandsFor(RedactedSecret(v), v)
  {
    if v.Text? { TrimStartsExactly(v.text, '$'); }
  }

  /** Under a secret key, whatever the value. */
  lemma SecretsAreReplaced(key: string, v: Value)
    requires NamesASecret(Normalized(key))
    ensures StandsFor(Redact(key, v), v)
  {
    SecretKeysExactly(key);
    TableKeysArePlain(key);
    RedactedSecretStands(v);
  }

  /** In a table of environment variables or headers, every entry. */
  lemma TablesAreReplaced(key: string, v: Value)
    requires Normalized(key) in {"env", "headers"} && v.Dict?
    ensures var shown := Redact(key, v);
      shown.Dict? && shown.entries.Keys == v.entries.Keys
      && forall k :: k in v.entries ==> StandsFor(shown.entries[k], v.entries[k])
  {
    forall k | k in v.entries ensures StandsFor(Redact(key, v).entries[k], v.entries[k]) {
      RedactedSecretStands(v.entries[k]);
    }
  }

  /** Two literals show alike, and neither is anywhere in what is shown. */
  lemma LiteralsAreIndistinguishable(key: string, a: string, b: string)
    requires NamesASecret(Normalized(key)) && a != "" && b != "" && !FirstIs(a, '$') && !FirstIs(b, '$')
    ensures Redact(key, Text(a)) == Redact(key, Text(b))
    ensures var shown := Redact(key, Text(a));
      shown.Dict? && forall k :: k in shown.entries ==> shown.entries[k] in {Bool(true), Text("literal")}
  {
    SecretsAreReplaced(key, Text(a));
    SecretsAreReplaced(key, Text(b));
  }

  // ---- anywhere in a document ---------------------------------------------------------------------------

  /** No secret is met on the way to a place. */
  predicate InTheOpen(key: string, v: Value, path: seq<PathStep>)
    decreases |path|
  {
    path == [] ||
    (Shown(key, v) && HasChild(v, path[0]) && InTheOpen(KeyOf(path[0]), Child(v, path[0]), path[1..]))
  }

  /** Every place is shown by its own key: a value in the open where it is, a secret at any depth replaced. */
  lemma {:induction false} ShownInPlace(key: string, v: Value, path: seq<PathStep>)
    requires InTheOpen(key, v, path)
    ensures At(Redact(key, v), path) == Redact(KeyAt(key, path), At(v, path))
    decreases |path|
  {
    if path != [] {
      KeyAtTail(key, path);
      ShownInPlace(KeyOf(path[0]), Child(v, path[0]), path[1..]);
    }
  }

  /** And what is no secret, table or container is shown as it is. */
  lemma ScalarsAreShown(key: string, v: Value)
    requires !NamesASecret(Normalized(key)) && !v.Dict? && !v.List?
    ensures Redact(key, v) == v
  {
    SecretKeysExactly(key);
  }

  // ---- taking a document back --------------------------------------------------------------------------------

  predicate Marker(v: Value) { LiteralShaped(v) || ClearShaped(v) || EnvShaped(v) }

  /** The place is there, and no marker on the way to it. */
  predicate Reached(v: Value, path: seq<PathStep>)
    decreases |path|
  {
    path == [] || (!Marker(v) && HasChild(v, path[0]) && Reached(Child(v, path[0]), path[1..]))
  }

  lemma RestoredList(incoming: Value, existing: Value, i: nat)
    requires incoming.List? && i < |incoming.items| && Restore(incoming, existing).Some?
    ensures var back := Restore(incoming, existing).value;
      back.List? && |back.items| == |incoming.items|
      && Restore(incoming.items[i], Item(existing, i)) == Some(back.items[i])
  {
    assert Restore(incoming.items[i], Item(existing, i)) != None;
  }

  /** Every place is restored against the stored value at the same place. */
  lemma {:induction false} RestoredInPlace(incoming: Value, existing: Value, path: seq<PathStep>)
    requires Reached(incoming, path) && Restore(incoming, existing).Some?
    ensures Restore(At(incoming, path), At(existing, path)) == Some(At(Restore(incoming, existing).value, path))
    decreases |path|
  {
    if path != [] {
      match path[0] {
        case Key(k) =>
          RestoredEntry(incoming, existing, k);
          RestoredInPlace(incoming.entries[k], Get(existing, k), path[1..]);
        case Index(i) =>
          RestoredList(incoming, existing, i);
          RestoredInPlace(incoming.items[i], Item(existing, i), path[1..]);
      }
    }
  }

  /** What one place then holds: an edited scalar as it was sent, the stored value for a literal's marker,
      none for a cleared one, the reference for an environment's; containers keep their keys and length. */
  lemma WhatEachPlaceHolds(incoming: Value, existing: Value, path: seq<PathStep>)
    requires Reached(incoming, path) && Restore(incoming, existing).Some?
    ensures var sent, kept, back := At(incoming, path), At(existing, path), At(Restore(incoming, existing).value, path);
      && (!sent.Dict? && !sent.List? ==> back == sent)
      && (sent == Dict(map["redacted" := Bool(true), "configured" := Bool(true), "source" := Text("literal")]) ==>
            back == kept != Null)
      && (sent == Dict(map["redacted" := Bool(false), "configured" := Bool(false)]) ==> back == Null)
      && (sent.Dict? && EnvShaped(sent) ==> back == sent.entries["value"])
      && (sent.Dict? && !Marker(sent) ==> back.Dict? && back.entries.Keys == sent.entries.Keys)
      && (sent.List? ==> back.List? && |back.items| == |sent.items|)
  {
    RestoredInPlace(incoming, existing, path);
    MarkersDiffer(Null);
  }

  /** A place where a secret would have to be kept that was never stored. */
  ghost predicate NothingToKeep(incoming: Value, existing: Value, path: seq<PathStep>) {
    Reached(incoming, path) && LiteralShaped(At(incoming, path)) && At(existing, path) == Null
  }

  lemma NothingFurther(incoming: Value, existing: Value, step: PathStep, rest: seq<PathStep>)
    requires !Marker(incoming) && HasChild(incoming, step)
    requires NothingToKeep(Child(incoming, step), Child(existing, step), rest)
    ensures NothingToKeep(incoming, existing, [step] + rest)
  {
    assert ([step] + rest)[1..] == rest;
  }

  /** A document is refused exactly when it has such a place. */
  lemma {:induction false} RefusedExactly(incoming: Value, existing: Value)
    ensures Restore(incoming, existing) == None <==> exists path :: NothingToKeep(incoming, existing, path)
    decreases incoming
  {
    MarkersDiffer(Null);
    if Restore(incoming, existing) == None {
      RefusalHasAPlace(incoming, existing);
    } else if path :| NothingToKeep(incoming, existing, path) {
      RestoredInPlace(incoming, existing, path);
    }
  }

  lemma {:induction false} RefusalHasAPlace(incoming: Value, existing: Value)
    requires Restore(incoming, existing) == None
    ensures exists path :: NothingToKeep(incoming, existing, path)
    decreases incoming
  {
    if LiteralShaped(incoming) {
      assert NothingToKeep(incoming, existing, []);
    } else if incoming.Dict? {
      var k :| k in incoming.entries && Restore(incoming.entries[k], Get(existing, k)) == None;
      RefusalHasAPlace(incoming.entries[k], Get(existing, k));
      var rest :| NothingToKeep(incoming.entries[k], Get(existing, k), rest);
      NothingFurther(incoming, existing, Key(k), rest);
    } else {
      var i :| 0 <= i < |incoming.items| && Restore(incoming.items[i], Item(existing, i)) == None;
      RefusalHasAPlace(incoming.items[i], Item(existing, i));
      var rest :| NothingToKeep(incoming.items[i], Item(existing, i), rest);
      NothingFurther(incoming, existing, Index(i), rest);
    }
  }
}

/** What the desktop configuration tool shows and takes back, said of the texts and places themselves. */
module DesktopLaws {
  import opened Common
  import opened JsonValues
  import opened JsonPaths
  import opened DesktopRedaction

  predicate Ends(s: string, suffix: string) { |suffix| <= |s| && s[|s| - |suffix|..] == suffix }

  predicate Listed(k: string) {
    k in {"api_key", "access_key", "secret_key", "private_key", "app_secret", "client_secret", "password", "token",
          "access_token", "refresh_token", "verification_token", "credential", "credentials"}
  }

  /** Of a key stripped, in lower case with underscores: a name on the list, or one with a secret's suffix. */
  predicate NamesASecret(k: string) {
    || Listed(k)
    || Ends(k, "_api_key") || Ends(k, "_access_key") || Ends(k, "_secret") || Ends(k, "_password") || Ends(k, "_token")
  }

  lemma EndsAlike(k: string, suffix: string)
    ensures EndsWith(k, suffix) <==> Ends(k, suffix)
  {
  }

  lemma ListedAlike(k: string)
    ensures k in SENSITIVE_NAMES <==> Listed(k)
  {
  }

  lemma SensitiveKeysExactly(key: string)
    ensures SensitiveKey(key) <==> NamesASecret(Normalized(Trim(key)))
  {
    var k := Normalized(Trim(key));
    ListedAlike(k);
    EndsAlike(k, "_api_key");
    EndsAlike(k, "_access_key");
    EndsAlike(k, "_secret");
    EndsAlike(k, "_password");
    EndsAlike(k, "_token");
  }

  /** `$` and a name, or `$` and something in braces, between white space. */
  ghost predicate RefersToEnvironment(t: string) {
    exists i, j :: 0 <= i < j <= |t| && Blank(t[..i]) && Blank(t[j..]) && Reference(t[i..j])
  }

  predicate NameChar(c: char) { c == '_' || 65 <= c as int <= 90 || 97 <= c as int <= 122 }

  predicate Reference(s: string) {
    && |s| >= 2 && s[0] == '$'
    && (|| (NameChar(s[1]) && forall i :: 2 <= i < |s| ==> NameChar(s[i]) || 48 <= s[i] as int <= 57)
        || (|s| >= 4 && s[1] == '{' && s[|s| - 1] == '}' && forall i :: 0 <= i < |s| ==> s[i] as int != 10))
  }

  lemma ReferencesExactly(s: string)
    ensures EnvReference(s) <==> Reference(s)
  {
    if |s| > 3 {
      assert s[..2] == [s[0], s[1]];
      assert StartsWith(s, "${") <==> s[0] == '$' && s[1] == '{';
      assert '\n' in s <==> exists i :: 0 <= i < |s| && s[i] as int == 10;
    }
  }

  /** A text whose ends are not white space is what strip leaves of it in the middle of white space. */
  lemma MiddleIsTrim(t: string, i: nat, j: nat)
    requires i < j <= |t| && Blank(t[..i]) && Blank(t[j..]) && t[i] as int !in SPACES && t[j - 1] as int !in SPACES
    ensures Trim(t) == t[i..j]
  {
    var a, b := TrimSplits(t);
    if i < a { BlankHas(t, 0, a, i); }
    if a < i { BlankHas(t, 0, i, a); }
  }

  lemma RefersExactly(t: string)
    ensures EnvReference(Trim(t)) <==> RefersToEnvironment(t)
  {
    ReferencesExactly(Trim(t));
    if Reference(Trim(t)) {
      var i, j := TrimSplits(t);
      assert Reference(t[i..j]);
    }
    if i, j :| 0 <= i < j <= |t| && Blank(t[..i]) && Blank(t[j..]) && Reference(t[i..j]) {
      assert t[i..j][0] == t[i] && t[i..j][j - i - 1] == t[j - 1];
      MiddleIsTrim(t, i, j);
    }
  }

  /** Under a secret's key, a value is shown only if it is nothing or a reference; otherwise the fixed text
      stands for it, whatever it is. */
  lemma SecretsAreReplaced(v: Value, key: string)
    requires NamesASecret(Normalized(Trim(key)))
    ensures if v == Null || v == Text("") || (v.Text? && RefersToEnvironment(v.text))
            then Redact(v, key) == v else Redact(v, key) == Text("__DEERFLOW_REDACTED__")
  {
    SensitiveKeysExactly(key);
    if v.Text? { RefersExactly(v.text); }
  }

  lemma ScalarsAreShown(v: Value, key: string)
    requires !NamesASecret(Normalized(Trim(key))) && !v.Dict? && !v.List?
    ensures Redact(v, key) == v
  {
    SensitiveKeysExactly(key);
  }

  /** Nothing hidden is met on the way to a place. */
  predicate InTheOpen(v: Value, key: string, path: seq<PathStep>)
    decreases |path|
  {
    path == [] ||
    (!Hidden(v, key) && HasChild(v, path[0]) && InTheOpen(Child(v, path[0]), KeyOf(path[0]), path[1..]))
  }

  /** Every place is shown by its own key. */
  lemma {:induction false} ShownInPlace(v: Value, key: string, path: seq<PathStep>)
    requires InTheOpen(v, key, path)
    ensures At(Redact(v, key), path) == Redact(At(v, path), KeyAt(key, path))
    decreases |path|
  {
    if path != [] {
      KeyAtTail(key, path);
      ShownInPlace(Child(v, path[0]), KeyOf(path[0]), path[1..]);
    }
  }

  /** The place is there. */
  predicate Reached(v: Value, path: seq<PathStep>)
    decreases |path|
  {
    path == [] || (HasChild(v, path[0]) && Reached(Child(v, path[0]), path[1..]))
  }

  lemma {:induction false} RestoredInPlace(incoming: Value, existing: Value, path: seq<PathStep>)
    requires Reached(incoming, path)
    ensures At(Restore(incoming, existing), path) == Restore(At(incoming, path), At(existing, path))
    decreases |path|
  {
    if path != [] { RestoredInPlace(Child(incoming, path[0]), Child(existing, path[0]), path[1..]); }
  }

  /** What each place of a saved document holds: an edited scalar as it was sent, the stored value for the
      fixed text if there is one, and containers with the keys and the length they were sent with. */
  lemma WhatEachPlaceHolds(incoming: Value, existing: Value, path: seq<PathStep>)
    requires Reached(incoming, path)
    ensures var sent, kept, back := At(incoming, path), At(existing, path), At(Restore(incoming, existing), path);
      if sent == Text("__DEERFLOW_REDACTED__") then back == if kept == Null then sent else kept
      else if sent.Dict? then back.Dict? && back.entries.Keys == sent.entries.Keys
      else if sent.List? then back.List? && |back.items| == |sent.items|
      else back == sent
  {
    RestoredInPlace(incoming, existing, path);
  }

  // ---- named items ---------------------------------------------------------------------------------------

  predicate Named(item: Value, show: Value -> string, name: string) { item.Dict? && show(Get(item, "name")) == name }

  /** The stored item an incoming one is restored against: the last of its name, whatever else is stored. */
  lemma {:induction false} LastOfItsName(existing: seq<Value>, show: Value -> string, name: string)
    ensures name in ByName(existing, show) <==> exists i :: 0 <= i < |existing| && Named(existing[i], show, name)
    ensures name in ByName(existing, show) ==>
              exists i :: (0 <= i < |existing| && Named(existing[i], show, name)
                           && ByName(existing, show)[name] == existing[i]
                           && forall j :: i < j < |existing| ==> !Named(existing[j], show, name))
    decreases |existing|
  {
    if existing != [] {
      var n := |existing| - 1;
      LastOfItsName(existing[..n], show, name);
      if Named(existing[n], show, name) {
        assert ByName(existing, show)[name] == existing[n];
      } else if i :| 0 <= i < n && Named(existing[..n][i], show, name) {
        assert Named(existing[i], show, name);
        var k :| (0 <= k < n && Named(existing[..n][k], show, name)
                  && ByName(existing[..n], show)[name] == existing[..n][k]
                  && forall j :: k < j < n ==> !Named(existing[..n][j], show, name));
        assert existing[k] == existing[..n][k];
        forall j | k < j < |existing| ensures !Named(existing[j], show, name) {
          if j < n { assert !Named(existing[..n][j], show, name); }
        }
      }
    }
  }

  /** Every item sent is saved, in its place: a new one as it is restored against nothing. */
  lemma NewItemsAreKept(incoming: seq<Value>, existing: seq<Value>, show: Value -> string, p: nat)
    requires p < |incoming|
    requires forall i :: 0 <= i < |existing| ==> !Named(existing[i], show, show(Get(incoming[p], "name")))
    ensures var back := RestoreNamed(incoming, existing, show);
      |back| == |incoming| && back[p] == Restore(incoming[p], Null)
  {
    LastOfItsName(existing, show, show(Get(incoming[p], "name")));
  }
}

/**
 * The background script's bookkeeping: the `.env` parser that fills the
 * key table, the `getApiKeys` reply, and the handlers that read and write
 * the local storage area (`checkUserCredits`, `decrementCredits` and the
 * web application's `AUTH_STATE_CHANGED` and `USER_DATA_UPDATE` messages).
 * Stored values are JavaScript values; an absent key reads as `undefined`.
 */
module Background {
  import opened Options
  import opened JsStrings
  import opened JsValues
  import Dispatcher

  // ---------------------------------------------------------------- the .env file

  /**
   * The entry one line of the `.env` file contributes: none for a blank or
   * `#` comment line; otherwise the trimmed text before the first `=` and
   * the trimmed text between the first and second `=`, when both are
   * non-empty.
   */
  function LineEntry(line: string): (e: Option<(string, string)>)
    ensures e.Some? ==> e.value.0 != "" && e.value.1 != "" && '=' !in e.value.0 && '=' !in e.value.1
    ensures e.Some? ==> Unpadded(e.value.0) && Unpadded(e.value.1)
    ensures Blank(line) || StartsWith(Trim(line), "#") ==> e.None?
    ensures var parts := Split(line, '=');
            e.Some? <==> !Blank(line) && !StartsWith(Trim(line), "#") && |parts| >= 2 &&
                         Trim(parts[0]) != "" && Trim(parts[1]) != ""
    ensures e.Some? ==> e.value == (Trim(Split(line, '=')[0]), Trim(Split(line, '=')[1]))
  {
    TrimSegment(line);
    var t := Trim(line);
    if StartsWith(t, "#") || t == "" then None
    else
      var parts := Split(line, '=');
      if |parts| < 2 then None
      else
        var key, value := Trim(parts[0]), Trim(parts[1]);
        TrimSegment(parts[0]);
        TrimSegment(parts[1]);
        TrimAvoidsChar(parts[0], '=');
        TrimAvoidsChar(parts[1], '=');
        if key != "" && value != "" then Some((key, value)) else None
  }

  /** An entry for `key`. */
  predicate Defines(e: Option<(string, string)>, key: string) {
    e.Some? && e.value.0 == key
  }

  /** The entries of the lines, one per line. */
  function Entries(lines: seq<string>): (es: seq<Option<(string, string)>>)
    ensures |es| == |lines| && forall i :: 0 <= i < |lines| ==> es[i] == LineEntry(lines[i])
  {
    seq(|lines|, i requires 0 <= i < |lines| => LineEntry(lines[i]))
  }

  /** The key table after the entries, in order, are added to `env`. */
  function EnvAfter(env: map<string, string>, entries: seq<Option<(string, string)>>): map<string, string>
    decreases |entries|
  {
    if entries == [] then env
    else
      var before := EnvAfter(env, entries[..|entries| - 1]);
      match entries[|entries| - 1]
      case None => before
      case Some((k, v)) => before[k := v]
  }

  /**
   * After parsing, a key is in the table exactly when it was there before
   * or some entry defines it, and a key no entry defines keeps its old value.
   */
  lemma {:induction false} EnvMembership(env: map<string, string>, entries: seq<Option<(string, string)>>, key: string)
    ensures key in EnvAfter(env, entries) <==> key in env || exists i :: 0 <= i < |entries| && Defines(entries[i], key)
    ensures (forall i :: 0 <= i < |entries| ==> !Defines(entries[i], key)) && key in env ==> EnvAfter(env, entries)[key] == env[key]
    decreases |entries|
  {
    if entries != [] {
      var n := |entries| - 1;
      EnvMembership(env, entries[..n], key);
      assert forall i :: 0 <= i < n ==> entries[..n][i] == entries[i];
    }
  }

  /** A key some entry defines has the value of the LAST entry that defines it. */
  lemma {:induction false} EnvLastDefinition(env: map<string, string>, entries: seq<Option<(string, string)>>, i: int, key: string)
    requires 0 <= i < |entries| && Defines(entries[i], key)
    requires forall j :: i < j < |entries| ==> !Defines(entries[j], key)
    ensures key in EnvAfter(env, entries) && entries[i] == Some((key, EnvAfter(env, entries)[key]))
    decreases |entries|
  {
    var n := |entries| - 1;
    if i < n {
      EnvLastDefinition(env, entries[..n], i, key);
      assert forall j :: i < j < n ==> entries[..n][j] == entries[j];
    }
  }

  /**
   * The text after the second `=` of a line is ignored: a line `k=v=rest`
   * whose `k` and `v` hold no `=` and trim to non-empty texts defines the
   * trimmed `k` as the trimmed `v`.
   */
  lemma SecondEqualsCutsValue(k: string, v: string, rest: string)
    requires '=' !in k && '=' !in v && Trim(k) != "" && Trim(v) != ""
    requires !StartsWith(Trim(k + "=" + v + "=" + rest), "#")
    ensures LineEntry(k + "=" + v + "=" + rest) == Some((Trim(k), Trim(v)))
  {
    var line := k + "=" + v + "=" + rest;
    assert line == k + ['='] + (v + ['='] + rest);
    SplitAt(k, v + ['='] + rest, '=');
    SplitAt(v, rest, '=');
    TrimSegment(k);
    TrimSegment(line);
    assert line[|k|] == '=';
    assert !Blank(line) by { assert !IsWhitespace(line[|k|]); }
  }

  /**
   * An ordinary line `k=v`, whose `k` and `v` hold no `=`, trim to non-empty
   * texts and do not start a comment, defines the trimmed `k` as the
   * trimmed `v`.
   */
  lemma PlainLineEntry(k: string, v: string)
    requires '=' !in k && '=' !in v && Trim(k) != "" && Trim(v) != ""
    requires !StartsWith(Trim(k + "=" + v), "#")
    ensures LineEntry(k + "=" + v) == Some((Trim(k), Trim(v)))
  {
    var line := k + "=" + v;
    assert line == k + ['='] + v;
    SplitAt(k, v, '=');
    SplitWithout(v, '=');
    TrimSegment(k);
    TrimSegment(line);
    assert line[|k|] == '=';
    assert !Blank(line) by { assert !IsWhitespace(line[|k|]); }
  }

  const GeminiEnvKey: string := "GEMINI_API_KEY"
  const OpenAIEnvKey: string := "OPENAI_API_KEY"
  const ClaudeEnvKey: string := "CLAUDE_API_KEY"

  /** `envVariables[name] || ""`. */
  function EnvValue(env: map<string, string>, name: string): string {
    if name in env then env[name] else ""
  }

  /** The `getApiKeys` reply: each of the three keys from the table, or "". */
  function KeysReply(env: map<string, string>): (r: Dispatcher.KeysReply)
    ensures r.Keys?
    ensures r.geminiKey == (if GeminiEnvKey in env then env[GeminiEnvKey] else "")
    ensures r.openaiKey == (if OpenAIEnvKey in env then env[OpenAIEnvKey] else "")
    ensures r.claudeKey == (if ClaudeEnvKey in env then env[ClaudeEnvKey] else "")
  {
    Dispatcher.Keys(EnvValue(env, GeminiEnvKey), EnvValue(env, OpenAIEnvKey), EnvValue(env, ClaudeEnvKey))
  }

  /**
   * A parsed `.env` file sends the page a non-empty key exactly for the
   * names some line defines, so the page replaces only those keys.
   */
  lemma ReplyCarriesDefinedKeys(lines: seq<string>)
    ensures var r := KeysReply(EnvAfter(map[], Entries(lines)));
            (r.geminiKey != "" <==> exists i :: 0 <= i < |lines| && Defines(LineEntry(lines[i]), GeminiEnvKey)) &&
            (r.openaiKey != "" <==> exists i :: 0 <= i < |lines| && Defines(LineEntry(lines[i]), OpenAIEnvKey)) &&
            (r.claudeKey != "" <==> exists i :: 0 <= i < |lines| && Defines(LineEntry(lines[i]), ClaudeEnvKey))
  {
    var es := Entries(lines);
    EntriesNonEmpty(lines);
    EnvValuesNonEmpty(map[], es);
    EnvMembership(map[], es, GeminiEnvKey);
    EnvMembership(map[], es, OpenAIEnvKey);
    EnvMembership(map[], es, ClaudeEnvKey);
  }

  /**
   * The reply carries, for each of the three names, the value of the last
   * line of the file that defines it.
   */
  lemma ReplyCarriesLastDefinition(lines: seq<string>, i: int, name: string)
    requires name == GeminiEnvKey || name == OpenAIEnvKey || name == ClaudeEnvKey
    requires 0 <= i < |lines| && Defines(LineEntry(lines[i]), name)
    requires forall j :: i < j < |lines| ==> !Defines(LineEntry(lines[j]), name)
    ensures var r := KeysReply(EnvAfter(map[], Entries(lines)));
            var v := LineEntry(lines[i]).value.1;
            (name == GeminiEnvKey ==> r.geminiKey == v) &&
            (name == OpenAIEnvKey ==> r.openaiKey == v) &&
            (name == ClaudeEnvKey ==> r.claudeKey == v)
  {
    EnvLastDefinition(map[], Entries(lines), i, name);
  }

  /** Every entry of a line has a non-empty value. */
  lemma EntriesNonEmpty(lines: seq<string>)
    ensures forall i :: 0 <= i < |lines| ==> Entries(lines)[i].None? || Entries(lines)[i].value.1 != ""
  {
  }

  /** Entries with non-empty values add only non-empty values. */
  lemma {:induction false} EnvValuesNonEmpty(env: map<string, string>, entries: seq<Option<(string, string)>>)
    requires forall k :: k in env ==> env[k] != ""
    requires forall i :: 0 <= i < |entries| ==> entries[i].None? || entries[i].value.1 != ""
    ensures forall k :: k in EnvAfter(env, entries) ==> EnvAfter(env, entries)[k] != ""
    decreases |entries|
  {
    if entries != [] {
      EnvValuesNonEmpty(env, entries[..|entries| - 1]);
    }
  }

  // ---------------------------------------------------------------- stored credits

  const DefaultFreeCredits: int := 10
  const NoFreeCredits: string := "No free credits remaining"
  const NoValidCredits: string := "No valid credits found"
  const UserMismatch: string := "User not found or ID mismatch"

  /** `v > 0` for a stored count; counts are numbers, anything else is not positive. */
  predicate Positive(v: Js) {
    v.Num? && v.n > 0
  }

  /** What `decrementUserCredits` resolves with. */
  datatype DecrementResult =
    | Decremented(uid: Js, credits: int)
    | FreeDecremented(credits: int)
    | Refused(error: string)

  /** What `checkUserCredits` answers. */
  datatype CreditReport = CreditReport(isLoggedIn: bool, credits: Js, isFreeUser: bool)

  /** What `USER_DATA_UPDATE` answers. */
  datatype UpdateReply = Updated | Rejected(error: string)

  /** `{...v}`: the own properties of an object; other values are taken to have none. */
  function Spread(v: Js): map<string, Js> {
    if v.Obj? then v.fields else map[]
  }

  /** `{...a, ...b}`: b's properties over a's. */
  function Merge(a: Js, b: Js): (r: Js)
    ensures r.Obj?
    ensures forall k :: k in Spread(b) ==> k in r.fields && r.fields[k] == Spread(b)[k]
    ensures forall k :: k in Spread(a) && k !in Spread(b) ==> k in r.fields && r.fields[k] == Spread(a)[k]
    ensures forall k :: k in r.fields ==> k in Spread(a) || k in Spread(b)
  {
    Obj(Spread(a) + Spread(b))
  }

  /**
   * The background page's state: the local storage keys it uses (an absent
   * key is `undefined`), its `userCredits` global and the key table.
   */
  class BackgroundPage {
    var user: Js
    var userData: Js
    var freeCredits: Js
    var isLoggedIn: Js
    var userCredits: Js
    var env: map<string, string>

    constructor ()
      ensures user == Undefined && userData == Undefined && freeCredits == Undefined && isLoggedIn == Undefined
      ensures userCredits == Num(0) && env == map[]
    {
      user, userData, freeCredits, isLoggedIn := Undefined, Undefined, Undefined, Undefined;
      userCredits := Num(0);
      env := map[];
    }

    /** The `.env` file's lines are added to the key table one by one. */
    method LoadEnv(text: string)
      modifies this
      ensures env == EnvAfter(old(env), Entries(Split(text, '\n')))
      ensures user == old(user) && userData == old(userData) && freeCredits == old(freeCredits)
      ensures isLoggedIn == old(isLoggedIn) && userCredits == old(userCredits)
    {
      var lines := Split(text, '\n');
      var i := 0;
      while i < |lines|
        invariant 0 <= i <= |lines|
        invariant env == EnvAfter(old(env), Entries(lines)[..i])
        invariant user == old(user) && userData == old(userData) && freeCredits == old(freeCredits)
        invariant isLoggedIn == old(isLoggedIn) && userCredits == old(userCredits)
      {
        assert Entries(lines)[..i + 1][..i] == Entries(lines)[..i];
        var entry := LineEntry(lines[i]);
        if entry.Some? {
          env := env[entry.value.0 := entry.value.1];
        }
        i := i + 1;
      }
      assert Entries(lines)[..i] == Entries(lines);
    }

    /**
     * `checkUserCredits`: a logged-in user (one with a truthy uid) with a
     * credit count other than 0 and `undefined` is reported with that count;
     * anyone else with the stored free credits, or 10, which is then stored
     * when none were.
     */
    method CheckUserCredits() returns (report: CreditReport)
      modifies this
      ensures var u := Or(user, Obj(map[]));
              var credits := Get(u, Name("credits")).value;
              report.isLoggedIn == Truthy(Get(u, Name("uid")).value) &&
              report.isFreeUser == !report.isLoggedIn &&
              (report.isLoggedIn && credits != Num(0) && credits != Undefined ==>
                 report.credits == credits && freeCredits == old(freeCredits)) &&
              (!report.isLoggedIn || credits == Num(0) || credits == Undefined ==>
                 report.credits == (if old(freeCredits) != Undefined then old(freeCredits) else Num(DefaultFreeCredits)) &&
                 freeCredits == report.credits)
      ensures freeCredits != old(freeCredits) ==> old(freeCredits) == Undefined && freeCredits == Num(DefaultFreeCredits)
      ensures user == old(user) && userData == old(userData) && isLoggedIn == old(isLoggedIn)
      ensures userCredits == old(userCredits) && env == old(env)
    {
      var u := Or(user, Obj(map[]));
      var credits := Get(u, Name("credits")).value;
      var loggedIn := Truthy(Get(u, Name("uid")).value);
      if !loggedIn || credits == Num(0) || credits == Undefined {
        credits := if freeCredits != Undefined then freeCredits else Num(DefaultFreeCredits);
        if freeCredits == Undefined {
          freeCredits := Num(DefaultFreeCredits);
        }
      }
      report := CreditReport(loggedIn, credits, !loggedIn);
    }

    /**
     * `decrementUserCredits`. The user is the stored `user`, else the stored
     * `userData`, else nobody. A user with a uid and a positive count loses
     * one credit, written back under `user`; a user without a uid spends a
     * free credit (the count starting at 10 when none is stored); a user with
     * a uid and no positive count is refused.
     */
    method DecrementCredits() returns (result: DecrementResult)
      modifies this
      ensures var u := Or(Or(old(user), old(userData)), Obj(map[]));
              var uid := Get(u, Name("uid")).value;
              var credits := Get(u, Name("credits")).value;
              (Truthy(uid) && Positive(credits) ==>
                 result == Decremented(uid, credits.n - 1) && user == Obj(u.fields["credits" := Num(credits.n - 1)])
                 && userCredits == Num(credits.n - 1) && freeCredits == old(freeCredits)) &&
              (!Truthy(uid) ==>
                 var start := if old(freeCredits) == Undefined then Num(DefaultFreeCredits) else old(freeCredits);
                 (Positive(start) ==> result == FreeDecremented(start.n - 1) && freeCredits == Num(start.n - 1)) &&
                 (!Positive(start) ==> result == Refused(NoFreeCredits) && freeCredits == old(freeCredits)) &&
                 user == old(user) && userCredits == old(userCredits)) &&
              (Truthy(uid) && !Positive(credits) ==>
                 result == Refused(NoValidCredits) && user == old(user) && freeCredits == old(freeCredits)
                 && userCredits == old(userCredits))
      ensures result.Decremented? || result.FreeDecremented? ==> result.credits >= 0
      ensures userData == old(userData) && isLoggedIn == old(isLoggedIn) && env == old(env)
    {
      var u := Or(Or(user, userData), Obj(map[]));
      var uid := Get(u, Name("uid")).value;
      var credits := Get(u, Name("credits")).value;
      if Truthy(uid) && Positive(credits) {
        var newCredits := credits.n - 1;
        user := Obj(u.fields["credits" := Num(newCredits)]);
        userCredits := Num(newCredits);
        result := Decremented(uid, newCredits);
      } else if !Truthy(uid) {
        var current := freeCredits;
        if current == Undefined {
          current := Num(DefaultFreeCredits);
          freeCredits := current;
        }
        if Positive(current) {
          freeCredits := Num(current.n - 1);
          result := FreeDecremented(current.n - 1);
        } else {
          result := Refused(NoFreeCredits);
        }
      } else {
        result := Refused(NoValidCredits);
      }
    }

    /** `AUTH_STATE_CHANGED`: a truthy user is stored as logged in; otherwise both keys are removed. */
    method OnAuthStateChanged(newUser: Js)
      modifies this
      ensures Truthy(newUser) ==> user == newUser && isLoggedIn == Bool(true)
      ensures !Truthy(newUser) ==> user == Undefined && isLoggedIn == Undefined
      ensures userData == old(userData) && freeCredits == old(freeCredits) && userCredits == old(userCredits) && env == old(env)
    {
      if Truthy(newUser) {
        user, isLoggedIn := newUser, Bool(true);
      } else {
        user, isLoggedIn := Undefined, Undefined;
      }
    }

    /**
     * `USER_DATA_UPDATE`: when a user is stored and its uid is strictly
     * equal to the incoming one, the incoming fields are merged over it;
     * otherwise nothing changes. `reply` is `None` when reading the incoming
     * uid throws (the incoming data is `undefined` or `null`), so no answer
     * is sent.
     */
    method OnUserDataUpdate(incoming: Js) returns (reply: Option<UpdateReply>)
      modifies this
      ensures Truthy(old(user)) && (incoming.Undefined? || incoming.Null?) ==> reply == None && user == old(user)
      ensures Truthy(old(user)) && !(incoming.Undefined? || incoming.Null?)
                && Get(old(user), Name("uid")).value == Get(incoming, Name("uid")).value ==>
                reply == Some(Updated) && user == Merge(old(user), incoming)
      ensures Truthy(old(user)) && !(incoming.Undefined? || incoming.Null?)
                && Get(old(user), Name("uid")).value != Get(incoming, Name("uid")).value ==>
                reply == Some(Rejected(UserMismatch)) && user == old(user)
      ensures reply != Some(Updated) ==> user == old(user)
      ensures !Truthy(old(user)) ==> reply == Some(Rejected(UserMismatch))
      ensures userData == old(userData) && freeCredits == old(freeCredits) && isLoggedIn == old(isLoggedIn)
      ensures userCredits == old(userCredits) && env == old(env)
    {
      if !Truthy(user) {
        return Some(Rejected(UserMismatch));
      }
      var incomingUid := Get(incoming, Name("uid"));
      if incomingUid.Threw? {
        return None;
      }
      if Get(user, Name("uid")).value == incomingUid.value {
        user := Merge(user, incoming);
        reply := Some(Updated);
      } else {
        reply := Some(Rejected(UserMismatch));
      }
    }
  }

  /**
   * A merge keeps the stored uid and every stored field the update does not
   * carry, and takes every field the update carries.
   */
  lemma MergeKeepsIdentity(stored: Js, incoming: Js, k: string)
    requires stored.Obj? && incoming.Obj?
    requires Get(stored, Name("uid")) == Get(incoming, Name("uid"))
    ensures Get(Merge(stored, incoming), Name("uid")) == Get(stored, Name("uid"))
    ensures k in incoming.fields ==> Get(Merge(stored, incoming), Name(k)) == Normal(incoming.fields[k])
    ensures k !in incoming.fields ==> Get(Merge(stored, incoming), Name(k)) == Get(stored, Name(k))
  {
  }
}

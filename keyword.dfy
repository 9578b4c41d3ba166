/**
 * The trigger keyword and its three normalisations: when the page script
 * loads it from storage, when the page script receives it from the popup,
 * and when the popup saves what the user typed; plus the popup's display
 * form without the trailing colon.
 */
module Keyword {
  import opened Options
  import opened JsStrings

  /** The keyword used when none is configured. */
  const DefaultKeyword: string := "help:"

  /** `/^\s*:$/.test(s)`: optional whitespace followed by a single colon. */
  predicate BlankThenColon(s: string) {
    |s| >= 1 && s[|s| - 1] == ':' && Blank(s[..|s| - 1])
  }

  /** `if (!command.endsWith(":")) command += ":"`: the text with a colon appended when it lacks one. */
  function WithColon(t: string): (k: string)
    ensures EndsWith(k, ":") && t <= k && |k| <= |t| + 1
    ensures EndsWith(t, ":") ==> k == t
    ensures Unpadded(t) && t != [] ==> Unpadded(k)
  {
    if EndsWith(t, ":") then t else t + ":"
  }

  /**
   * The keyword the page script adopts from storage at start-up: blank or
   * missing gives the default; otherwise the trimmed text, with a colon
   * appended when it does not already end with one.
   */
  function LoadedKeyword(stored: Option<string>): (k: string)
    ensures EndsWith(k, ":") && Unpadded(k)
    ensures stored.None? || Blank(stored.value) ==> k == DefaultKeyword
    ensures stored.Some? && !Blank(stored.value) ==>
      var t := Trim(stored.value);
      t <= k && |k| <= |t| + 1 && (EndsWith(t, ":") ==> k == t)
  {
    if stored.Some? && Trim(stored.value) != "" then
      TrimSegment(stored.value);
      WithColon(Trim(stored.value))
    else
      TrimSegment(if stored.Some? then stored.value else "");
      DefaultKeyword
  }

  /**
   * The keyword the page script adopts on an `updateCommandKeyword` message:
   * as `LoadedKeyword`, except that a bare colon (also after whitespace)
   * becomes the default too.
   */
  function UpdatedKeyword(msg: Option<string>): (k: string)
    ensures EndsWith(k, ":") && Unpadded(k) && |k| >= 2
    ensures msg.None? || Blank(msg.value) || BlankThenColon(Trim(msg.value)) ==> k == DefaultKeyword
    ensures msg.Some? && !Blank(msg.value) && !BlankThenColon(Trim(msg.value)) ==>
      var t := Trim(msg.value);
      t <= k && |k| <= |t| + 1 && (EndsWith(t, ":") ==> k == t)
  {
    if msg.None? then DefaultKeyword
    else
      TrimSegment(msg.value);
      var command := Trim(msg.value);
      if command == "" || command == ":" || BlankThenColon(command) then DefaultKeyword
      else
        WithColon(command)
  }

  /** On a trimmed string the pattern `/^\s*:$/` matches only the bare colon. */
  lemma BlankThenColonOnTrimmed(s: string)
    requires Unpadded(s)
    ensures BlankThenColon(s) <==> s == ":"
  {
  }

  /** A keyword already produced by the update listener comes through it again unchanged. */
  lemma UpdatedKeywordIdempotent(msg: Option<string>)
    ensures UpdatedKeyword(Some(UpdatedKeyword(msg))) == UpdatedKeyword(msg)
  {
    var k := UpdatedKeyword(msg);
    TrimUnpadded(k);
    BlankThenColonOnTrimmed(k);
    assert !Blank(k) by { assert !IsWhitespace(k[|k| - 1]); }
  }

  /** What the update listener stores is adopted unchanged by the loader on the next page load. */
  lemma LoadAfterUpdate(msg: Option<string>)
    ensures LoadedKeyword(Some(UpdatedKeyword(msg))) == UpdatedKeyword(msg)
  {
    var k := UpdatedKeyword(msg);
    TrimUnpadded(k);
    assert !Blank(k) by { assert !IsWhitespace(k[|k| - 1]); }
  }

  /** The two page-script normalisations differ on a stored bare colon: the loader keeps it. */
  lemma BareColonDivergence()
    ensures LoadedKeyword(Some(":")) == ":"
    ensures UpdatedKeyword(Some(":")) == DefaultKeyword
  {
    TrimUnpadded(":");
  }

  /**
   * The keyword the popup saves from its text box: blank gives the default;
   * otherwise the text as typed (not trimmed), with a colon appended when
   * it does not already end with one.
   */
  function SavedKeyword(command: string): (k: string)
    ensures EndsWith(k, ":")
    ensures Blank(command) ==> k == DefaultKeyword
    ensures !Blank(command) ==> command <= k && |k| <= |command| + 1 && (EndsWith(command, ":") ==> k == command)
  {
    TrimSegment(command);
    WithColon(if Trim(command) == "" then "help" else command)
  }

  /** The popup's display form of a stored keyword: one trailing colon removed, if there is one. */
  function DisplayKeyword(k: string): (d: string)
    ensures EndsWith(k, ":") ==> k == d + ":"
    ensures !EndsWith(k, ":") ==> d == k
  {
    if EndsWith(k, ":") then k[..|k| - 1] else k
  }

  /** Text typed without a trailing colon is shown back exactly as typed after saving. */
  lemma SaveThenDisplay(command: string)
    requires !Blank(command) && !EndsWith(command, ":")
    ensures DisplayKeyword(SavedKeyword(command)) == command
  {
  }

  /**
   * Saving the display form restores a stored keyword exactly when that form
   * is neither blank nor itself ends with a colon (so `a::` comes back as `a:`).
   */
  lemma DisplayThenSave(k: string)
    requires EndsWith(k, ":")
    ensures SavedKeyword(DisplayKeyword(k)) == k <==> !Blank(DisplayKeyword(k)) && !EndsWith(DisplayKeyword(k), ":")
  {
    var d := DisplayKeyword(k);
    if Blank(d) {
      assert k[0] != 'h' by {
        if |d| > 0 { assert k[0] == d[0]; } else { assert k == ":"; }
      }
    } else if EndsWith(d, ":") {
      assert |SavedKeyword(d)| == |d| < |k|;
    }
  }
}

/**
 * The page script's command capture: an input event whose text contains the
 * keyword opens a capture; an event whose text also holds the end marker
 * `...` sends the text between them to the assistant and writes the reply
 * into the field.
 */
module Capture {
  import opened Options
  import opened JsStrings
  import opened JsValues
  import opened Keyword

  /** The end-of-command marker. */
  const EndPrompt: string := "..."

  /** What the field shows while the reply is awaited. */
  const Placeholder: string := "..."

  /** How a page element receives text: through `value`, through `textContent`, or not at all. */
  datatype FieldKind = ValueField | TextField | NotAField

  /** The branch `updateInputField` takes for an element with these attributes. */
  function KindOf(tagName: string, contentEditable: string, role: Option<string>): FieldKind {
    var tag := ToLower(tagName);
    if tag == "input" || tag == "textarea" then ValueField
    else if contentEditable == "true" then TextField
    else if role == Some("textbox") then TextField
    else NotAField
  }

  /** `isInputElement`: an input or textarea, a content-editable element or an ARIA textbox. */
  predicate IsInputElement(tagName: string, contentEditable: string, role: Option<string>) {
    var tag := ToLower(tagName);
    tag == "input" || tag == "textarea" || contentEditable == "true" || role == Some("textbox")
  }

  /** The elements the input listener accepts are exactly the ones `updateInputField` can write to. */
  lemma InputElementsAreWritable(tagName: string, contentEditable: string, role: Option<string>)
    ensures IsInputElement(tagName, contentEditable, role) <==> KindOf(tagName, contentEditable, role) != NotAField
  {
  }

  /** A page element, reduced to the attributes the capture code reads and writes. */
  class Element {
    var tagName: string
    var contentEditable: string
    /** `getAttribute("role")`; `None` when the attribute is absent. */
    var role: Option<string>
    /** The `value` property; `None` for elements that have none. */
    var value: Option<string>
    var textContent: string

    constructor (tagName: string, contentEditable: string, role: Option<string>, value: Option<string>, textContent: string)
      ensures this.tagName == tagName && this.contentEditable == contentEditable && this.role == role
      ensures this.value == value && this.textContent == textContent
    {
      this.tagName := tagName;
      this.contentEditable := contentEditable;
      this.role := role;
      this.value := value;
      this.textContent := textContent;
    }

    function Kind(): FieldKind
      reads this
    {
      KindOf(tagName, contentEditable, role)
    }

    predicate IsInput()
      reads this
    {
      IsInputElement(tagName, contentEditable, role)
    }

    /** `element.value || element.textContent`. */
    function CurrentText(): string
      reads this
    {
      if value.Some? && value.value != "" then value.value else textContent
    }

    /** The element shows `text` through the property its kind is written through. */
    predicate Shows(text: string)
      reads this
    {
      match Kind()
      case ValueField => value == Some(text)
      case TextField => textContent == text
      case NotAField => true
    }

    /** `updateInputField`: writes `value` or `textContent` according to the element's kind, nothing else. */
    method Update(text: string)
      modifies this
      ensures tagName == old(tagName) && contentEditable == old(contentEditable) && role == old(role)
      ensures Kind() == ValueField ==> value == Some(text) && textContent == old(textContent)
      ensures Kind() == TextField ==> textContent == text && value == old(value)
      ensures Kind() == NotAField ==> value == old(value) && textContent == old(textContent)
    {
      var tag := ToLower(tagName);
      if tag == "input" || tag == "textarea" {
        value := Some(text);
      } else if contentEditable == "true" {
        textContent := text;
      } else if role == Some("textbox") {
        textContent := text;
      }
    }
  }

  /** The two globals `isCapturing` and `capturedText`. */
  datatype CaptureState = CaptureState(capturing: bool, captured: string)

  const Idle: CaptureState := CaptureState(false, "")

  /**
   * The start branch: when idle and the text contains the keyword, capture
   * what follows the keyword's first occurrence; otherwise change nothing.
   */
  function Start(st: CaptureState, keyword: string, text: string): (r: CaptureState)
    ensures r.capturing <==> st.capturing || Contains(text, keyword)
    ensures st.capturing || !Contains(text, keyword) ==> r == st
    ensures !st.capturing && Contains(text, keyword) ==>
      text == text[..IndexOf(text, keyword)] + keyword + r.captured
  {
    if Contains(text, keyword) && !st.capturing then
      var keywordIndex := IndexOf(text, keyword);
      IndexOfFirst(text, keyword);
      assert text == text[..keywordIndex] + text[keywordIndex..keywordIndex + |keyword|] + text[keywordIndex + |keyword|..];
      CaptureState(true, SliceFrom(text, keywordIndex + |keyword|))
    else st
  }

  /**
   * The end branch: the command sent when capturing and the text holds both
   * the marker and the keyword, namely the trimmed text from the end of the
   * keyword's first occurrence up to the marker's first occurrence.
   */
  function Command(st: CaptureState, keyword: string, text: string): Option<string> {
    if st.capturing && Contains(text, EndPrompt) then
      var endPromptIndex := IndexOf(text, EndPrompt);
      var keywordIndex := IndexOf(text, keyword);
      if keywordIndex != -1 && endPromptIndex != -1 then
        Some(Trim(Slice(text, keywordIndex + |keyword|, endPromptIndex)))
      else None
    else None
  }

  /** A command is sent exactly when the capture is open and both the marker and the keyword occur; it is the trimmed cut. */
  lemma CommandCases(st: CaptureState, keyword: string, text: string)
    ensures st.capturing && Contains(text, EndPrompt) && IndexOf(text, keyword) != -1 ==>
              Command(st, keyword, text) == Some(Trim(Slice(text, IndexOf(text, keyword) + |keyword|, IndexOf(text, EndPrompt))))
    ensures !(st.capturing && Contains(text, EndPrompt) && IndexOf(text, keyword) != -1) ==> Command(st, keyword, text) == None
  {
  }

  /** The effect of one input event on the capture globals and the command it sends, if any. */
  datatype StepResult = StepResult(state: CaptureState, dispatched: Option<string>)

  function Step(st: CaptureState, keyword: string, text: string): StepResult {
    var started := Start(st, keyword, text);
    var command := Command(started, keyword, text);
    if command.Some? then StepResult(Idle, command) else StepResult(started, None)
  }

  /** The text written into the field once the assistant answers: the reply, or `Error: ` and the thrown message. */
  function ReplyText(reply: Completion<string>): (t: string)
    ensures reply.Normal? ==> t == reply.value
    ensures reply.Threw? ==> t == "Error: " + reply.message && StartsWith(t, "Error: ")
  {
    match reply
    case Normal(t) => t
    case Threw(m) => "Error: " + m
  }

  /**
   * An event sends a command exactly when its text contains both the keyword
   * and the marker, whatever the state; the command is the trimmed text
   * between them and the capture is then reset.
   */
  lemma DispatchRule(st: CaptureState, keyword: string, text: string)
    ensures Step(st, keyword, text).dispatched.Some? <==> Contains(text, keyword) && Contains(text, EndPrompt)
    ensures Step(st, keyword, text).dispatched.Some? ==>
      Step(st, keyword, text).state == Idle &&
      Step(st, keyword, text).dispatched.value
        == Trim(Slice(text, IndexOf(text, keyword) + |keyword|, IndexOf(text, EndPrompt)))
  {
  }

  /**
   * Without a command being sent, the capture flag is set by the keyword and
   * never cleared, and a capture already open is left exactly as it was.
   */
  lemma NoDispatchKeepsCapture(st: CaptureState, keyword: string, text: string)
    requires Step(st, keyword, text).dispatched.None?
    ensures Step(st, keyword, text).state.capturing <==> st.capturing || Contains(text, keyword)
    ensures st.capturing ==> Step(st, keyword, text).state == st
  {
  }

  /** The text before the first marker contains no marker. */
  lemma CutAvoidsMarker(text: string, a: nat)
    requires Contains(text, EndPrompt)
    ensures forall k :: !OccursAt(Slice(text, a, IndexOf(text, EndPrompt)), EndPrompt, k)
  {
    var e := IndexOf(text, EndPrompt);
    var sliced := Slice(text, a, e);
    IndexOfFirst(text, EndPrompt);
    if a < e {
      assert sliced == text[a..e];
      forall k
        ensures !OccursAt(sliced, EndPrompt, k)
      {
        if 0 <= k && k + 3 <= |sliced| {
          SliceOfSlice(text, a, e, k, k + 3);
          assert !OccursAt(text, EndPrompt, a + k);
        }
      }
    }
  }

  /** The command never contains the marker, and has no whitespace at either end. */
  lemma CommandHasNoMarker(st: CaptureState, keyword: string, text: string)
    requires Step(st, keyword, text).dispatched.Some?
    ensures !Contains(Step(st, keyword, text).dispatched.value, EndPrompt)
    ensures Unpadded(Step(st, keyword, text).dispatched.value)
  {
    DispatchRule(st, keyword, text);
    var sliced := Slice(text, IndexOf(text, keyword) + |keyword|, IndexOf(text, EndPrompt));
    CutAvoidsMarker(text, IndexOf(text, keyword) + |keyword|);
    TrimAvoids(sliced, EndPrompt);
    TrimSegment(sliced);
  }

  /** When the first marker comes before the end of the first keyword, the command sent is empty. */
  lemma MarkerBeforeKeyword(st: CaptureState, keyword: string, text: string)
    requires Contains(text, keyword) && Contains(text, EndPrompt)
    requires IndexOf(text, EndPrompt) <= IndexOf(text, keyword) + |keyword|
    ensures Step(st, keyword, text).dispatched == Some("")
  {
    TrimUnpadded("");
  }

  /** Typing the whole command in one event sends it at once. */
  lemma SingleEventCommand()
    ensures Step(Idle, "help:", "help:Summarize this...") == StepResult(Idle, Some("Summarize this"))
  {
    var command := "Summarize this";
    var text := "help:" + command + EndPrompt;
    assert text == "help:Summarize this...";
    assert OccursAt(text, "help:", 0) by {
      assert text[0..5] == "help:";
    }
    IndexOfFirst(text, "help:");
    assert OccursAt(text, EndPrompt, 19) by {
      assert text[19..22] == EndPrompt;
    }
    forall i | 0 <= i < 19
      ensures !OccursAt(text, EndPrompt, i)
    {
      assert text[i..i + 3][0] == text[i];
      if i < 5 {
        assert text[i] == "help:"[i];
      } else {
        assert text[i] == command[i - 5];
      }
    }
    IndexOfFirst(text, EndPrompt);
    assert Slice(text, 5, 19) == command by {
      assert text[5..19] == command;
    }
    TrimUnpadded(command);
  }

  /** The effect of a sequence of input events on one field. */
  datatype Trace = Trace(state: CaptureState, commands: seq<string>)

  function Run(st: CaptureState, keyword: string, texts: seq<string>): Trace
    decreases |texts|
  {
    if texts == [] then Trace(st, [])
    else
      var r := Step(st, keyword, texts[0]);
      var rest := Run(r.state, keyword, texts[1..]);
      Trace(rest.state, (if r.dispatched.Some? then [r.dispatched.value] else []) + rest.commands)
  }

  /**
   * No command is ever sent while no event carries the marker, and a capture
   * once opened stays open: there is no time-out or cancellation.
   */
  lemma {:induction false} NoMarkerNoCommand(st: CaptureState, keyword: string, texts: seq<string>)
    requires forall i :: 0 <= i < |texts| ==> !Contains(texts[i], EndPrompt)
    ensures Run(st, keyword, texts).commands == []
    ensures st.capturing ==> Run(st, keyword, texts).state == st
    decreases |texts|
  {
    if texts != [] {
      var r := Step(st, keyword, texts[0]);
      NoMarkerNoCommand(r.state, keyword, texts[1..]);
    }
  }

  /** The page script's capture globals and the active keyword. */
  class CaptureEngine {
    var keyword: string
    var isCapturing: bool
    var capturedText: string

    /** The keyword is never empty and always ends with a colon. */
    predicate Valid()
      reads this
    {
      EndsWith(keyword, ":")
    }

    function State(): CaptureState
      reads this
    {
      CaptureState(isCapturing, capturedText)
    }

    constructor ()
      ensures Valid() && keyword == DefaultKeyword && State() == Idle
    {
      keyword := DefaultKeyword;
      isCapturing := false;
      capturedText := "";
    }

    /**
     * The start-up read of the stored keyword; `saveDefault` says whether the
     * default is written back to storage.
     */
    method LoadKeyword(stored: Option<string>) returns (saveDefault: bool)
      modifies this
      ensures Valid() && keyword == LoadedKeyword(stored) && State() == old(State())
      ensures saveDefault <==> stored.None? || Blank(stored.value)
    {
      keyword := LoadedKeyword(stored);
      if stored.Some? {
        TrimSegment(stored.value);
      }
      saveDefault := stored.None? || Trim(stored.value) == "";
    }

    /**
     * The `updateCommandKeyword` listener; `stored` is what it writes to
     * storage and echoes back to the popup.
     */
    method UpdateKeyword(msg: Option<string>) returns (stored: string)
      modifies this
      ensures Valid() && keyword == UpdatedKeyword(msg) && stored == keyword && State() == old(State())
    {
      keyword := UpdatedKeyword(msg);
      stored := keyword;
    }

    /** The start branch of `handleInput`. */
    method StartCapture(currentValue: string)
      requires Valid()
      modifies this
      ensures Valid()
      ensures keyword == old(keyword) && State() == Start(old(State()), keyword, currentValue)
    {
      if Contains(currentValue, keyword) {
        if !isCapturing {
          isCapturing := true;
          var keywordIndex := IndexOf(currentValue, keyword);
          capturedText := SliceFrom(currentValue, keywordIndex + |keyword|);
        }
      }
    }

    /**
     * The end branch of `handleInput`: when `Command` yields a command, the
     * field shows the placeholder, then the reply, and the capture is reset.
     */
    method FinishCapture(el: Element, currentValue: string, ask: string -> Completion<string>)
      returns (sent: Option<string>, writes: seq<string>)
      requires Valid()
      modifies this, el
      ensures Valid()
      ensures keyword == old(keyword)
      ensures el.tagName == old(el.tagName) && el.contentEditable == old(el.contentEditable) && el.role == old(el.role)
      ensures sent == Command(old(State()), keyword, currentValue)
      ensures sent.Some? ==> State() == Idle
      ensures sent.Some? ==> writes == [Placeholder, ReplyText(ask(sent.value))] && el.Shows(ReplyText(ask(sent.value)))
      ensures sent.None? ==> State() == old(State()) && writes == []
      ensures sent.None? ==> el.value == old(el.value) && el.textContent == old(el.textContent)
    {
      sent := None;
      writes := [];
      CommandCases(State(), keyword, currentValue);
      if isCapturing && Contains(currentValue, EndPrompt) {
        var endPromptIndex := IndexOf(currentValue, EndPrompt);
        var keywordIndex := IndexOf(currentValue, keyword);
        if keywordIndex != -1 && endPromptIndex != -1 {
          var command;
          command, writes := SendCut(el, Slice(currentValue, keywordIndex + |keyword|, endPromptIndex), ask);
          sent := Some(command);
        }
      }
    }

    /**
     * The inner block of the end branch: the cut becomes the captured text,
     * its trimmed form is sent, the field shows the placeholder and then the
     * reply, and the capture is reset.
     */
    method SendCut(el: Element, cut: string, ask: string -> Completion<string>) returns (command: string, writes: seq<string>)
      requires Valid()
      modifies this, el
      ensures Valid() && keyword == old(keyword) && State() == Idle
      ensures command == Trim(cut)
      ensures el.tagName == old(el.tagName) && el.contentEditable == old(el.contentEditable) && el.role == old(el.role)
      ensures writes == [Placeholder, ReplyText(ask(command))] && el.Shows(ReplyText(ask(command)))
    {
      capturedText := cut;
      command := Trim(capturedText);
      writes := Respond(el, command, ask);
      isCapturing := false;
      capturedText := "";
    }

    /**
     * The `try` block of the end branch: the field shows the placeholder, then
     * the assistant's reply to `command`, or the error message.
     */
    method Respond(el: Element, command: string, ask: string -> Completion<string>) returns (writes: seq<string>)
      modifies el
      ensures el.tagName == old(el.tagName) && el.contentEditable == old(el.contentEditable) && el.role == old(el.role)
      ensures writes == [Placeholder, ReplyText(ask(command))] && el.Shows(ReplyText(ask(command)))
    {
      el.Update(Placeholder);
      var reply := ReplyText(ask(command));
      el.Update(reply);
      writes := [Placeholder, reply];
    }

    /**
     * `handleInput`: applies `Step` to the element's current text. When a
     * command is sent, the field first shows the placeholder and then the
     * reply (`writes` lists both); otherwise the element is untouched. The
     * assistant call is the parameter `ask`.
     */
    method HandleInput(el: Element, ask: string -> Completion<string>) returns (sent: Option<string>, writes: seq<string>)
      requires Valid()
      modifies this, el
      ensures Valid()
      ensures keyword == old(keyword)
      ensures el.tagName == old(el.tagName) && el.contentEditable == old(el.contentEditable) && el.role == old(el.role)
      ensures !old(el.IsInput()) ==> State() == old(State()) && sent == None && writes == []
      ensures old(el.IsInput()) ==>
        var r := Step(old(State()), keyword, old(el.CurrentText()));
        State() == r.state && sent == r.dispatched
      ensures sent.Some? ==> writes == [Placeholder, ReplyText(ask(sent.value))] && el.Shows(ReplyText(ask(sent.value)))
      ensures sent.None? ==> writes == [] && el.value == old(el.value) && el.textContent == old(el.textContent)
    {
      if !el.IsInput() {
        return None, [];
      }
      var currentValue := el.CurrentText();
      StartCapture(currentValue);
      sent, writes := FinishCapture(el, currentValue, ask);
    }

    /** The keypress listener: only content-editable elements are passed on to `HandleInput`. */
    method OnKeypress(el: Element, ask: string -> Completion<string>) returns (sent: Option<string>, writes: seq<string>)
      requires Valid()
      modifies this, el
      ensures Valid()
      ensures keyword == old(keyword)
      ensures old(el.contentEditable) != "true" ==>
        State() == old(State()) && sent == None && writes == [] && el.value == old(el.value) && el.textContent == old(el.textContent)
      ensures old(el.contentEditable) == "true" ==>
        var r := Step(old(State()), keyword, old(el.CurrentText()));
        State() == r.state && sent == r.dispatched && el.Kind() != NotAField
      ensures sent.Some? ==> writes == [Placeholder, ReplyText(ask(sent.value))] && el.Shows(ReplyText(ask(sent.value)))
    {
      sent := None;
      writes := [];
      if el.contentEditable == "true" {
        sent, writes := HandleInput(el, ask);
      }
    }
  }
}

/** The chat page's message box: trim, refuse empty or disabled input, hand the
    trimmed text to the send callback and clear the box. */
module ChatInput {
  import opened Wire

  /** The characters `String.prototype.trim` removes: the ECMAScript WhiteSpace
      (tab, vertical tab, form feed, space, no-break space, byte order mark and the
      space separators of Unicode category Zs) and LineTerminator characters. */
  predicate IsWhitespace(c: char) {
    c == '\t' || c == '\n' || c == '\U{000B}' || c == '\U{000C}' || c == '\r' || c == ' ' ||
    c == '\U{00A0}' || c == '\U{1680}' || ('\U{2000}' <= c <= '\U{200A}') ||
    c == '\U{2028}' || c == '\U{2029}' || c == '\U{202F}' || c == '\U{205F}' ||
    c == '\U{3000}' || c == '\U{FEFF}'
  }

  /** `s` with its leading whitespace removed. */
  function TrimStart(s: string): (r: string)
    ensures |r| <= |s| && r == s[|s| - |r|..]
    ensures forall i :: 0 <= i < |s| - |r| ==> IsWhitespace(s[i])
    ensures r != [] ==> !IsWhitespace(r[0])
  {
    if s != [] && IsWhitespace(s[0]) then TrimStart(s[1..]) else s
  }

  /** `s` with its trailing whitespace removed. */
  function TrimEnd(s: string): (r: string)
    ensures |r| <= |s| && r == s[..|r|]
    ensures forall i :: |r| <= i < |s| ==> IsWhitespace(s[i])
    ensures r != [] ==> !IsWhitespace(r[|r| - 1])
  {
    if s != [] && IsWhitespace(s[|s| - 1]) then TrimEnd(s[..|s| - 1]) else s
  }

  /** `s.trim()`: the slice of `s` left after cutting whitespace from both ends. */
  function Trim(s: string): (r: string)
    ensures r != [] ==> !IsWhitespace(r[0]) && !IsWhitespace(r[|r| - 1])
    ensures var lo := |s| - |TrimStart(s)|;
      lo + |r| <= |s| && r == s[lo..lo + |r|] &&
      (forall i :: 0 <= i < lo ==> IsWhitespace(s[i])) &&
      (forall i :: lo + |r| <= i < |s| ==> IsWhitespace(s[i]))
  {
    TrimEnd(TrimStart(s))
  }

  /** Trimming yields the empty string exactly for all-whitespace input. */
  lemma TrimEmpty(s: string)
    ensures Trim(s) == "" <==> forall i :: 0 <= i < |s| ==> IsWhitespace(s[i])
  {
    if Trim(s) != "" {
      var lo := |s| - |TrimStart(s)|;
      assert s[lo] == Trim(s)[0];
    }
  }

  /** Trimming twice is trimming once. */
  lemma TrimIdempotent(s: string)
    ensures Trim(Trim(s)) == Trim(s)
  {
    var r := Trim(s);
    assert TrimStart(r) == r;
    assert TrimEnd(r) == r;
  }

  /** What `handleSubmit` hands to `onSend`: nothing when the trimmed text is empty or
      the input is disabled, otherwise the trimmed text. */
  function Submission(text: string, disabled: bool): (sent: Option<string>)
    ensures sent.None? <==> (forall i :: 0 <= i < |text| ==> IsWhitespace(text[i])) || disabled
    ensures sent.Some? ==>
      sent.value == Trim(text) && sent.value != "" &&
      !IsWhitespace(sent.value[0]) && !IsWhitespace(sent.value[|sent.value| - 1])
  {
    TrimEmpty(text);
    var trimmed := Trim(text);
    if trimmed == "" || disabled then None else Some(trimmed)
  }

  /** The send button's `disabled` (`!message.trim() || disabled`): set exactly when
      submitting would send nothing. */
  function ButtonDisabled(text: string, disabled: bool): (b: bool)
    ensures b <==> Submission(text, disabled).None?
  {
    Trim(text) == "" || disabled
  }

  /** The key event that submits: Enter without Shift. */
  predicate SubmitKey(key: string, shift: bool) {
    key == "Enter" && !shift
  }

  class MessageBox {
    var message: string

    constructor ()
      ensures message == ""
    {
      message := "";
    }

    /** The text area's `onChange`. */
    method Change(value: string)
      modifies this
      ensures message == value
    {
      message := value;
    }

    /** `handleSubmit`; returns the argument `onSend` was called with, if it was called. */
    method HandleSubmit(disabled: bool) returns (sent: Option<string>)
      modifies this
      ensures sent == Submission(old(message), disabled)
      ensures message == if sent.Some? then "" else old(message)
    {
      var trimmed := Trim(message);
      if trimmed == "" || disabled {
        return None;
      }
      sent := Some(trimmed);
      message := "";
    }

    /** `handleKeyDown`: Enter without Shift submits; any other key, Shift+Enter
        included, leaves the text to the text area. */
    method HandleKeyDown(key: string, shift: bool, disabled: bool) returns (sent: Option<string>)
      modifies this
      ensures !SubmitKey(key, shift) ==> sent == None && message == old(message)
      ensures SubmitKey(key, shift) ==> sent == Submission(old(message), disabled)
      ensures message == if sent.Some? then "" else old(message)
    {
      sent := None;
      if key == "Enter" && !shift {
        sent := HandleSubmit(disabled);
      }
    }
  }
}

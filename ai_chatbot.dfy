/**
 * The assistant widget, src/components/AIChatbot.tsx: which of its three
 * renderings shows, and the submit handler that guards `sendMessage`.
 */
module AIChatbot {
  import opened Optional
  import opened ChatContext

  /** The characters `String.prototype.trim` removes: WhiteSpace and LineTerminator. */
  predicate IsJsWhitespace(c: char) {
    || c == '\t' || c == '\n' || c == '\U{B}' || c == '\U{C}' || c == '\r' || c == ' '
    || c == '\U{A0}' || c == '\U{1680}' || ('\U{2000}' <= c <= '\U{200A}')
    || c == '\U{2028}' || c == '\U{2029}' || c == '\U{202F}' || c == '\U{205F}'
    || c == '\U{3000}' || c == '\U{FEFF}'
  }

  /** Every character of `s` is in the class `space`. */
  predicate AllIn(s: string, space: char -> bool) {
    forall i :: 0 <= i < |s| ==> space(s[i])
  }

  /** `s` with its leading `space` characters removed: a suffix of `s`. */
  function TrimStart(s: string, space: char -> bool): (r: string)
    ensures |r| <= |s| && r == s[|s| - |r|..]
    ensures AllIn(s[..|s| - |r|], space)
    ensures r == [] || !space(r[0])
  {
    if s != [] && space(s[0]) then TrimStart(s[1..], space) else s
  }

  /** `s` with its trailing `space` characters removed: a prefix of `s`. */
  function TrimEnd(s: string, space: char -> bool): (r: string)
    ensures |r| <= |s| && r == s[..|r|]
    ensures AllIn(s[|r|..], space)
    ensures r == [] || !space(r[|r| - 1])
  {
    if s != [] && space(s[|s| - 1]) then TrimEnd(s[..|s| - 1], space) else s
  }

  /** Both ends stripped of `space` characters. */
  function TrimBy(s: string, space: char -> bool): string {
    TrimEnd(TrimStart(s, space), space)
  }

  /** `String.prototype.trim`. */
  function Trim(s: string): (r: string)
    ensures |r| <= |s|
    ensures r == [] <==> AllIn(s, IsJsWhitespace)
  {
    TrimEmptyIffBlank(s, IsJsWhitespace);
    TrimBy(s, IsJsWhitespace)
  }

  /** Trimming keeps one contiguous slice of the text. */
  lemma TrimIsSlice(s: string, space: char -> bool)
    ensures var r, i := TrimBy(s, space), |s| - |TrimStart(s, space)|;
      i + |r| <= |s| && r == s[i..i + |r|]
  {
    var t := TrimStart(s, space);
    SliceOfSlice(s, t, TrimEnd(t, space), |s| - |t|);
  }

  /** What trimming removes, before and after that slice, is all `space` characters. */
  lemma TrimRemovesOnlySpace(s: string, space: char -> bool)
    ensures var r, i := TrimBy(s, space), |s| - |TrimStart(s, space)|;
      i + |r| <= |s| && AllIn(s[..i], space) && AllIn(s[i + |r|..], space)
  {
    var t := TrimStart(s, space);
    SliceOfSlice(s, t, TrimEnd(t, space), |s| - |t|);
  }

  /** The trimmed text neither starts nor ends with a `space` character. */
  lemma TrimmedEndsAreNotSpace(s: string, space: char -> bool)
    ensures var r := TrimBy(s, space);
      r == [] || (!space(r[0]) && !space(r[|r| - 1]))
  {
    var t := TrimStart(s, space);
    var r := TrimEnd(t, space);
    if r != [] {
      assert r[0] == t[0];
    }
  }

  /** A prefix `r` of the suffix `t` of `s` is a slice of `s`; what follows `r` in `t` ends `s`. */
  lemma SliceOfSlice(s: string, t: string, r: string, i: nat)
    requires i <= |s| && t == s[i..] && |r| <= |t| && r == t[..|r|]
    ensures r == s[i..i + |r|] && t[|r|..] == s[i + |r|..]
  {
  }

  /** The trimmed text is empty exactly when the input is blank. */
  lemma TrimEmptyIffBlank(s: string, space: char -> bool)
    ensures TrimBy(s, space) == [] <==> AllIn(s, space)
  {
    var t := TrimStart(s, space);
    var r := TrimEnd(t, space);
    var i := |s| - |t|;
    assert t == s[i..];
    if r == [] {
      forall j | 0 <= j < |s| ensures space(s[j]) {
        if j < i {
          assert s[j] == s[..i][j];
        } else {
          assert s[j] == t[j - i] == t[|r|..][j - i];
        }
      }
    } else {
      assert r[0] == t[0] == s[i];
    }
  }

  /** The three renderings of the widget. */
  datatype View =
    | Hidden                                                      // `return null`
    | Bubble                                                      // the floating button, onClick = maximizeChat
    | Expanded(messages: seq<Message>, showsLoading: bool, sendDisabled: bool)

  function ViewOf(s: ChatState): (v: View)
    ensures v.Hidden? <==> !s.isOpen
    ensures v.Bubble? <==> s.isOpen && s.isMinimized
    ensures v.Expanded? ==> v.messages == s.messages && v.showsLoading == s.isLoading
    ensures v.Expanded? ==> v.sendDisabled == v.showsLoading
  {
    if !s.isOpen then Hidden
    else if s.isMinimized then Bubble
    else Expanded(s.messages, s.isLoading, s.isLoading)
  }

  /** What the visibility operations of the provider do to the rendering. */
  lemma VisibilityOpsSelectView(s: ChatState)
    ensures ViewOf(Opened(s)).Expanded?
    ensures ViewOf(Closed(s)) == Hidden
    ensures ViewOf(Minimized(s)) == if s.isOpen then Bubble else Hidden
    ensures ViewOf(s) == Bubble ==> ViewOf(Maximized(s)).Expanded?
    ensures !s.isOpen ==> ViewOf(Maximized(s)) == Hidden && ViewOf(Minimized(s)) == Hidden
  {
  }

  /**
   * The widget: the input element's value, and the provider it talks to. The
   * input exists only in the expanded panel; the bubble and the hidden widget
   * unmount it, and since it is uncontrolled it comes back empty.
   */
  class ChatWidget {
    var input: string
    const chat: ChatProvider

    /** Outside the expanded panel there is no input element, so no text. */
    predicate InputMounted()
      reads this, chat
    {
      ViewOf(chat.State()).Expanded? || input == ""
    }

    constructor (chat: ChatProvider)
      ensures this.chat == chat && input == ""
      ensures InputMounted()
    {
      this.chat := chat;
      input := "";
    }

    /** The input is uncontrolled: typing sets the element's value directly. */
    method EnterText(value: string)
      requires ViewOf(chat.State()).Expanded?
      modifies this
      ensures input == value
      ensures InputMounted()
    {
      input := value;
    }

    /** The panel's minimize button: the bubble replaces the panel and its input. */
    method Minimize()
      requires chat.WrittenThrough()
      modifies this, chat
      ensures chat.State() == Minimized(old(chat.State())) && chat.storage == old(chat.storage)
      ensures chat.WrittenThrough()
      ensures input == "" && InputMounted()
    {
      chat.MinimizeChat();
      input := "";
    }

    /** The panel's close button: the widget renders nothing. */
    method Close()
      requires chat.WrittenThrough()
      modifies this, chat
      ensures chat.State() == Closed(old(chat.State())) && chat.storage == old(chat.storage)
      ensures chat.WrittenThrough()
      ensures input == "" && InputMounted()
    {
      chat.CloseChat();
      input := "";
    }

    /** The bubble's button: the panel is mounted again with an empty input. */
    method Maximize()
      requires chat.WrittenThrough()
      modifies this, chat
      ensures chat.State() == Maximized(old(chat.State())) && chat.storage == old(chat.storage)
      ensures chat.WrittenThrough()
      ensures input == if ViewOf(old(chat.State())).Expanded? then old(input) else ""
      ensures InputMounted()
    {
      if !ViewOf(chat.State()).Expanded? {
        input := "";
      }
      chat.MaximizeChat();
    }

    /**
     * handleSend, the submit handler of the expanded panel's form: a blank
     * input does nothing at all; otherwise sendMessage is called once with the
     * trimmed text and then the input is cleared.
     */
    method HandleSend(now: Stamp) returns (request: Option<ChatRequest>)
      requires chat.WrittenThrough()
      requires ViewOf(chat.State()).Expanded?
      modifies this, chat
      ensures chat.WrittenThrough() && InputMounted()
      ensures Trim(old(input)) == [] ==>
        && request == None
        && input == old(input)
        && chat.State() == old(chat.State()) && chat.storage == old(chat.storage)
      ensures Trim(old(input)) != [] ==>
        && request == Some(ChatRequest(Trim(old(input)), HistoryForApi(old(chat.messages))))
        && input == ""
        && chat.State() == SendBegun(old(chat.State()), Trim(old(input)), now)
        && chat.storage == Persist(old(chat.storage), chat.messages)
    {
      var text := Trim(input);
      if text == [] {
        return None;
      }
      var sent := chat.BeginSend(text, now);
      input := "";
      request := Some(sent);
    }
  }
}

/**
 * The transcript accumulator of the ChatBubble component: an append-only list
 * of messages fed by the user's sends and by the model's streamed content, the
 * input field, and the panel toggle that connects the session client.
 */
module ChatBubble {
  import opened Wrappers

  // ---------------------------------------------------------------------------
  // Whitespace and String.prototype.trim
  // ---------------------------------------------------------------------------

  /** ECMAScript WhiteSpace and LineTerminator code points, the set `trim` strips. */
  predicate IsWhitespace(c: char)
  {
    c == '\t' || c == '\n' || c == '\U{B}' || c == '\U{C}' || c == '\r' || c == ' ' ||
    c == '\U{A0}' || c == '\U{1680}' || ('\U{2000}' <= c <= '\U{200A}') ||
    c == '\U{2028}' || c == '\U{2029}' || c == '\U{202F}' || c == '\U{205F}' ||
    c == '\U{3000}' || c == '\U{FEFF}'
  }

  /** Every character of `s` is whitespace (the empty string included). */
  predicate IsBlank(s: string)
  {
    forall i :: 0 <= i < |s| ==> IsWhitespace(s[i])
  }

  /** `s` without its leading whitespace. */
  function TrimStart(s: string): (r: string)
    ensures |r| <= |s| && r == s[|s| - |r|..]
    ensures IsBlank(s[..|s| - |r|])
    ensures r != "" ==> !IsWhitespace(r[0])
    ensures r == "" <==> IsBlank(s)
  {
    if s != [] && IsWhitespace(s[0]) then
      var r := TrimStart(s[1..]);
      assert s[..|s| - |r|] == [s[0]] + s[1..][..|s| - 1 - |r|];
      r
    else s
  }

  /** `s` without its trailing whitespace. */
  function TrimEnd(s: string): (r: string)
    ensures |r| <= |s| && r == s[..|r|]
    ensures IsBlank(s[|r|..])
    ensures r != "" ==> !IsWhitespace(r[|r| - 1])
    ensures r == "" <==> IsBlank(s)
  {
    if s != [] && IsWhitespace(s[|s| - 1]) then
      var r := TrimEnd(s[..|s| - 1]);
      assert s[|r|..] == s[..|s| - 1][|r|..] + [s[|s| - 1]];
      r
    else s
  }

  /** `String.prototype.trim`: empty exactly for blank input. */
  function Trim(s: string): (r: string)
    ensures r == "" <==> IsBlank(s)
  {
    TrimEnd(TrimStart(s))
  }

  /** Trimming removes exactly the leading and trailing whitespace: what is kept is
      a contiguous slice of the input, what is cut off on either side is blank, and
      a non-empty result starts and ends with non-whitespace. */
  lemma TrimIsInnerSlice(s: string)
    ensures exists i, j :: 0 <= i <= j <= |s| && Trim(s) == s[i..j] && IsBlank(s[..i]) && IsBlank(s[j..])
    ensures Trim(s) != "" ==> !IsWhitespace(Trim(s)[0]) && !IsWhitespace(Trim(s)[|Trim(s)| - 1])
  {
    var t := TrimStart(s);
    var r := TrimEnd(t);
    var i := |s| - |t|;
    var j := i + |r|;
    assert t == s[i..];
    assert r == s[i..][..|r|] == s[i..j];
    assert s[j..] == t[|r|..];
    assert IsBlank(s[..i]) && IsBlank(s[j..]);
    if r != "" {
      assert r[0] == t[0];
    }
  }

  // ---------------------------------------------------------------------------
  // Messages, content events and text extraction
  // ---------------------------------------------------------------------------

  /** One transcript entry, in display order. */
  datatype Message = Message(text: string, isUser: bool)

  /** A content part; `text` is absent for non-text parts. */
  datatype Part = Part(text: Option<string>)

  /** A streamed server-content event: a model turn, or a turn-management signal. */
  datatype ServerContent =
    | ModelTurn(parts: seq<Part>)
    | TurnComplete
    | Interrupted

  /** `part => part.text` as a filter: JavaScript truthiness of an optional
      string, false for `undefined` and for the empty string only. */
  predicate HasText(p: Part)
    ensures p.text.None? ==> !HasText(p)
    ensures p.text == Some("") ==> !HasText(p)
    ensures (exists c, t :: p.text == Some([c] + t)) ==> HasText(p)
  {
    p.text.Some? && p.text.value != ""
  }

  /** `parts.filter(part => part.text).map(part => part.text)`. */
  function PartTexts(parts: seq<Part>): (r: seq<string>)
    ensures |r| <= |parts|
    ensures forall k :: 0 <= k < |r| ==> r[k] != ""
    ensures r == [] <==> forall i :: 0 <= i < |parts| ==> !HasText(parts[i])
  {
    if parts == [] then []
    else if HasText(parts[0]) then [parts[0].text.value] + PartTexts(parts[1..])
    else PartTexts(parts[1..])
  }

  /** `join('')`: the strings in order with no separator. */
  function Join(ss: seq<string>): (r: string)
    ensures r == "" <==> forall k :: 0 <= k < |ss| ==> ss[k] == ""
  {
    if ss == [] then "" else ss[0] + Join(ss[1..])
  }

  /** The text of a model turn. */
  function ExtractText(parts: seq<Part>): (r: string)
    ensures r == "" <==> forall i :: 0 <= i < |parts| ==> !HasText(parts[i])
  {
    Join(PartTexts(parts))
  }

  /** Reference definition: every present text, empty ones included, in order. */
  function ConcatPresent(parts: seq<Part>): string
  {
    if parts == [] then ""
    else (if parts[0].text.Some? then parts[0].text.value else "") + ConcatPresent(parts[1..])
  }

  /** The filter changes nothing but which empty strings are joined: the text is
      the in-order concatenation of every present text. */
  lemma {:induction false} ExtractTextIsConcatenation(parts: seq<Part>)
    ensures ExtractText(parts) == ConcatPresent(parts)
  {
    if parts != [] {
      ExtractTextIsConcatenation(parts[1..]);
      if HasText(parts[0]) {
        assert PartTexts(parts) == [parts[0].text.value] + PartTexts(parts[1..]);
        assert PartTexts(parts)[1..] == PartTexts(parts[1..]);
      } else {
        assert PartTexts(parts) == PartTexts(parts[1..]);
      }
    }
  }

  lemma {:induction false} PartTextsAppend(p: seq<Part>, q: seq<Part>)
    ensures PartTexts(p + q) == PartTexts(p) + PartTexts(q)
  {
    if p != [] {
      assert (p + q)[1..] == p[1..] + q;
      PartTextsAppend(p[1..], q);
    } else {
      assert p + q == q;
    }
  }

  lemma {:induction false} JoinAppend(a: seq<string>, b: seq<string>)
    ensures Join(a + b) == Join(a) + Join(b)
  {
    if a != [] {
      assert (a + b)[1..] == a[1..] + b;
      JoinAppend(a[1..], b);
    } else {
      assert a + b == b;
    }
  }

  /** Extraction keeps order: the parts of two halves give their texts one after the other. */
  lemma ExtractTextAppend(p: seq<Part>, q: seq<Part>)
    ensures ExtractText(p + q) == ExtractText(p) + ExtractText(q)
  {
    PartTextsAppend(p, q);
    JoinAppend(PartTexts(p), PartTexts(q));
  }

  /** The entries one content event adds to the transcript: a single model entry
      for a model turn with text, none otherwise. */
  function ContentEntries(content: ServerContent): (r: seq<Message>)
    ensures |r| <= 1
    ensures r != [] <==> content.ModelTurn? && exists i :: 0 <= i < |content.parts| && HasText(content.parts[i])
    ensures r != [] ==> !r[0].isUser && r[0].text != "" && r[0].text == ConcatPresent(content.parts)
  {
    match content
    case ModelTurn(parts) =>
      var text := ExtractText(parts);
      ExtractTextIsConcatenation(parts);
      if text != "" then [Message(text, false)] else []
    case TurnComplete => []
    case Interrupted => []
  }

  // ---------------------------------------------------------------------------
  // Session client calls
  // ---------------------------------------------------------------------------

  datatype LiveConfig = LiveConfig(model: string, responseModalities: string, systemInstruction: string)

  /** The plain-chat configuration the panel connects with. */
  const ChatConfig: LiveConfig :=
    LiveConfig("models/gemini-2.0-flash-exp", "text", "You are a helpful assistant.")

  /** What the component asks of the session client. */
  datatype ClientCall =
    | Send(parts: seq<Part>)
    | Connect(config: LiveConfig)

  /** The Send button's `disabled` attribute. */
  function SendDisabled(connected: bool, inputText: string): (r: bool)
    ensures r <==> !connected || IsBlank(inputText)
  {
    !connected || Trim(inputText) == ""
  }

  // ---------------------------------------------------------------------------
  // The component state
  // ---------------------------------------------------------------------------

  class ChatBubbleComponent {
    var isExpanded: bool
    /** The transcript, oldest first. */
    var messages: seq<Message>
    var inputText: string
    var outbox: seq<ClientCall>

    constructor ()
      ensures !isExpanded && messages == [] && inputText == "" && outbox == []
    {
      isExpanded := false;
      messages := [];
      inputText := "";
      outbox := [];
    }

    /** The input's `onChange`. */
    method SetInputText(text: string)
      modifies this`inputText
      ensures inputText == text
    {
      inputText := text;
    }

    /** `handleSend`: blank input is ignored; otherwise the raw input is recorded
        as a user entry, sent as one text part, and the input is cleared. */
    method HandleSend()
      modifies this`messages, this`inputText, this`outbox
      ensures IsBlank(old(inputText)) ==>
        messages == old(messages) && inputText == old(inputText) && outbox == old(outbox)
      ensures !IsBlank(old(inputText)) ==>
        messages == old(messages) + [Message(old(inputText), true)] &&
        outbox == old(outbox) + [Send([Part(Some(old(inputText)))])] &&
        inputText == ""
    {
        if Trim(inputText) == "" {
        return;
      }
      messages := messages + [Message(inputText, true)];
      outbox := outbox + [Send([Part(Some(inputText))])];
      inputText := "";
    }

    /** The input's `onKeyPress`: Enter sends, whatever the connection state. */
    method OnKeyPress(key: string)
      modifies this`messages, this`inputText, this`outbox
      ensures key != "Enter" ==>
        messages == old(messages) && inputText == old(inputText) && outbox == old(outbox)
      ensures key == "Enter" && IsBlank(old(inputText)) ==>
        messages == old(messages) && inputText == old(inputText) && outbox == old(outbox)
      ensures key == "Enter" && !IsBlank(old(inputText)) ==>
        messages == old(messages) + [Message(old(inputText), true)] &&
        outbox == old(outbox) + [Send([Part(Some(old(inputText)))])] &&
        inputText == ""
    {
      if key == "Enter" {
        HandleSend();
      }
    }

    /** `toggleChat`: flips the panel and connects when the client is disconnected. */
    method ToggleChat(connected: bool)
      modifies this`isExpanded, this`outbox
      ensures isExpanded == !old(isExpanded)
      ensures outbox == old(outbox) + (if connected then [] else [Connect(ChatConfig)])
    {
      isExpanded := !isExpanded;
      if !connected {
        outbox := outbox + [Connect(ChatConfig)];
      }
    }

    /** `handleContent`: appends at most one model entry per event, never merging. */
    method HandleContent(content: ServerContent)
      modifies this`messages
      ensures messages == old(messages) + ContentEntries(content)
    {
      if content.ModelTurn? {
        var text := ExtractText(content.parts);
        if text != "" {
          messages := messages + [Message(text, false)];
        }
      }
    }
  }

  /** A client of the component: a blank send is ignored, two model turns give
      two separate entries in arrival order. */
  method Scenario()
  {
    var c := new ChatBubbleComponent();
    c.SetInputText("   ");
    assert IsBlank(c.inputText);
    c.HandleSend();
    assert c.messages == [] && c.outbox == [] && c.inputText == "   ";
    c.HandleContent(ModelTurn([Part(Some("Hel"))]));
    c.HandleContent(ModelTurn([Part(Some("lo"))]));
    assert ConcatPresent([Part(Some("Hel"))]) == "Hel";
    assert ConcatPresent([Part(Some("lo"))]) == "lo";
    assert c.messages == [Message("Hel", false), Message("lo", false)];
    c.ToggleChat(false);
    assert c.isExpanded && c.outbox == [Connect(ChatConfig)];
  }
}

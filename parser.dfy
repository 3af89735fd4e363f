/** The request normaliser: flattening of arbitrary JSON to text, the three
    vendor parsers and the generic fallback, and routing of a path to a vendor.
    The tokenizer is a black box, passed in as `countTokens`. */
module Parser {
  import opened Common
  import opened Json
  import opened Event
  import opened Config

  // ---------------------------------------------------------------------------
  // Text extraction (`extract_text_from_value`)
  // ---------------------------------------------------------------------------

  /** Flattens a JSON value to text. A string is itself; an array is the
      newline-join of its elements' non-empty extractions; an object is its
      string `text` member if it has one, else the extraction of its `content`
      member if it has one, else the newline-join of its members' non-empty
      extractions; numbers, booleans and null give "". */
  function ExtractText(v: Json): string
    decreases v, 1
  {
    match v
    case Str(s) => s
    case Array(items) => Join(ItemPieces(items), "\n")
    case Object(fields) =>
      var text := FindKey(fields, "text");
      if text.Some? && fields[text.value].value.Str? then fields[text.value].value.s
      else
        var content := FindKey(fields, "content");
        if content.Some? then ExtractText(fields[content.value].value)
        else Join(FieldPieces(fields), "\n")
    case _ => ""
  }

  /** The non-empty extractions of `items`, in order. */
  function ItemPieces(items: seq<Json>): seq<string>
    decreases items, 0
  {
    if items == [] then []
    else
      var t := ExtractText(items[0]);
      (if t == "" then [] else [t]) + ItemPieces(items[1..])
  }

  /** The non-empty extractions of the members' values, in enumeration order. */
  function FieldPieces(fields: seq<Field>): seq<string>
    decreases fields, 0
  {
    if fields == [] then []
    else
      var t := ExtractText(fields[0].value);
      (if t == "" then [] else [t]) + FieldPieces(fields[1..])
  }

  /** The pieces a join is made of: each is non-empty, each element's
      non-empty extraction is one of them, and there are none exactly when
      every element extracts to "". */
  lemma {:induction false} ItemPiecesAreNonEmptyExtractions(items: seq<Json>)
    ensures forall k :: 0 <= k < |ItemPieces(items)| ==> ItemPieces(items)[k] != ""
    ensures forall i :: 0 <= i < |items| && ExtractText(items[i]) != "" ==>
              ExtractText(items[i]) in ItemPieces(items)
    ensures ItemPieces(items) == [] <==> forall i :: 0 <= i < |items| ==> ExtractText(items[i]) == ""
  {
    if items != [] {
      ItemPiecesAreNonEmptyExtractions(items[1..]);
      assert forall i :: 1 <= i < |items| ==> items[1..][i - 1] == items[i];
    }
  }

  /** An array extracts to "" exactly when every element does, in particular
      when it is empty. */
  lemma ExtractArrayEmpty(items: seq<Json>)
    ensures ExtractText(Array(items)) == "" <==> forall i :: 0 <= i < |items| ==> ExtractText(items[i]) == ""
  {
    ItemPiecesAreNonEmptyExtractions(items);
    if ItemPieces(items) != [] {
      JoinNonEmpty(ItemPieces(items), "\n");
    }
  }

  /** A string extracts to itself; numbers, booleans and null to "". */
  lemma ExtractScalars(s: string, b: bool, literal: string)
    ensures ExtractText(Str(s)) == s
    ensures ExtractText(Number(literal)) == "" && ExtractText(Bool(b)) == "" && ExtractText(Null) == ""
  {
  }

  /** A string-valued `text` member wins over every sibling. */
  lemma ExtractTextMember(v: Json, t: string)
    requires Get(v, "text") == Some(Str(t))
    ensures ExtractText(v) == t
  {
  }

  /** Without a string `text` member, a `content` member alone decides. */
  lemma ExtractContentMember(v: Json, c: Json)
    requires v.Object? && AsStr(Get(v, "text")).None? && Get(v, "content") == Some(c)
    ensures ExtractText(v) == ExtractText(c)
  {
  }

  /** Every string inside `v` (at any depth) has no blank line. */
  ghost predicate StringsHaveNoBlankLine(v: Json)
    decreases v, 1
  {
    match v
    case Str(s) => NoBlankLine(s)
    case Array(items) => ItemsHaveNoBlankLine(items)
    case Object(fields) => FieldsHaveNoBlankLine(fields)
    case _ => true
  }

  ghost predicate ItemsHaveNoBlankLine(items: seq<Json>)
    decreases items, 0
  {
    items != [] ==> StringsHaveNoBlankLine(items[0]) && ItemsHaveNoBlankLine(items[1..])
  }

  ghost predicate FieldsHaveNoBlankLine(fields: seq<Field>)
    decreases fields, 0
  {
    fields != [] ==> StringsHaveNoBlankLine(fields[0].value) && FieldsHaveNoBlankLine(fields[1..])
  }

  /** Extraction never creates a blank line: empty extractions are dropped
      before the newline-join, so the result starts or ends with a newline, or
      has two in a row, only if one of the strings of the input does. */
  lemma {:induction false} ExtractNoBlankLine(v: Json)
    requires StringsHaveNoBlankLine(v)
    ensures NoBlankLine(ExtractText(v))
    decreases v, 1
  {
    match v
    case Str(s) =>
    case Array(items) =>
      ItemPiecesNoBlankLine(items);
      JoinNoBlankLine(ItemPieces(items));
    case Object(fields) =>
      var text := FindKey(fields, "text");
      if text.Some? && fields[text.value].value.Str? {
        FieldMemberNoBlankLine(fields, text.value);
      } else {
        var content := FindKey(fields, "content");
        if content.Some? {
          FieldMemberNoBlankLine(fields, content.value);
          ExtractNoBlankLine(fields[content.value].value);
        } else {
          FieldPiecesNoBlankLine(fields);
          JoinNoBlankLine(FieldPieces(fields));
        }
      }
    case _ =>
  }

  lemma {:induction false} FieldMemberNoBlankLine(fields: seq<Field>, i: nat)
    requires i < |fields| && FieldsHaveNoBlankLine(fields)
    ensures StringsHaveNoBlankLine(fields[i].value)
  {
    if i > 0 {
      FieldMemberNoBlankLine(fields[1..], i - 1);
    }
  }

  lemma {:induction false} ItemPiecesNoBlankLine(items: seq<Json>)
    requires ItemsHaveNoBlankLine(items)
    ensures forall k :: 0 <= k < |ItemPieces(items)| ==>
              ItemPieces(items)[k] != "" && NoBlankLine(ItemPieces(items)[k])
    decreases items, 0
  {
    if items != [] {
      ExtractNoBlankLine(items[0]);
      ItemPiecesNoBlankLine(items[1..]);
    }
  }

  lemma {:induction false} FieldPiecesNoBlankLine(fields: seq<Field>)
    requires FieldsHaveNoBlankLine(fields)
    ensures forall k :: 0 <= k < |FieldPieces(fields)| ==>
              FieldPieces(fields)[k] != "" && NoBlankLine(FieldPieces(fields)[k])
    decreases fields, 0
  {
    if fields != [] {
      ExtractNoBlankLine(fields[0].value);
      FieldPiecesNoBlankLine(fields[1..]);
    }
  }

  /** The source's unit test: two text blocks nested under `content`. */
  lemma ExtractNestedContentExample()
    ensures ExtractText(Object([Field("content", Array([
              Object([Field("type", Str("text")), Field("text", Str("Hello"))]),
              Object([Field("type", Str("text")), Field("text", Str("World"))])]))]))
            == "Hello\nWorld"
  {
    var hello := Object([Field("type", Str("text")), Field("text", Str("Hello"))]);
    var world := Object([Field("type", Str("text")), Field("text", Str("World"))]);
    assert ExtractText(hello) == "Hello";
    assert ExtractText(world) == "World";
    assert ItemPieces([world]) == ["World"];
    assert ItemPieces([hello, world]) == ["Hello", "World"];
  }

  // ---------------------------------------------------------------------------
  // What each vendor parser makes of a body
  // ---------------------------------------------------------------------------

  /** The items of the array member `key`, or none when it is absent or not an array. */
  function Elements(body: Json, key: string): seq<Json>
  {
    match ArrayAt(body, key)
    case Some(items) => items
    case None => []
  }

  /** The synthetic leading system message: present exactly when the member
      `key` exists and extracts to non-empty text. */
  function SystemMessages(body: Json, key: string): (r: seq<Message>)
    ensures |r| <= 1
    ensures r != [] ==> r[0].role == "system" && r[0].content != ""
  {
    match Get(body, key)
    case Some(system) =>
      var text := ExtractText(system);
      if text == "" then [] else [Message("system", text)]
    case None => []
  }

  /** One element of the Anthropic or OpenAI `messages` array: role from
      `role` (default "unknown"), content extracted from `content` (default ""). */
  function ChatMessage(msg: Json): Message
  {
    Message(StrOr(msg, "role", "unknown"),
            match Get(msg, "content")
            case Some(c) => ExtractText(c)
            case None => "")
  }

  /** The string `text` members of the parts, in order; parts without one are skipped. */
  function PartTexts(parts: seq<Json>): seq<string>
  {
    if parts == [] then [] else PartText(parts[0]) + PartTexts(parts[1..])
  }

  /** What one part contributes: its string `text`, or nothing. */
  function PartText(part: Json): (r: seq<string>)
    ensures |r| <= 1
    ensures r != [] <==> AsStr(Get(part, "text")).Some?
    ensures r != [] ==> r[0] == AsStr(Get(part, "text")).value
  {
    match AsStr(Get(part, "text"))
    case Some(t) => [t]
    case None => []
  }

  /** One element of the Gemini `contents` array: role from `role` (default
      "user"); text from the `parts` array when there is one, otherwise the
      extraction of the whole element. */
  function GeminiMessage(content: Json): Message
  {
    Message(StrOr(content, "role", "user"),
            match ArrayAt(content, "parts")
            case Some(parts) => Join(PartTexts(parts), "\n")
            case None => ExtractText(content))
  }

  function MapMessages(items: seq<Json>, convert: Json -> Message): (r: seq<Message>)
    ensures |r| == |items| && forall i :: 0 <= i < |items| ==> r[i] == convert(items[i])
  {
    seq(|items|, i requires 0 <= i < |items| => convert(items[i]))
  }

  function AnthropicMessages(body: Json): seq<Message>
  {
    SystemMessages(body, "system") + MapMessages(Elements(body, "messages"), ChatMessage)
  }

  function OpenAIMessages(body: Json): seq<Message>
  {
    MapMessages(Elements(body, "messages"), ChatMessage)
  }

  function GeminiMessages(body: Json): seq<Message>
  {
    SystemMessages(body, "systemInstruction") + MapMessages(Elements(body, "contents"), GeminiMessage)
  }

  /** The text handed to the tokenizer: each non-empty content followed by a
      newline, in message order. */
  function TextBlob(ms: seq<Message>): string
  {
    if ms == [] then "" else Line(ms[0].content) + TextBlob(ms[1..])
  }

  function Line(content: string): string
  {
    if content == "" then "" else content + "\n"
  }

  lemma {:induction false} TextBlobAppend(a: seq<Message>, b: seq<Message>)
    ensures TextBlob(a + b) == TextBlob(a) + TextBlob(b)
  {
    if a == [] {
      assert a + b == b;
    } else {
      assert (a + b)[1..] == a[1..] + b;
      TextBlobAppend(a[1..], b);
    }
  }

  /** The blob is empty exactly when every content is. */
  lemma {:induction false} TextBlobEmpty(ms: seq<Message>)
    ensures TextBlob(ms) == "" <==> forall i :: 0 <= i < |ms| ==> ms[i].content == ""
  {
    if ms != [] {
      TextBlobEmpty(ms[1..]);
      assert forall i :: 1 <= i < |ms| ==> ms[1..][i - 1] == ms[i];
    }
  }

  /** Every non-empty content appears in the blob followed by a newline. */
  lemma {:induction false} TextBlobHasLine(ms: seq<Message>, i: nat)
    requires i < |ms| && ms[i].content != ""
    ensures exists j :: OccursAt(TextBlob(ms), ms[i].content + "\n", j)
  {
    var line := ms[i].content + "\n";
    var head := Line(ms[0].content);
    assert TextBlob(ms) == head + TextBlob(ms[1..]);
    if i == 0 {
      OccursAtStart(line, TextBlob(ms[1..]));
    } else {
      assert ms[1..][i - 1] == ms[i];
      TextBlobHasLine(ms[1..], i - 1);
      var j :| OccursAt(TextBlob(ms[1..]), line, j);
      OccursInSuffix(head, TextBlob(ms[1..]), line, j);
    }
  }

  // ---------------------------------------------------------------------------
  // The parsers (`parse_anthropic_request`, `parse_openai_request`,
  // `parse_gemini_request`)
  // ---------------------------------------------------------------------------

  /** The `for msg in msgs` loop the three parsers share: append one converted
      message per item and, for a non-empty content, that content and a
      newline to the text blob. */
  method PushMessages(items: seq<Json>, convert: Json -> Message, messages: seq<Message>, allText: string)
    returns (messages': seq<Message>, allText': string)
    requires allText == TextBlob(messages)
    ensures messages' == messages + MapMessages(items, convert)
    ensures allText' == TextBlob(messages')
  {
    messages', allText' := messages, allText;
    var i := 0;
    while i < |items|
      invariant 0 <= i <= |items|
      invariant messages' == messages + MapMessages(items[..i], convert)
      invariant allText' == TextBlob(messages')
    {
      var msg := convert(items[i]);
      if msg.content != "" {
        allText' := allText' + msg.content + "\n";
      }
      MapMessagesSnoc(items, convert, i);
      TextBlobSnoc(messages', msg);
      messages' := messages' + [msg];
      i := i + 1;
    }
    assert items[..i] == items;
  }

  lemma MapMessagesSnoc(items: seq<Json>, convert: Json -> Message, i: nat)
    requires i < |items|
    ensures MapMessages(items[..i + 1], convert) == MapMessages(items[..i], convert) + [convert(items[i])]
  {
  }

  lemma TextBlobSnoc(ms: seq<Message>, m: Message)
    ensures TextBlob(ms + [m]) == TextBlob(ms) + Line(m.content)
  {
    TextBlobAppend(ms, [m]);
    assert [m][1..] == [];
    assert TextBlob([m]) == Line(m.content) + "";
  }

  /** The system message, if the member `key` extracts to non-empty text. */
  method PushSystem(body: Json, key: string) returns (messages: seq<Message>, allText: string)
    ensures messages == SystemMessages(body, key)
    ensures allText == TextBlob(messages)
  {
    messages, allText := [], "";
    var system := Get(body, key);
    if system.Some? {
      var systemText := ExtractText(system.value);
      if systemText != "" {
        messages := messages + [Message("system", systemText)];
        allText := allText + systemText + "\n";
      }
    }
  }

  method ParseAnthropic(body: Json) returns (model: string, messages: seq<Message>, allText: string)
    ensures model == StrOr(body, "model", "unknown")
    ensures messages == AnthropicMessages(body)
    ensures allText == TextBlob(messages)
  {
    model := StrOr(body, "model", "unknown");
    messages, allText := PushSystem(body, "system");
    messages, allText := PushMessages(Elements(body, "messages"), ChatMessage, messages, allText);
  }

  method ParseOpenAI(body: Json) returns (model: string, messages: seq<Message>, allText: string)
    ensures model == StrOr(body, "model", "unknown")
    ensures messages == OpenAIMessages(body)
    ensures allText == TextBlob(messages)
  {
    model := StrOr(body, "model", "unknown");
    messages, allText := PushMessages(Elements(body, "messages"), ChatMessage, [], "");
  }

  method ParseGemini(body: Json) returns (model: string, messages: seq<Message>, allText: string)
    ensures model == StrOr(body, "model", "gemini")
    ensures messages == GeminiMessages(body)
    ensures allText == TextBlob(messages)
  {
    model := StrOr(body, "model", "gemini");
    messages, allText := PushSystem(body, "systemInstruction");
    messages, allText := PushMessages(Elements(body, "contents"), GeminiMessage, messages, allText);
  }

  // ---------------------------------------------------------------------------
  // `parse_request`: dispatch on the vendor and build the event
  // ---------------------------------------------------------------------------

  predicate KnownVendor(provider: string) {
    provider == "anthropic" || provider == "openai" || provider == "gemini"
  }

  /** The model each path reports. */
  function NormalizedModel(provider: string, body: Json): string
  {
    StrOr(body, "model", if provider == "gemini" then "gemini" else "unknown")
  }

  /** The messages each path produces; the generic fallback produces none. */
  function NormalizedMessages(provider: string, body: Json): seq<Message>
  {
    if provider == "anthropic" then AnthropicMessages(body)
    else if provider == "openai" then OpenAIMessages(body)
    else if provider == "gemini" then GeminiMessages(body)
    else []
  }

  /** The text that is counted: the blob of the messages for a known vendor,
      the extraction of the whole body for any other. */
  function CountedText(provider: string, body: Json): string
  {
    if KnownVendor(provider) then TextBlob(NormalizedMessages(provider, body)) else ExtractText(body)
  }

  /** The event made of a decoded body. */
  function NormalizedEvent(body: Json, path: string, provider: string, now: Timestamp,
                           countTokens: string -> nat): RequestEvent
  {
    RequestEvent(now, provider, NormalizedModel(provider, body),
                 countTokens(CountedText(provider, body)), NormalizedMessages(provider, body), body, path)
  }

  /** `parse_request`. `decode` stands for `serde_json::from_slice` (`None`
      for bytes that are not JSON); `now` is the capture time. */
  method ParseRequest(bytes: seq<byte>, decode: seq<byte> -> Option<Json>, path: string, provider: string,
                      now: Timestamp, countTokens: string -> nat)
    returns (r: Option<RequestEvent>)
    ensures r.Some? <==> decode(bytes).Some?
    ensures r.Some? ==> r.value == NormalizedEvent(decode(bytes).value, path, provider, now, countTokens)
  {
    var decoded := decode(bytes);
    if decoded.None? {
      return None;
    }
    var body := decoded.value;
    var model, messages, text;
    if provider == "anthropic" {
      model, messages, text := ParseAnthropic(body);
    } else if provider == "openai" {
      model, messages, text := ParseOpenAI(body);
    } else if provider == "gemini" {
      model, messages, text := ParseGemini(body);
    } else {
      model := StrOr(body, "model", "unknown");
      messages := [];
      text := ExtractText(body);
    }
    var tokens := countTokens(text);
    return Some(RequestEvent(now, provider, model, tokens, messages, body, path));
  }

  // ---------------------------------------------------------------------------
  // Properties of the normalised shape
  // ---------------------------------------------------------------------------

  /** Anthropic: one more message than `messages` has exactly when `system`
      extracts to non-empty text, and then that message comes first with role
      "system"; the others follow in order. */
  lemma AnthropicShape(body: Json)
    ensures |SystemMessages(body, "system")| == 1 <==>
              Get(body, "system").Some? && ExtractText(Get(body, "system").value) != ""
    ensures |AnthropicMessages(body)| == |Elements(body, "messages")| + |SystemMessages(body, "system")|
    ensures SystemMessages(body, "system") != [] ==>
              AnthropicMessages(body)[0] == Message("system", ExtractText(Get(body, "system").value))
    ensures forall i :: 0 <= i < |Elements(body, "messages")| ==>
              AnthropicMessages(body)[|SystemMessages(body, "system")| + i] == ChatMessage(Elements(body, "messages")[i])
  {
    SystemPresent(body, "system");
    PrefixedShape(SystemMessages(body, "system"), MapMessages(Elements(body, "messages"), ChatMessage));
  }

  /** A system entry is synthesised exactly when the key is present and its
      text is non-empty, and it then carries that text. */
  lemma SystemPresent(body: Json, key: string)
    ensures |SystemMessages(body, key)| == 1 <==> Get(body, key).Some? && ExtractText(Get(body, key).value) != ""
    ensures SystemMessages(body, key) != [] ==>
              SystemMessages(body, key)[0] == Message("system", ExtractText(Get(body, key).value))
  {
  }

  /** OpenAI: exactly one message per element, none synthesised. */
  lemma OpenAIShape(body: Json)
    ensures |OpenAIMessages(body)| == |Elements(body, "messages")|
    ensures forall i :: 0 <= i < |Elements(body, "messages")| ==>
              OpenAIMessages(body)[i] == ChatMessage(Elements(body, "messages")[i])
  {
  }

  /** A missing role is "unknown" for Anthropic and OpenAI and "user" for
      Gemini; a missing model is "unknown", or "gemini" for Gemini. */
  lemma Defaults(msg: Json, body: Json, provider: string)
    requires AsStr(Get(msg, "role")).None? && AsStr(Get(body, "model")).None?
    ensures ChatMessage(msg).role == "unknown" && GeminiMessage(msg).role == "user"
    ensures NormalizedModel(provider, body) == (if provider == "gemini" then "gemini" else "unknown")
  {
  }

  /** The counted text of a known vendor is the system text (when present)
      and then the blob of the conversation messages. */
  lemma CountedTextWithSystem(provider: string, body: Json)
    requires provider == "anthropic" || provider == "gemini"
    ensures var key := if provider == "anthropic" then "system" else "systemInstruction";
            var sys := SystemMessages(body, key);
            CountedText(provider, body)
              == (if sys == [] then "" else sys[0].content + "\n")
                 + TextBlob(NormalizedMessages(provider, body)[|sys|..])
  {
    var key := if provider == "anthropic" then "system" else "systemInstruction";
    var sys := SystemMessages(body, key);
    var ms := NormalizedMessages(provider, body);
    assert ms == sys + ms[|sys|..];
    TextBlobAppend(sys, ms[|sys|..]);
    if sys != [] {
      assert sys[..0] == [];
    }
  }

  /** Generic fallback: no messages, model "unknown" unless given, and the
      whole body is counted. */
  lemma GenericFallback(provider: string, body: Json)
    requires !KnownVendor(provider)
    ensures NormalizedMessages(provider, body) == []
    ensures NormalizedModel(provider, body) == StrOr(body, "model", "unknown")
    ensures CountedText(provider, body) == ExtractText(body)
  {
  }

  /** An Anthropic body with a system prompt and one user turn normalises to
      the system message followed by the user message. */
  lemma AnthropicExample()
    ensures AnthropicMessages(Object([Field("model", Str("m")), Field("system", Str("S")),
              Field("messages", Array([Object([Field("role", Str("user")), Field("content", Str("U"))])]))]))
            == [Message("system", "S"), Message("user", "U")]
  {
    var user := Object([Field("role", Str("user")), Field("content", Str("U"))]);
    var body := Object([Field("model", Str("m")), Field("system", Str("S")), Field("messages", Array([user]))]);
    assert FindKey(body.fields[2..], "messages") == Some(0);
    assert FindKey(body.fields[1..], "messages") == Some(1);
    assert Get(body, "system") == Some(Str("S"));
    assert Elements(body, "messages") == [user];
    assert ChatMessage(user) == Message("user", "U");
  }

  /** A Gemini content with two text parts has content "a\nb". */
  lemma GeminiPartsExample()
    ensures GeminiMessage(Object([Field("role", Str("user")),
              Field("parts", Array([Object([Field("text", Str("a"))]), Object([Field("text", Str("b"))])]))]))
            == Message("user", "a\nb")
  {
    var parts := [Object([Field("text", Str("a"))]), Object([Field("text", Str("b"))])];
    assert PartTexts(parts[1..]) == ["b"];
    assert PartTexts(parts) == ["a", "b"];
  }

  /** The texts of two runs of parts are the texts of the first run followed
      by those of the second. */
  lemma {:induction false} PartTextsAppend(a: seq<Json>, b: seq<Json>)
    ensures PartTexts(a + b) == PartTexts(a) + PartTexts(b)
  {
    if a == [] {
      assert a + b == b;
    } else {
      assert (a + b)[0] == a[0] && (a + b)[1..] == a[1..] + b;
      PartTextsAppend(a[1..], b);
    }
  }

  /** A single part contributes its string `text`, or nothing. */
  lemma PartTextsSingle(part: Json)
    ensures PartTexts([part]) == PartText(part)
  {
    assert [part][1..] == [];
    assert PartTexts([part]) == PartText(part) + [];
  }

  /** The texts of any list of parts, split at part `i`: those before it, its
      own text if it has one (nothing otherwise), and those after it. So
      a part without a string `text` is skipped wherever it stands, and the
      others keep their order. */
  lemma PartTextsAround(parts: seq<Json>, i: nat)
    requires i < |parts|
    ensures PartTexts(parts) == PartTexts(parts[..i]) + PartText(parts[i]) + PartTexts(parts[i + 1..])
  {
    var before, after := parts[..i], parts[i + 1..];
    SplitAround(parts, i);
    PartTextsAppend(before, [parts[i]] + after);
    PartTextsAppend([parts[i]], after);
    PartTextsSingle(parts[i]);
  }

  /** A mixed list: a part without `text` between two text parts is dropped. */
  lemma PartTextsMixedExample()
    ensures PartTexts([Object([Field("text", Str("a"))]), Object([Field("x", Null)]),
                       Object([Field("text", Str("b"))])]) == ["a", "b"]
  {
    var parts := [Object([Field("text", Str("a"))]), Object([Field("x", Null)]), Object([Field("text", Str("b"))])];
    assert PartTexts(parts[2..]) == ["b"];
    assert PartTexts(parts[1..]) == ["b"];
  }

  /** Parts without a string `text` contribute nothing, and the others keep
      their order. */
  lemma {:induction false} PartTextsFilter(parts: seq<Json>)
    ensures |PartTexts(parts)| <= |parts|
    ensures (forall i :: 0 <= i < |parts| ==> AsStr(Get(parts[i], "text")).None?) ==> PartTexts(parts) == []
    ensures (forall i :: 0 <= i < |parts| ==> AsStr(Get(parts[i], "text")).Some?) ==>
              |PartTexts(parts)| == |parts| &&
              forall i :: 0 <= i < |parts| ==> PartTexts(parts)[i] == AsStr(Get(parts[i], "text")).value
  {
    if parts != [] {
      PartTextsFilter(parts[1..]);
      if forall i :: 0 <= i < |parts| ==> AsStr(Get(parts[i], "text")).None? {
        assert forall i :: 0 <= i < |parts[1..]| ==> parts[1..][i] == parts[i + 1];
      }
      if forall i :: 0 <= i < |parts| ==> AsStr(Get(parts[i], "text")).Some? {
        assert forall i :: 0 <= i < |parts[1..]| ==> parts[1..][i] == parts[i + 1];
      }
    }
  }

  // ---------------------------------------------------------------------------
  // `detect_provider`
  // ---------------------------------------------------------------------------

  /** Scans the providers in an unspecified order (the source iterates a hash
      map) and returns the first whose pattern is a substring of `path`. */
  method DetectProvider(path: string, providers: map<string, ProviderConfig>) returns (r: Option<string>)
    ensures r.Some? ==> r.value in providers && Contains(path, providers[r.value].pathPattern)
    ensures r.None? <==> forall name :: name in providers ==> !Contains(path, providers[name].pathPattern)
  {
    var remaining := providers.Keys;
    while remaining != {}
      invariant remaining <= providers.Keys
      invariant forall name :: name in providers && name !in remaining ==> !Contains(path, providers[name].pathPattern)
      decreases remaining
    {
      var name :| name in remaining;
      if Contains(path, providers[name].pathPattern) {
        return Some(name);
      }
      remaining := remaining - {name};
    }
    return None;
  }

  /** A pattern longer than the path cannot occur in it. */
  lemma {:induction false} NotContainsLonger(s: string, pat: string)
    requires |pat| > |s|
    ensures !Contains(s, pat)
    decreases |s|
  {
    if |s| > 0 {
      NotContainsLonger(s[1..], pat);
    }
  }

  /** No window of `s` starts with the first character of `pat`. */
  lemma NotContainsFirstChar(s: string, pat: string)
    requires |pat| > 0
    requires forall i :: 0 <= i <= |s| - |pat| ==> s[i] != pat[0]
    ensures !Contains(s, pat)
  {
    forall i | OccursAt(s, pat, i) ensures s[i] == pat[0] {
      assert s[i..i + |pat|][0] == s[i];
    }
    ContainsIffOccurs(s, pat);
  }

  /** With the default providers, "/v1/messages?x=1" is routed to anthropic
      and to no other vendor. */
  lemma DefaultRoutingExample(path: string)
    requires path == "/v1/messages?x=1"
    ensures Contains(path, DefaultProviders()["anthropic"].pathPattern)
    ensures !Contains(path, DefaultProviders()["openai"].pathPattern)
    ensures !Contains(path, DefaultProviders()["gemini"].pathPattern)
  {
    assert Contains(path, "/v1/messages") by {
      OccursAtStart("/v1/messages", "?x=1");
      assert path == "/v1/messages" + "?x=1";
      OccursImpliesContains(path, "/v1/messages", 0);
    }
    assert !Contains(path, "/v1/chat/completions") by {
      NotContainsLonger(path, "/v1/chat/completions");
    }
    assert !Contains(path, "generateContent") by {
      NotContainsFirstChar(path, "generateContent");
    }
    DefaultConfigConstants();
  }
}

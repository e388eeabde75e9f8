/**
 * The JSON control protocol spoken over the data channel: the greeting sent
 * when the channel opens, and the classification of each inbound message
 * into one status-log entry.
 */
module ControlProtocol {
  import opened Js
  import opened StatusLog

  // ---------------------------------------------------------------------------
  // Outbound: JSON text as JSON.stringify writes it (no indentation)
  // ---------------------------------------------------------------------------

  datatype Json =
    | JString(s: string)
    | JArray(items: seq<Json>)
    | JObject(members: seq<Member>)

  datatype Member = Member(key: string, value: Json)

  const HexDigits := "0123456789abcdef"

  /** The escape JSON.stringify writes for one character of a string. */
  function EscapeChar(c: char): (r: string)
    ensures |r| >= 1
    ensures !NeedsEscape(c) <==> r == [c]
  {
    if !NeedsEscape(c) then [c] else EscapeSpecial(c)
  }

  /** The escape sequence for a quote, a backslash or a control character. */
  function EscapeSpecial(c: char): (r: string)
    requires NeedsEscape(c)
    ensures |r| >= 2 && r[0] == '\\'
  {
    if c == '"' then "\\\""
    else if c == '\\' then "\\\\"
    else if c == '\n' then "\\n"
    else if c == '\r' then "\\r"
    else if c == '\t' then "\\t"
    else if c as int == 8 then "\\b"
    else if c as int == 12 then "\\f"
    else "\\u00" + [HexDigits[c as int / 16], HexDigits[c as int % 16]]
  }

  /** Characters that JSON.stringify does not copy through unchanged. */
  predicate NeedsEscape(c: char) {
    c == '"' || c == '\\' || (c as int) < 32
  }

  /**
   * The characters of `s`, each replaced by its escape; a string with
   * nothing to escape is written as it is.
   */
  function Escape(s: string): (r: string)
    ensures Plain(s) ==> r == s
  {
    PlainEscapesJoin(s);
    Concat(seq(|s|, i requires 0 <= i < |s| => EscapeChar(s[i])))
  }

  function Concat(parts: seq<string>): string
  {
    if parts == [] then [] else parts[0] + Concat(parts[1..])
  }

  function Quote(s: string): string {
    "\"" + Escape(s) + "\""
  }

  /**
   * JSON text for `j`, as JSON.stringify writes it without indentation: a
   * string is quoted, an array bracketed and an object braced.
   */
  function Stringify(j: Json): (r: string)
    ensures |r| >= 2
    ensures j.JString? ==> r[0] == '"' && r[|r| - 1] == '"'
    ensures j.JArray? ==> r[0] == '[' && r[|r| - 1] == ']'
    ensures j.JObject? ==> r[0] == '{' && r[|r| - 1] == '}'
    decreases j, 2
  {
    match j
    case JString(s) => Quote(s)
    case JArray(items) => "[" + StringifyItems(j, items) + "]"
    case JObject(members) => "{" + StringifyMembers(j, members) + "}"
  }

  /** The comma-separated items of the array `parent`. */
  function StringifyItems(parent: Json, items: seq<Json>): string
    requires parent.JArray? && forall k :: 0 <= k < |items| ==> items[k] in parent.items
    decreases parent, 1, |items|
  {
    if items == [] then ""
    else if |items| == 1 then Stringify(items[0])
    else Stringify(items[0]) + "," + StringifyItems(parent, items[1..])
  }

  /** The comma-separated `"key":value` members of the object `parent`. */
  function StringifyMembers(parent: Json, members: seq<Member>): string
    requires parent.JObject? && forall k :: 0 <= k < |members| ==> members[k] in parent.members
    decreases parent, 1, |members|
  {
    if members == [] then ""
    else
      var m := members[0];
      var text := Quote(m.key) + ":" + Stringify(m.value);
      if |members| == 1 then text else text + "," + StringifyMembers(parent, members[1..])
  }

  /** No character of `s` needs escaping. */
  predicate Plain(s: string)
  {
    forall k :: 0 <= k < |s| ==> !NeedsEscape(s[k])
  }

  /** Joining the one-character strings of `s` gives `s` back. */
  lemma {:induction false} ConcatSingletons(s: string)
    ensures Concat(seq(|s|, i requires 0 <= i < |s| => [s[i]])) == s
  {
    if s != [] {
      var parts := seq(|s|, i requires 0 <= i < |s| => [s[i]]);
      assert parts[1..] == seq(|s[1..]|, i requires 0 <= i < |s[1..]| => [s[1..][i]]);
      ConcatSingletons(s[1..]);
      assert s == [s[0]] + s[1..];
    }
  }

  /** Joining the escapes of a string with nothing to escape gives it back. */
  lemma PlainEscapesJoin(s: string)
    ensures Plain(s) ==> Concat(seq(|s|, i requires 0 <= i < |s| => EscapeChar(s[i]))) == s
  {
    if Plain(s) {
      assert seq(|s|, i requires 0 <= i < |s| => EscapeChar(s[i]))
          == seq(|s|, i requires 0 <= i < |s| => [s[i]]);
      ConcatSingletons(s);
    }
  }

  const TypeKey := "type"
  const ResponseKey := "response"
  const ModalitiesKey := "modalities"
  const InstructionsKey := "instructions"
  const ResponseCreate := "response.create"
  const TextModality := "text"
  const AudioModality := "audio"
  const GreetingInstructions := "Hello! Please introduce yourself."

  /** The greeting sent when the data channel opens. */
  function Greeting(): Json {
    JObject([
      Member(TypeKey, JString(ResponseCreate)),
      Member(ResponseKey, JObject([
        Member(ModalitiesKey, JArray([JString(TextModality), JString(AudioModality)])),
        Member(InstructionsKey, JString(GreetingInstructions))
      ]))
    ])
  }

  /**
   * The greeting exactly as it goes over the wire, spelled out around its words:
   * {"type":"response.create","response":{"modalities":["text","audio"],"instructions":"Hello! Please introduce yourself."}}
   */
  const GreetingWire :=
    "{\"" + TypeKey + "\":" + ("\"" + ResponseCreate + "\"")
    + ",\"" + ResponseKey + "\":"
    + ("{\"" + ModalitiesKey + "\":" + ("[\"" + TextModality + "\",\"" + AudioModality + "\"]")
       + ",\"" + InstructionsKey + "\":" + ("\"" + GreetingInstructions + "\"") + "}")
    + "}"

  function GreetingText(): string {
    Stringify(Greeting())
  }

  /** Quoting a string that has nothing to escape. */
  lemma QuotePlain(s: string)
    requires Plain(s)
    ensures Quote(s) == "\"" + s + "\""
  {
  }

  /** None of the greeting's words needs escaping. */
  lemma PlainWords()
    ensures Plain(TypeKey) && Plain(ResponseKey) && Plain(ModalitiesKey) && Plain(InstructionsKey)
    ensures Plain(ResponseCreate) && Plain(TextModality) && Plain(AudioModality)
    ensures Plain(GreetingInstructions)
  {
  }

  /** Two plain strings in an array, written out. */
  lemma ArrayOfTwo(x: string, y: string)
    requires Plain(x) && Plain(y)
    ensures "[" + (Quote(x) + "," + Quote(y)) + "]" == "[\"" + x + "\",\"" + y + "\"]"
  {
    QuotePlain(x);
    QuotePlain(y);
  }

  /** Two members with plain keys and serialised values `u` and `v`, in an object, written out. */
  lemma ObjectOfTwo(k1: string, u: string, k2: string, v: string)
    requires Plain(k1) && Plain(k2)
    ensures "{" + ((Quote(k1) + ":" + u) + "," + (Quote(k2) + ":" + v)) + "}"
         == "{\"" + k1 + "\":" + u + ",\"" + k2 + "\":" + v + "}"
  {
    QuotePlain(k1);
    QuotePlain(k2);
  }

  /** The `modalities` array of the greeting. */
  lemma ModalitiesText(modalities: Json)
    requires modalities == JArray([JString(TextModality), JString(AudioModality)])
    ensures Stringify(modalities) == "[\"" + TextModality + "\",\"" + AudioModality + "\"]"
  {
    PlainWords();
    var items := modalities.items;
    assert StringifyItems(modalities, items[1..]) == Quote(AudioModality);
    assert StringifyItems(modalities, items) == Quote(TextModality) + "," + Quote(AudioModality);
    ArrayOfTwo(TextModality, AudioModality);
  }

  /** The `response` object of the greeting, for any instructions text with nothing to escape. */
  lemma ResponseText(response: Json, instructions: string)
    requires response == JObject([
               Member(ModalitiesKey, JArray([JString(TextModality), JString(AudioModality)])),
               Member(InstructionsKey, JString(instructions))])
    requires Plain(instructions)
    ensures Stringify(response) ==
      "{\"" + ModalitiesKey + "\":" + ("[\"" + TextModality + "\",\"" + AudioModality + "\"]")
      + ",\"" + InstructionsKey + "\":" + ("\"" + instructions + "\"") + "}"
  {
    PlainWords();
    QuotePlain(instructions);
    var members := response.members;
    var modalities := Stringify(members[0].value);
    ModalitiesText(members[0].value);
    var second := Quote(InstructionsKey) + ":" + Quote(instructions);
    assert StringifyMembers(response, members[1..]) == second;
    var inner := StringifyMembers(response, members);
    assert inner == (Quote(ModalitiesKey) + ":" + modalities) + "," + second;
    assert Stringify(response) == "{" + inner + "}";
    ObjectOfTwo(ModalitiesKey, modalities, InstructionsKey, Quote(instructions));
  }

  /** The serialised greeting is exactly the expected protocol text. */
  lemma GreetingTextIsWire()
    ensures GreetingText() == GreetingWire
  {
    PlainWords();
    var g := Greeting();
    var members := g.members;
    var response := Stringify(members[1].value);
    ResponseText(members[1].value, GreetingInstructions);
    var first := Quote(TypeKey) + ":" + Quote(ResponseCreate);
    assert StringifyMembers(g, members[1..]) == Quote(ResponseKey) + ":" + response;
    assert StringifyMembers(g, members) == first + "," + (Quote(ResponseKey) + ":" + response);
    QuotePlain(ResponseCreate);
    ObjectOfTwo(TypeKey, Quote(ResponseCreate), ResponseKey, response);
  }

  // ---------------------------------------------------------------------------
  // Inbound: one log entry per message
  // ---------------------------------------------------------------------------

  /** The payload of one inbound text frame after JSON.parse: a value, or the parser's error message. */
  datatype Parsed = Malformed(reason: string) | Parsed(data: JsValue)

  /** `data.type` of a parsed frame, or the error it throws. */
  function TypeOf(p: Parsed): (r: Outcome<JsValue>)
    ensures r.Fail? <==> p.Malformed? || p.data.IsNullish()
  {
    match p
    case Malformed(reason) => Fail(reason)
    case Parsed(data) => Get(data, "type")
  }

  /** The prefix of the entry logged when handling a frame throws. */
  const PARSE_FAILED := "Error parsing message: "

  /** The detail logged for an `error` frame without a truthy message. */
  const UNKNOWN_ERROR := "Unknown error"

  /**
   * The text of an `error` message: its nested `error.message` when truthy,
   * which throws when it cannot be turned into a string.
   */
  function ErrorDetail(data: JsValue): (r: Outcome<string>)
    requires !data.IsNullish()
    ensures var detail := OptionalGet(Prop(data, "error"), "message");
            && (r.Fail? <==> Truthy(detail) && !Printable(detail))
            && (!Truthy(detail) ==> r == Ok(UNKNOWN_ERROR))
            && (detail.Str? && detail.s != "" ==> r == Ok(detail.s))
  {
    var detail := OptionalGet(Prop(data, "error"), "message");
    if Truthy(detail) then Render(detail) else Ok(UNKNOWN_ERROR)
  }

  /** The entry `prefix` followed by `text`, or the catch's entry when building `text` threw. */
  function Logged(text: Outcome<string>, prefix: string, level: Level): Entry {
    match text
    case Fail(reason) => Entry(PARSE_FAILED + reason, Error)
    case Ok(t) => Entry(prefix + t, level)
  }

  /**
   * The log entry for one inbound frame. The level is success exactly for
   * the `audio.created` type and for the `text.created` type with a printable
   * text; info exactly for any other printable type; error for everything
   * else: a frame that fails to parse or whose `type` cannot be read, the
   * `error` type, and a field that cannot be turned into a string.
   */
  function Classify(p: Parsed): (r: Entry)
    ensures r.level == Success <==>
              (TypeOf(p) == Ok(Str("text.created")) && Printable(Prop(p.data, "text")))
              || TypeOf(p) == Ok(Str("audio.created"))
    ensures r.level == Info <==>
              TypeOf(p).Ok? && TypeOf(p).value !in {Str("text.created"), Str("error"), Str("audio.created")}
              && Printable(TypeOf(p).value)
    ensures r.level == Error <==>
              TypeOf(p).Fail? || TypeOf(p) == Ok(Str("error"))
              || (TypeOf(p) == Ok(Str("text.created")) && !Printable(Prop(p.data, "text")))
              || (TypeOf(p).Ok? && TypeOf(p).value !in {Str("text.created"), Str("error"), Str("audio.created")}
                  && !Printable(TypeOf(p).value))
  {
    match TypeOf(p)
    case Fail(reason) => Entry(PARSE_FAILED + reason, Error)
    case Ok(t) =>
      if t == Str("text.created") then Logged(Render(Prop(p.data, "text")), "AI: ", Success)
      else if t == Str("error") then Logged(ErrorDetail(p.data), "Error: ", Error)
      else if t == Str("audio.created") then Entry("Received audio response", Success)
      else Logged(Render(t), "Received event: ", Info)
  }

  /** An AI text message is logged as the text it carries, prefixed with "AI: ". */
  lemma ClassifyText(data: JsValue, text: string)
    requires data.Obj? && data.props.Keys >= {"type", "text"}
    requires data.props["type"] == Str("text.created") && data.props["text"] == Str(text)
    ensures Classify(Parsed(data)) == Entry("AI: " + text, Success)
  {
  }

  /** An AI audio message is logged with a fixed text, whatever else it carries. */
  lemma ClassifyAudio(data: JsValue)
    requires data.Obj? && "type" in data.props && data.props["type"] == Str("audio.created")
    ensures Classify(Parsed(data)) == Entry("Received audio response", Success)
  {
  }

  /** An error message whose nested `error.message` is a non-empty string is logged with that string. */
  lemma ClassifyErrorMessage(data: JsValue, message: string)
    requires data.Obj? && data.props.Keys >= {"type", "error"} && data.props["type"] == Str("error")
    requires data.props["error"].Obj? && "message" in data.props["error"].props
    requires data.props["error"].props["message"] == Str(message) && message != ""
    ensures Classify(Parsed(data)) == Entry("Error: " + message, Error)
  {
  }

  /**
   * An error message is logged as `Unknown error` when its nested error is
   * missing or not an object, or carries no truthy `message`.
   */
  lemma ClassifyErrorUnknown(data: JsValue)
    requires data.Obj? && "type" in data.props && data.props["type"] == Str("error")
    requires var e := if "error" in data.props then data.props["error"] else Undefined;
             !(e.Obj? && "message" in e.props && Truthy(e.props["message"]))
    ensures Classify(Parsed(data)) == Entry("Error: " + UNKNOWN_ERROR, Error)
  {
  }

  /**
   * A field the handler prints that is an object with its own `toString`
   * makes the template throw; the catch logs the conversion error, at error
   * level, whichever case it happened in.
   */
  lemma ClassifyUnprintable(data: JsValue, o: JsValue)
    requires data.Obj? && "type" in data.props
    requires o.Obj? && "toString" in o.props
    ensures data.props["type"] == Str("text.created") && "text" in data.props && data.props["text"] == o
            ==> Classify(Parsed(data)) == Entry(PARSE_FAILED + CONVERSION_FAILED, Error)
    ensures data.props["type"] == o
            ==> Classify(Parsed(data)) == Entry(PARSE_FAILED + CONVERSION_FAILED, Error)
    ensures data.props["type"] == Str("error") && "error" in data.props && data.props["error"].Obj?
            && "message" in data.props["error"].props && data.props["error"].props["message"] == o
            ==> Classify(Parsed(data)) == Entry(PARSE_FAILED + CONVERSION_FAILED, Error)
  {
  }

  /** Any type other than the three known ones is logged as an informational event naming it. */
  lemma ClassifyOther(data: JsValue, t: string)
    requires data.Obj? && "type" in data.props && data.props["type"] == Str(t)
    requires t !in {"text.created", "error", "audio.created"}
    ensures Classify(Parsed(data)) == Entry("Received event: " + t, Info)
  {
  }

  /** A frame that does not parse is logged once, at error level, with the parser's message. */
  lemma ClassifyMalformed(reason: string)
    ensures Classify(Malformed(reason)) == Entry(PARSE_FAILED + reason, Error)
  {
  }
}

/** What an Anthropic upstream sends, written down by its own keys, and what the decoder makes of it. */
module AnthropicWire {
  import opened Sequences
  import opened Config
  import opened Json
  import opened Lines
  import opened Events
  import opened RelayProofs
  import Decoder = AnthropicStream

  /** One message of the upstream. Fields it may have besides the ones that matter are in extra, at the top of the
      payload, and inner, one level below. */
  datatype Message =
    | MessageStart(usage: Object, extra: Object, inner: Object)
    | ToolUseBlock(id: string, name: string, extra: Object, inner: Object)
    | OtherBlock(blockType: string, extra: Object, inner: Object)
    | TextPiece(text: string, extra: Object, inner: Object)
    | ArgumentsPiece(json: string, extra: Object, inner: Object)
    | OtherPiece(extra: Object, inner: Object)
    | MessageDelta(stopReason: string, usage: Object, extra: Object, inner: Object)
    | MessageEnd(extra: Object)
    | Notice(name: string, extra: Object)

  /** Blocks of other types are not tool uses, argument pieces are not empty, a piece is a piece of text only if it
      has no arguments, a piece of neither has neither, and notices have names of their own. */
  predicate Sound(m: Message) {
    match m
    case OtherBlock(blockType, _, inner) => blockType != "tool_use" && TextOrMissing(inner, "id") && TextOrMissing(inner, "name")
    case TextPiece(_, _, inner) => TextOrMissing(inner, "partial_json") && StringAt(inner, "partial_json") == ""
    case ArgumentsPiece(json, _, inner) => json != "" && TextOrMissing(inner, "text")
    case OtherPiece(_, inner) =>
      Missing(inner, "text") && TextOrMissing(inner, "partial_json") && StringAt(inner, "partial_json") == ""
    case Notice(name, _) =>
      && name != "" && !IsSpace(name[0]) && !IsSpace(name[|name| - 1]) && '\n' !in name
      && name !in {"message_start", "content_block_start", "content_block_delta", "message_delta", "message_stop"}
    case _ => true
  }

  predicate AllSound(messages: seq<Message>) {
    forall m :: m in messages ==> Sound(m)
  }

  function EventName(m: Message): string {
    match m
    case MessageStart(_, _, _) => "message_start"
    case ToolUseBlock(_, _, _, _) => "content_block_start"
    case OtherBlock(_, _, _) => "content_block_start"
    case TextPiece(_, _, _) => "content_block_delta"
    case ArgumentsPiece(_, _, _) => "content_block_delta"
    case OtherPiece(_, _) => "content_block_delta"
    case MessageDelta(_, _, _, _) => "message_delta"
    case MessageEnd(_) => "message_stop"
    case Notice(name, _) => name
  }

  function Payload(m: Message): Object {
    match m
    case MessageStart(usage, extra, inner) => extra["message" := Obj(inner["usage" := Obj(usage)])]
    case ToolUseBlock(id, name, extra, inner) =>
      extra["content_block" := Obj(inner["type" := Str("tool_use")]["id" := Str(id)]["name" := Str(name)])]
    case OtherBlock(blockType, extra, inner) =>
      extra["content_block" := Obj(inner["type" := Str(blockType)])]
    case TextPiece(text, extra, inner) => extra["delta" := Obj(inner["text" := Str(text)])]
    case ArgumentsPiece(json, extra, inner) => extra["delta" := Obj(inner["partial_json" := Str(json)])]
    case OtherPiece(extra, inner) => extra["delta" := Obj(inner)]
    case MessageDelta(stopReason, usage, extra, inner) =>
      extra["delta" := Obj(inner["stop_reason" := Str(stopReason)])]["usage" := Obj(usage)]
    case MessageEnd(extra) => extra
    case Notice(_, extra) => extra
  }

  function SentMessage(codec: Codec, m: Message): seq<string> {
    ["event: " + EventName(m)] + ["data: " + codec.marshal(Obj(Payload(m)))] + [""]
  }

  function SentLines(codec: Codec, messages: seq<Message>): seq<string> {
    if messages == [] then []
    else SentLines(codec, messages[..|messages| - 1]) + SentMessage(codec, messages[|messages| - 1])
  }

  // What the decoder should make of it

  /** Id and name of the latest tool use. */
  function LatestTool(messages: seq<Message>): (string, string) {
    if messages == [] then ("", "")
    else
      match messages[|messages| - 1]
      case ToolUseBlock(id, name, _, _) => (id, name)
      case _ => LatestTool(messages[..|messages| - 1])
  }

  /** The latest stop reason since the last end of a message. */
  function LatestReason(messages: seq<Message>): string {
    if messages == [] then ""
    else
      var earlier := LatestReason(messages[..|messages| - 1]);
      match messages[|messages| - 1]
      case MessageEnd(_) => ""
      case MessageDelta(reason, _, _, _) => if reason == "" then earlier else reason
      case _ => earlier
  }

  function ExpectedText(kind: EndpointKind, text: string): Event {
    Event(ContentDelta,
          if kind == Responses then map["type" := Str("response.output_text.delta"), "delta" := Str(text)]
          else map["object" := Str("chat.completion.chunk"), "text" := Str(text)])
  }

  function ExpectedOf(kind: EndpointKind, before: seq<Message>, m: Message): seq<Event> {
    match m
    case MessageStart(usage, _, _) => UsageAt(Some(Obj(usage)))
    case ToolUseBlock(id, name, _, _) => [Event(ToolCallStart, map["id" := Str(id), "name" := Str(name)])]
    case OtherBlock(_, _, _) => []
    case TextPiece(text, _, _) => [ExpectedText(kind, text)]
    case OtherPiece(_, _) => [ExpectedText(kind, "")]
    case ArgumentsPiece(json, _, _) =>
      var (id, name) := LatestTool(before);
      [Event(ToolCallDelta, map["id" := Str(id), "name" := Str(name), "arguments" := Str(json)])]
    case MessageDelta(_, usage, _, _) => UsageAt(Some(Obj(usage)))
    case MessageEnd(_) =>
      (if LatestReason(before) == "" then []
       else [Event(MessageStop, map["stop_reason" := Str(LatestReason(before))])])
      + [Event(MessageStop, map[])]
    case Notice(_, _) => []
  }

  function Expected(kind: EndpointKind, messages: seq<Message>): seq<Event> {
    if messages == [] then []
    else
      var before := messages[..|messages| - 1];
      Expected(kind, before) + ExpectedOf(kind, before, messages[|messages| - 1])
  }

  // Each message is understood

  /** What the decoder should understand a message to say. */
  function Meaning(m: Message): Decoder.Signal {
    match m
    case MessageStart(usage, _, _) => Decoder.Usage(usage)
    case ToolUseBlock(id, name, _, _) => Decoder.ToolUse(Decoder.Tool(id, name))
    case OtherBlock(_, _, _) => Decoder.Nothing
    case TextPiece(text, _, _) => Decoder.Text(text)
    case ArgumentsPiece(json, _, _) => Decoder.Arguments(json)
    case OtherPiece(_, _) => Decoder.Text("")
    case MessageDelta(reason, usage, _, _) => Decoder.Closing(reason, usage)
    case MessageEnd(_) => Decoder.Stop
    case Notice(_, _) => Decoder.Nothing
  }

  lemma EventNameIsClean(m: Message)
    requires Sound(m)
    ensures var name := EventName(m); name != "" && !IsSpace(name[|name| - 1]) && '\n' !in name
  {
  }

  lemma NameLine(codec: Codec, event: string, m: Message)
    requires Sound(m)
    ensures Decoder.Interpret(codec, event, "event: " + EventName(m)) == Decoder.Name(EventName(m))
  {
    EventNameIsClean(m);
    var line := "event: " + EventName(m);
    assert line[0] == 'e' && line[|line| - 1] == EventName(m)[|EventName(m)| - 1];
    NothingToTrim(line);
  }

  lemma EmptyLine(codec: Codec, event: string)
    ensures Decoder.Interpret(codec, event, "") == Decoder.Nothing
  {
    assert TrimSpace("") == "";
  }

  lemma DataLineSays(codec: Codec, event: string, o: Object)
    requires Lawful(codec)
    ensures Decoder.Interpret(codec, event, "data: " + codec.marshal(Obj(o)))
         == if event == "message_stop" then Decoder.Stop
            else if Decoder.HasPayload(event) then Decoder.ReadPayload(event, o)
            else Decoder.Nothing
  {
    ReadDataFrame(codec, o);
    var line := DataLine(codec.marshal(Obj(o)));
    assert line[0] == 'd';
  }

  // What any payload of the right types means

  /** The fields that are read have the types they should have, at both levels. */
  predicate WellTyped(event: string, o: Object) {
    && (event == "message_start" ==>
          ObjectOrMissing(o, "message") && (Missing(o, "message") || ObjectOrMissing(o["message"].fields, "usage")))
    && (event == "content_block_start" ==>
          && ObjectOrMissing(o, "content_block")
          && (Missing(o, "content_block") ||
              var block := o["content_block"].fields;
              TextOrMissing(block, "type") && TextOrMissing(block, "id") && TextOrMissing(block, "name")))
    && (event == "content_block_delta" ==>
          && ObjectOrMissing(o, "delta")
          && (Missing(o, "delta") ||
              var delta := o["delta"].fields; TextOrMissing(delta, "text") && TextOrMissing(delta, "partial_json")))
    && (event == "message_delta" ==>
          && ObjectOrMissing(o, "delta") && ObjectOrMissing(o, "usage")
          && (Missing(o, "delta") || TextOrMissing(o["delta"].fields, "stop_reason")))
  }

  function ObjectOf(j: Option<Json>): Object {
    match j
    case Some(Obj(o)) => o
    case _ => map[]
  }

  /** What a payload says, read off its paths. */
  function Said(event: string, o: Object): Decoder.Signal {
    var root := Some(Obj(o));
    var block, delta := Field(root, "content_block"), Field(root, "delta");
    if event == "message_start" then Decoder.Usage(ObjectOf(Field(Field(root, "message"), "usage")))
    else if event == "content_block_start" then
      if TextOf(Field(block, "type")) == "tool_use"
      then Decoder.ToolUse(Decoder.Tool(TextOf(Field(block, "id")), TextOf(Field(block, "name"))))
      else Decoder.Nothing
    else if event == "content_block_delta" then
      if TextOf(Field(delta, "partial_json")) != "" then Decoder.Arguments(TextOf(Field(delta, "partial_json")))
      else Decoder.Text(TextOf(Field(delta, "text")))
    else if event == "message_delta" then
      Decoder.Closing(TextOf(Field(delta, "stop_reason")), ObjectOf(Field(root, "usage")))
    else Decoder.Nothing
  }

  lemma StartSays(o: Object)
    ensures Decoder.ReadStart(o) == if WellTyped("message_start", o) then Said("message_start", o) else Decoder.Malformed
  {
  }

  lemma BlockSays(o: Object)
    ensures Decoder.ReadBlock(o) == if WellTyped("content_block_start", o) then Said("content_block_start", o) else Decoder.Malformed
  {
  }

  lemma DeltaSays(o: Object)
    ensures Decoder.ReadDelta(o) == if WellTyped("content_block_delta", o) then Said("content_block_delta", o) else Decoder.Malformed
  {
  }

  lemma ClosingSays(o: Object)
    ensures Decoder.ReadClosing(o) == if WellTyped("message_delta", o) then Said("message_delta", o) else Decoder.Malformed
  {
  }

  /** Any payload is read off its paths, or malformed if a type is wrong. */
  lemma AnyPayloadMeans(event: string, o: Object)
    ensures Decoder.ReadPayload(event, o) == if WellTyped(event, o) then Said(event, o) else Decoder.Malformed
  {
    StartSays(o);
    BlockSays(o);
    DeltaSays(o);
    ClosingSays(o);
  }

  lemma PayloadMeans(m: Message)
    requires Sound(m) && Decoder.HasPayload(EventName(m))
    ensures Decoder.ReadPayload(EventName(m), Payload(m)) == Meaning(m)
  {
    var o := Payload(m);
    AnyPayloadMeans(EventName(m), o);
    match m
    case MessageStart(usage, extra, inner) =>
      assert Field(Field(Some(Obj(o)), "message"), "usage") == Some(Obj(usage));
    case ToolUseBlock(id, name, extra, inner) =>
      var block := Field(Some(Obj(o)), "content_block");
      assert Field(block, "type") == Some(Str("tool_use")) && Field(block, "id") == Some(Str(id)) && Field(block, "name") == Some(Str(name));
    case OtherBlock(blockType, extra, inner) =>
      assert Field(Field(Some(Obj(o)), "content_block"), "type") == Some(Str(blockType));
    case TextPiece(text, extra, inner) =>
      var delta := Field(Some(Obj(o)), "delta");
      assert Field(delta, "text") == Some(Str(text)) && TextOf(Field(delta, "partial_json")) == "";
    case ArgumentsPiece(json, extra, inner) =>
      assert Field(Field(Some(Obj(o)), "delta"), "partial_json") == Some(Str(json));
    case OtherPiece(extra, inner) =>
      var delta := Field(Some(Obj(o)), "delta");
      assert TextOf(Field(delta, "text")) == "" && TextOf(Field(delta, "partial_json")) == "";
    case MessageDelta(reason, usage, extra, inner) =>
      assert Field(Field(Some(Obj(o)), "delta"), "stop_reason") == Some(Str(reason));
      assert Field(Some(Obj(o)), "usage") == Some(Obj(usage));
  }

  lemma DataLineMeans(codec: Codec, m: Message)
    requires Lawful(codec) && Sound(m)
    ensures Decoder.Interpret(codec, EventName(m), "data: " + codec.marshal(Obj(Payload(m)))) == Meaning(m)
  {
    DataLineSays(codec, EventName(m), Payload(m));
    if Decoder.HasPayload(EventName(m)) {
      PayloadMeans(m);
    } else {
      assert m.MessageEnd? || m.Notice?;
    }
  }

  // What is malformed

  /** A line breaks the stream exactly if it is the data of one of the four events that are read and is not an object
      whose fields have the types they should have. */
  lemma MalformedIff(codec: Codec, event: string, line: string)
    ensures var text := TrimSpace(line);
            Decoder.Interpret(codec, event, line).Malformed? <==>
              && "data: " <= text
              && event in {"message_start", "content_block_start", "content_block_delta", "message_delta"}
              && match codec.unmarshal(WithoutPrefix(text, "data: "))
                 case Some(Obj(o)) => !WellTyped(event, o)
                 case Some(Null) => false
                 case _ => true
  {
    var text := TrimSpace(line);
    if "data: " <= text {
      assert !("event: " <= text) by {
        assert text[0] == 'd';
      }
      var parsed := UnmarshalMap(codec, WithoutPrefix(text, "data: "));
      if parsed.Some? {
        AnyPayloadMeans(event, parsed.value);
      }
    }
  }

  // The whole stream

  lemma OneLine(codec: Codec, kind: EndpointKind, d: Decoder.Decoder, line: string)
    ensures Decoder.Decode(codec, kind, d, [line]) == Decoder.OnLine(codec, kind, d, line)
  {
    assert [line][..0] == [];
    assert Decoder.Decode(codec, kind, d, []) == Decoder.Running(d);
  }

  lemma ThreeLines(codec: Codec, kind: EndpointKind, d: Decoder.Decoder, e: Decoder.Decoder, f: Decoder.Decoder,
                   a: string, b: string, c: string)
    requires Decoder.OnLine(codec, kind, d, a) == Decoder.Running(e)
    requires Decoder.OnLine(codec, kind, e, b) == Decoder.Running(f)
    ensures Decoder.Decode(codec, kind, d, [a] + [b] + [c]) == Decoder.OnLine(codec, kind, f, c)
  {
    OneLine(codec, kind, d, a);
    OneLine(codec, kind, e, b);
    OneLine(codec, kind, f, c);
    Decoder.DecodeConcat(codec, kind, d, [a], [b]);
    Decoder.DecodeConcat(codec, kind, d, [a] + [b], [c]);
  }

  lemma MessageIsDecoded(codec: Codec, kind: EndpointKind, d: Decoder.Decoder, m: Message)
    requires Lawful(codec) && Sound(m)
    ensures Decoder.Decode(codec, kind, d, SentMessage(codec, m))
         == Decoder.Running(Decoder.Apply(kind, d.(event := EventName(m)), Meaning(m)))
  {
    var named := d.(event := EventName(m));
    NameLine(codec, d.event, m);
    AppendEmpty(d.events);
    assert Decoder.Apply(kind, d, Decoder.Name(EventName(m))) == named;
    DataLineMeans(codec, m);
    var after := Decoder.Apply(kind, named, Meaning(m));
    EmptyLine(codec, after.event);
    AppendEmpty(after.events);
    assert Decoder.Apply(kind, after, Decoder.Nothing) == after;
    ThreeLines(codec, kind, d, named, after, "event: " + EventName(m), "data: " + codec.marshal(Obj(Payload(m))), "");
  }

  /** The variables of the decoder after these messages. */
  ghost predicate Keeps(kind: EndpointKind, d: Decoder.Decoder, messages: seq<Message>) {
    && d.tool == Decoder.Tool(LatestTool(messages).0, LatestTool(messages).1)
    && d.stopReason == LatestReason(messages)
    && d.events == Expected(kind, messages)
  }

  lemma OutputIsExpected(kind: EndpointKind, d: Decoder.Decoder, before: seq<Message>, m: Message)
    requires Keeps(kind, d, before)
    ensures Decoder.Output(kind, d, Meaning(m)) == ExpectedOf(kind, before, m)
  {
    match m
    case MessageStart(usage, _, _) => UsageEventsMean(usage);
    case MessageDelta(_, usage, _, _) => UsageEventsMean(usage);
    case _ =>
  }

  lemma ExpectationsGrow(kind: EndpointKind, before: seq<Message>, m: Message)
    ensures Expected(kind, before + [m]) == Expected(kind, before) + ExpectedOf(kind, before, m)
    ensures LatestTool(before + [m]) == if m.ToolUseBlock? then (m.id, m.name) else LatestTool(before)
    ensures LatestReason(before + [m])
         == if m.MessageEnd? then ""
            else if m.MessageDelta? && m.stopReason != "" then m.stopReason
            else LatestReason(before)
  {
    var all := before + [m];
    assert all[..|all| - 1] == before && all[|all| - 1] == m;
  }

  lemma OneMoreMessage(kind: EndpointKind, d: Decoder.Decoder, before: seq<Message>, m: Message)
    requires Keeps(kind, d, before)
    ensures Keeps(kind, Decoder.Apply(kind, d, Meaning(m)), before + [m])
  {
    ExpectationsGrow(kind, before, m);
    OutputIsExpected(kind, d, before, m);
  }

  lemma {:induction false} MessagesAreDecoded(codec: Codec, kind: EndpointKind, messages: seq<Message>)
    requires Lawful(codec) && AllSound(messages)
    ensures var r := Decoder.Decode(codec, kind, Decoder.START, SentLines(codec, messages));
            r.Running? && Keeps(kind, r.decoder, messages)
  {
    if messages != [] {
      var front, last := messages[..|messages| - 1], messages[|messages| - 1];
      MessagesAreDecoded(codec, kind, front);
      assert last in messages;
      var d := Decoder.Decode(codec, kind, Decoder.START, SentLines(codec, front)).decoder;
      Decoder.DecodeConcat(codec, kind, Decoder.START, SentLines(codec, front), SentMessage(codec, last));
      MessageIsDecoded(codec, kind, d, last);
      OneMoreMessage(kind, d.(event := EventName(last)), front, last);
      FrontAndLast(messages);
    }
  }

  // As text

  function MessageText(codec: Codec, m: Message): string {
    TwoLines("event: " + EventName(m), "data: " + codec.marshal(Obj(Payload(m))))
  }

  function TwoLines(first: string, second: string): string {
    Ended(first) + Ended(second) + Ended("")
  }

  function Ended(line: string): string {
    line + "\n"
  }

  function SentText(codec: Codec, messages: seq<Message>): string {
    if messages == [] then ""
    else SentText(codec, messages[..|messages| - 1]) + MessageText(codec, messages[|messages| - 1])
  }

  lemma ScanEnded(line: string)
    requires IsLineText(line)
    ensures ScanLines(Ended(line)) == [line] && EndsItsLines(Ended(line))
  {
    ScanSent(SentLine(line, false));
    assert Sent(SentLine(line, false)) == Ended(line);
  }

  lemma ScanTwoLines(first: string, second: string)
    requires IsLineText(first) && IsLineText(second)
    ensures ScanLines(TwoLines(first, second)) == [first] + [second] + [""] && EndsItsLines(TwoLines(first, second))
  {
    ScanEnded(first);
    ScanEnded(second);
    ScanEnded("");
    EndsAppend(Ended(first), Ended(second));
    EndsAppend(Ended(first) + Ended(second), Ended(""));
    ScanAppend(Ended(first), Ended(second));
    ScanAppend(Ended(first) + Ended(second), Ended(""));
  }

  lemma NameIsLineText(m: Message)
    requires Sound(m)
    ensures IsLineText("event: " + EventName(m))
  {
    EventNameIsClean(m);
    var line := "event: " + EventName(m);
    assert line[|line| - 1] == EventName(m)[|EventName(m)| - 1];
  }

  lemma PayloadIsLineText(codec: Codec, o: Object)
    requires Lawful(codec)
    ensures IsLineText("data: " + codec.marshal(Obj(o)))
  {
    assert ReadsBack(codec, o);
    DataLineIsClean(codec.marshal(Obj(o)));
    assert DataLine(codec.marshal(Obj(o))) == "data: " + codec.marshal(Obj(o));
  }

  lemma {:induction false} TextIsScanned(codec: Codec, messages: seq<Message>)
    requires Lawful(codec) && AllSound(messages)
    ensures ScanLines(SentText(codec, messages)) == SentLines(codec, messages)
    ensures EndsItsLines(SentText(codec, messages))
  {
    if messages != [] {
      var front, last := messages[..|messages| - 1], messages[|messages| - 1];
      TextIsScanned(codec, front);
      assert last in messages;
      NameIsLineText(last);
      PayloadIsLineText(codec, Payload(last));
      ScanTwoLines("event: " + EventName(last), "data: " + codec.marshal(Obj(Payload(last))));
      ScanAppend(SentText(codec, front), MessageText(codec, last));
      EndsAppend(SentText(codec, front), MessageText(codec, last));
    }
  }

  /** For any messages an upstream can send, with any fields besides the ones that matter: decoding the text that was
      sent gives exactly the expected events. */
  lemma WireRoundTrip(codec: Codec, kind: EndpointKind, messages: seq<Message>)
    requires Lawful(codec) && AllSound(messages)
    ensures Decoder.DecodeBody(codec, kind, SentText(codec, messages), false) == Decoded(Expected(kind, messages))
  {
    TextIsScanned(codec, messages);
    MessagesAreDecoded(codec, kind, messages);
  }
}

/** The printers of event streams, the finalizers of aggregated answers, and a client that reads the stream. */
module Relay {
  import opened Config
  import opened Json
  import opened Lines
  import opened Events

  const DONE: string := "data: [DONE]" + FRAME_END

  function NormalizeReason(raw: Json): string {
    if !raw.Str? || raw.s == "" then "stop"
    else if raw.s == "end_turn" || raw.s == "stop_sequence" then "stop"
    else if raw.s == "max_tokens" then "length"
    else if raw.s == "tool_use" then "tool_calls"
    else raw.s
  }

  function FinishReason(data: Object): Option<string> {
    if "finish_reason" in data then Some(NormalizeReason(data["finish_reason"]))
    else if "stop_reason" in data then Some(NormalizeReason(data["stop_reason"]))
    else None
  }

  function Choice(choice: Object): Json {
    Arr([Obj(choice)])
  }

  function DeltaChunk(data: Object): Object {
    map["object" := ValueAt(data, "object"),
        "choices" := Choice(map["delta" := Obj(map["content" := ValueAt(data, "text")])])]
  }

  function ToolChunk(data: Object): Object {
    var call := map["id" := ValueAt(data, "id"), "type" := Str("function"),
                    "function" := Obj(map["name" := ValueAt(data, "name"), "arguments" := ValueAt(data, "arguments")])];
    map["object" := Str(CHUNK), "choices" := Choice(map["delta" := Obj(map["tool_calls" := Arr([Obj(call)])])])]
  }

  function FinishChunk(reason: string): Object {
    map["object" := Str(CHUNK), "choices" := Choice(map["delta" := Obj(map[]), "finish_reason" := Str(reason)])]
  }

  function DataFrame(codec: Codec, o: Object): string {
    "data: " + codec.marshal(Obj(o)) + FRAME_END
  }

  function ChatFrame(codec: Codec, e: Event): string {
    match e.kind
    case ContentDelta => DataFrame(codec, DeltaChunk(e.data))
    case ToolCallStart => DataFrame(codec, ToolChunk(e.data))
    case ToolCallDelta => DataFrame(codec, ToolChunk(e.data))
    case MessageStop =>
      (match FinishReason(e.data)
       case Some(reason) => DataFrame(codec, FinishChunk(reason))
       case None => DONE)
    case _ => ""
  }

  function PrintChat(codec: Codec, events: seq<Event>): string {
    if events == [] then "" else PrintChat(codec, events[..|events| - 1]) + ChatFrame(codec, events[|events| - 1])
  }

  const COMPLETED: Object := map["type" := Str("response.completed")]

  function ResponsesFrame(codec: Codec, e: Event): string {
    match e.kind
    case ContentDelta => DataFrame(codec, e.data)
    case MessageStop => DataFrame(codec, COMPLETED)
    case _ => ""
  }

  function PrintResponses(codec: Codec, events: seq<Event>): string {
    if events == [] then ""
    else PrintResponses(codec, events[..|events| - 1]) + ResponsesFrame(codec, events[|events| - 1])
  }

  method WriteDataEvent(codec: Codec, payload: Object, written: string) returns (out: string)
    ensures out == written + DataFrame(codec, payload)
  {
    var data := codec.marshal(Obj(payload));
    out := written + "data: ";
    out := out + data;
    out := out + FRAME_END;
  }

  method WriteChatCompletionSSE(codec: Codec, events: seq<Event>) returns (out: string)
    ensures out == PrintChat(codec, events)
  {
    out := "";
    for i := 0 to |events|
      invariant out == PrintChat(codec, events[..i])
    {
      assert events[..i + 1][..i] == events[..i];
      var event := events[i];
      if event.kind == ContentDelta {
        out := WriteDataEvent(codec, DeltaChunk(event.data), out);
      } else if event.kind == ToolCallStart || event.kind == ToolCallDelta {
        out := WriteDataEvent(codec, ToolChunk(event.data), out);
      } else if event.kind == MessageStop {
        var finishReason := FinishReason(event.data);
        if finishReason.Some? {
          out := WriteDataEvent(codec, FinishChunk(finishReason.value), out);
          continue;
        }
        out := out + DONE;
      }
    }
    assert events[..|events|] == events;
  }

  method WriteResponsesSSE(codec: Codec, events: seq<Event>) returns (out: string)
    ensures out == PrintResponses(codec, events)
  {
    out := "";
    for i := 0 to |events|
      invariant out == PrintResponses(codec, events[..i])
    {
      assert events[..i + 1][..i] == events[..i];
      var event := events[i];
      if event.kind == ContentDelta {
        out := WriteDataEvent(codec, event.data, out);
      } else if event.kind == MessageStop {
        out := WriteDataEvent(codec, COMPLETED, out);
      }
    }
    assert events[..|events|] == events;
  }

  // Finalizers

  /** The finalizer has a normalizer of its own. */
  function FinalNormalizeReason(raw: Json): string {
    match raw
    case Str(value) =>
      if value == "" then "stop"
      else if value in {"end_turn", "stop_sequence"} then "stop"
      else if value == "max_tokens" then "length"
      else if value == "tool_use" then "tool_calls"
      else value
    case _ => "stop"
  }

  /** The reason a stop event gives the aggregated answer, if it gives one. */
  function ReasonGiven(data: Object): Option<string> {
    if "finish_reason" in data then Some(FinalNormalizeReason(data["finish_reason"]))
    else if "stop_reason" in data then Some(FinalNormalizeReason(data["stop_reason"]))
    else None
  }

  function FinalText(events: seq<Event>): string {
    if events == [] then ""
    else
      var last := events[|events| - 1];
      FinalText(events[..|events| - 1]) + if last.kind == ContentDelta then StringAt(last.data, "text") else ""
  }

  function FinalReason(events: seq<Event>): string {
    if events == [] then "stop"
    else
      var last := events[|events| - 1];
      if last.kind == MessageStop && ReasonGiven(last.data).Some? then ReasonGiven(last.data).value
      else FinalReason(events[..|events| - 1])
  }

  function FinalResponseText(events: seq<Event>): string {
    if events == [] then ""
    else
      var last := events[|events| - 1];
      FinalResponseText(events[..|events| - 1]) +
      if last.kind != ContentDelta then ""
      else if ValueAt(last.data, "text").Str? then StringAt(last.data, "text")
      else StringAt(last.data, "delta")
  }

  method AggregateFinalText(events: seq<Event>) returns (text: string, finishReason: string)
    ensures text == FinalText(events) && finishReason == FinalReason(events)
  {
    text, finishReason := "", "stop";
    for i := 0 to |events|
      invariant text == FinalText(events[..i]) && finishReason == FinalReason(events[..i])
    {
      assert events[..i + 1][..i] == events[..i];
      var event := events[i];
      if event.kind == ContentDelta {
        if "text" in event.data && event.data["text"].Str? {
          text := text + event.data["text"].s;
        }
      } else if event.kind == MessageStop {
        if "finish_reason" in event.data {
          finishReason := FinalNormalizeReason(event.data["finish_reason"]);
          continue;
        }
        if "stop_reason" in event.data {
          finishReason := FinalNormalizeReason(event.data["stop_reason"]);
        }
      }
    }
    assert events[..|events|] == events;
  }

  method AggregateResponseText(events: seq<Event>) returns (text: string)
    ensures text == FinalResponseText(events)
  {
    text := "";
    for i := 0 to |events|
      invariant text == FinalResponseText(events[..i])
    {
      assert events[..i + 1][..i] == events[..i];
      var event := events[i];
      if event.kind != ContentDelta {
        continue;
      }
      if "text" in event.data && event.data["text"].Str? {
        text := text + event.data["text"].s;
        continue;
      }
      if "delta" in event.data && event.data["delta"].Str? {
        text := text + event.data["delta"].s;
      }
    }
    assert events[..|events|] == events;
  }

  // A client of the stream

  /** The payload of a data line. */
  function DataOf(rawLine: string): Option<string> {
    var line := TrimSpace(rawLine);
    if "data: " <= line then Some(WithoutPrefix(line, "data: ")) else None
  }

  /** The object a data line carries, if it carries one. */
  function PayloadOf(codec: Codec, rawLine: string): Option<Object> {
    match DataOf(rawLine)
    case None => None
    case Some(payload) => if payload == "[DONE]" then None else UnmarshalMap(codec, payload)
  }

  /** choices[0].delta.content of a chunk. */
  function ChunkText(o: Object): string {
    TextOf(Field(Field(Item(Field(Some(Obj(o)), "choices"), 0), "delta"), "content"))
  }

  /** choices[0].finish_reason of a chunk. */
  function ChunkReason(o: Object): Option<string> {
    match Field(Item(Field(Some(Obj(o)), "choices"), 0), "finish_reason")
    case Some(Str(reason)) => Some(reason)
    case _ => None
  }

  function LineText(codec: Codec, line: string): string {
    match PayloadOf(codec, line)
    case None => ""
    case Some(o) => ChunkText(o)
  }

  function LineReason(codec: Codec, line: string): Option<string> {
    match PayloadOf(codec, line)
    case None => None
    case Some(o) => ChunkReason(o)
  }

  function LineDelta(codec: Codec, line: string): string {
    match PayloadOf(codec, line)
    case None => ""
    case Some(o) => TextOf(Field(Some(Obj(o)), "delta"))
  }

  /** The concatenation of delta.content over the chunks of a chat stream. */
  function ClientText(codec: Codec, lines: seq<string>): string {
    if lines == [] then "" else ClientText(codec, lines[..|lines| - 1]) + LineText(codec, lines[|lines| - 1])
  }

  /** The last finish reason of a chat stream, or the given one. */
  function ClientReason(codec: Codec, lines: seq<string>, default: string): string {
    if lines == [] then default
    else
      match LineReason(codec, lines[|lines| - 1])
      case None => ClientReason(codec, lines[..|lines| - 1], default)
      case Some(reason) => reason
  }

  /** The concatenation of the delta fields of a responses stream. */
  function ClientDeltas(codec: Codec, lines: seq<string>): string {
    if lines == [] then "" else ClientDeltas(codec, lines[..|lines| - 1]) + LineDelta(codec, lines[|lines| - 1])
  }
}

/** What the stream a client receives says about the events it was printed from. */
module RelayProofs {
  import opened Sequences
  import opened Config
  import opened Json
  import opened Lines
  import opened Events
  import opened Relay
  import OpenAI = OpenAIStream
  import Anthropic = AnthropicStream

  // Framing

  function DataLine(payload: string): string {
    "data: " + payload
  }

  lemma DataLineIsClean(payload: string)
    requires '\n' !in payload && payload != "" && payload[|payload| - 1] in {'}', ']'}
    ensures var line := DataLine(payload);
            && '\n' !in line && line != "" && line[0] == 'd' && line[|line| - 1] in {'}', ']'}
            && "data: " <= line && WithoutPrefix(line, "data: ") == payload
  {
    var line := DataLine(payload);
    forall i | 0 <= i < |line|
      ensures line[i] != '\n'
    {
      if 6 <= i {
        assert line[i] == payload[i - 6] && payload[i - 6] in payload;
      }
    }
  }

  /** A payload that is one line in braces or brackets is framed and read back unchanged. */
  lemma ReadFrame(payload: string)
    requires '\n' !in payload && payload != "" && payload[|payload| - 1] in {'}', ']'}
    ensures ScanLines(DataLine(payload) + FRAME_END) == [DataLine(payload)] + [""]
    ensures TrimSpace(DataLine(payload)) == DataLine(payload)
    ensures "data: " <= DataLine(payload) && WithoutPrefix(DataLine(payload), "data: ") == payload
    ensures DataOf(DataLine(payload)) == Some(payload)
  {
    DataLineIsClean(payload);
    NothingToTrim(DataLine(payload));
    ScanFrame(DataLine(payload));
  }

  /** What one printed frame is, once scanned. */
  lemma ReadDataFrame(codec: Codec, o: Object)
    requires Lawful(codec)
    ensures var line := DataLine(codec.marshal(Obj(o)));
            && ScanLines(DataFrame(codec, o)) == [line] + [""]
            && PayloadOf(codec, line) == Some(o)
            && PayloadOf(codec, "") == None
            && TrimSpace(line) == line && "data: " <= line
            && WithoutPrefix(line, "data: ") == codec.marshal(Obj(o)) != "[DONE]"
            && UnmarshalMap(codec, codec.marshal(Obj(o))) == Some(o)
  {
    assert ReadsBack(codec, o);
    ReadFrame(codec.marshal(Obj(o)));
  }

  lemma ReadDone(codec: Codec)
    ensures ScanLines(DONE) == [DataLine("[DONE]")] + [""]
    ensures PayloadOf(codec, DataLine("[DONE]")) == None && PayloadOf(codec, "") == None
    ensures TrimSpace(DataLine("[DONE]")) == DataLine("[DONE]")
  {
    ReadFrame("[DONE]");
    assert DataLine("[DONE]") == "data: [DONE]";
  }

  ghost predicate EndsItsLines(text: string) {
    text == "" || text[|text| - 1] == '\n'
  }

  lemma EndsAppend(a: string, b: string)
    requires EndsItsLines(a) && EndsItsLines(b)
    ensures EndsItsLines(a + b)
  {
  }

  lemma FramesEndTheirLines(codec: Codec, e: Event)
    ensures EndsItsLines(ChatFrame(codec, e)) && EndsItsLines(ResponsesFrame(codec, e))
  {
    assert FRAME_END[1] == '\n';
  }

  lemma {:induction false} PrintedEndsItsLines(codec: Codec, events: seq<Event>)
    ensures EndsItsLines(PrintChat(codec, events)) && EndsItsLines(PrintResponses(codec, events))
  {
    if events != [] {
      var front, last := events[..|events| - 1], events[|events| - 1];
      PrintedEndsItsLines(codec, front);
      FramesEndTheirLines(codec, last);
      EndsAppend(PrintChat(codec, front), ChatFrame(codec, last));
      EndsAppend(PrintResponses(codec, front), ResponsesFrame(codec, last));
    }
  }

  // Round trips

  /** What decoding the printed form of one chat event gives back. */
  function ChatEventView(e: Event): seq<Event> {
    match e.kind
    case ContentDelta =>
      var text, objectName := StringAt(e.data, "text"), StringAt(e.data, "object");
      if text == "" then [] else [ChatDelta(if objectName == "" then CHUNK else objectName, text)]
    case MessageStop =>
      (match FinishReason(e.data)
       case Some(reason) => [Event(MessageStop, map["finish_reason" := Str(reason)])]
       case None => [BARE_STOP])
    case _ => []
  }

  function ChatView(events: seq<Event>): seq<Event> {
    if events == [] then [] else ChatView(events[..|events| - 1]) + ChatEventView(events[|events| - 1])
  }

  function ResponsesEventView(e: Event): seq<Event> {
    if e.kind == ContentDelta then [e] else if e.kind == MessageStop then [BARE_STOP] else []
  }

  function ResponsesView(events: seq<Event>): seq<Event> {
    if events == [] then [] else ResponsesView(events[..|events| - 1]) + ResponsesEventView(events[|events| - 1])
  }

  lemma DecodeTwoLines(codec: Codec, kind: EndpointKind, line: string, events: seq<Event>)
    requires OpenAI.LineEvents(codec, kind, line) == Some(events)
    ensures OpenAI.DecodeLines(codec, kind, [line] + [""]) == Decoded(events)
  {
    assert OpenAI.LineEvents(codec, kind, "") == Some([]);
    OpenAI.DecodeOneLine(codec, kind, line);
    OpenAI.DecodeOneLine(codec, kind, "");
    OpenAI.DecodeConcat(codec, kind, [line], [""]);
    AppendEmpty(events);
  }

  lemma DecodeDataFrame(codec: Codec, kind: EndpointKind, o: Object)
    requires Lawful(codec)
    ensures OpenAI.DecodeLines(codec, kind, ScanLines(DataFrame(codec, o)))
         == Decoded(if kind == Responses then OpenAI.ResponsesEvents(o) else OpenAI.ChatEvents(o))
  {
    var line := DataLine(codec.marshal(Obj(o)));
    ReadDataFrame(codec, o);
    DecodeTwoLines(codec, kind, line,
                   if kind == Responses then OpenAI.ResponsesEvents(o) else OpenAI.ChatEvents(o));
  }

  lemma DeltaChunkEvents(data: Object)
    ensures OpenAI.ChatEvents(DeltaChunk(data)) == ChatEventView(Event(ContentDelta, data))
  {
    var o := DeltaChunk(data);
    assert FirstChoice(o) == map["delta" := Obj(map["content" := ValueAt(data, "text")])];
  }

  lemma ToolChunkEvents(data: Object)
    ensures OpenAI.ChatEvents(ToolChunk(data)) == []
  {
    var choice := FirstChoice(ToolChunk(data));
    assert choice.Keys == {"delta"} && ObjectAt(choice, "delta").Keys == {"tool_calls"};
  }

  lemma FinishChunkEvents(reason: string)
    requires reason != ""
    ensures OpenAI.ChatEvents(FinishChunk(reason)) == [Event(MessageStop, map["finish_reason" := Str(reason)])]
  {
    var choice := FirstChoice(FinishChunk(reason));
    assert choice == map["delta" := Obj(map[]), "finish_reason" := Str(reason)];
  }

  lemma DeltaFrameRoundTrip(codec: Codec, data: Object)
    requires Lawful(codec)
    ensures OpenAI.DecodeLines(codec, ChatCompletions, ScanLines(DataFrame(codec, DeltaChunk(data))))
         == Decoded(ChatEventView(Event(ContentDelta, data)))
  {
    DecodeDataFrame(codec, ChatCompletions, DeltaChunk(data));
    DeltaChunkEvents(data);
  }

  lemma ToolFrameRoundTrip(codec: Codec, data: Object)
    requires Lawful(codec)
    ensures OpenAI.DecodeLines(codec, ChatCompletions, ScanLines(DataFrame(codec, ToolChunk(data)))) == Decoded([])
  {
    DecodeDataFrame(codec, ChatCompletions, ToolChunk(data));
    ToolChunkEvents(data);
  }

  lemma FinishFrameRoundTrip(codec: Codec, reason: string)
    requires Lawful(codec) && reason != ""
    ensures OpenAI.DecodeLines(codec, ChatCompletions, ScanLines(DataFrame(codec, FinishChunk(reason))))
         == Decoded([Event(MessageStop, map["finish_reason" := Str(reason)])])
  {
    DecodeDataFrame(codec, ChatCompletions, FinishChunk(reason));
    FinishChunkEvents(reason);
  }

  lemma ChatFrameRoundTrip(codec: Codec, e: Event)
    requires Lawful(codec)
    ensures OpenAI.DecodeLines(codec, ChatCompletions, ScanLines(ChatFrame(codec, e))) == Decoded(ChatEventView(e))
  {
    match e.kind
    case ContentDelta => DeltaFrameRoundTrip(codec, e.data);
    case ToolCallStart => ToolFrameRoundTrip(codec, e.data);
    case ToolCallDelta => ToolFrameRoundTrip(codec, e.data);
    case MessageStop =>
      if FinishReason(e.data).Some? {
        FinishFrameRoundTrip(codec, FinishReason(e.data).value);
      } else {
        ReadDone(codec);
        DecodeTwoLines(codec, ChatCompletions, DataLine("[DONE]"), [BARE_STOP]);
      }
    case _ =>
  }

  /** Scanning and decoding the exact bytes printed for any events gives those events back, with usage, tool and
      empty-text events dropped and finish reasons normalized. */
  lemma {:induction false} ChatRoundTrip(codec: Codec, events: seq<Event>)
    requires Lawful(codec)
    ensures OpenAI.DecodeLines(codec, ChatCompletions, ScanLines(PrintChat(codec, events))) == Decoded(ChatView(events))
  {
    if events != [] {
      var front, last := events[..|events| - 1], events[|events| - 1];
      ChatRoundTrip(codec, front);
      ChatFrameRoundTrip(codec, last);
      PrintedEndsItsLines(codec, front);
      ScanAppend(PrintChat(codec, front), ChatFrame(codec, last));
      OpenAI.DecodeConcat(codec, ChatCompletions, ScanLines(PrintChat(codec, front)), ScanLines(ChatFrame(codec, last)));
    }
  }

  lemma DeltaIsReadBack(text: string)
    ensures OpenAI.ResponsesEvents(ResponsesDelta(text).data) == [ResponsesDelta(text)]
  {
  }

  lemma CompletedIsReadBack()
    ensures OpenAI.ResponsesEvents(COMPLETED) == [BARE_STOP]
  {
    assert OpenAI.NestedMap(COMPLETED, ["response", "usage"]) == map[];
    assert UsageEvents(map[]) == [] && ObjectAt(COMPLETED, "usage") == map[];
  }

  lemma ResponsesDeltaRoundTrip(codec: Codec, text: string)
    requires Lawful(codec)
    ensures OpenAI.DecodeLines(codec, Responses, ScanLines(DataFrame(codec, ResponsesDelta(text).data)))
         == Decoded([ResponsesDelta(text)])
  {
    DecodeDataFrame(codec, Responses, ResponsesDelta(text).data);
    DeltaIsReadBack(text);
  }

  lemma CompletedRoundTrip(codec: Codec)
    requires Lawful(codec)
    ensures OpenAI.DecodeLines(codec, Responses, ScanLines(DataFrame(codec, COMPLETED))) == Decoded([BARE_STOP])
  {
    DecodeDataFrame(codec, Responses, COMPLETED);
    CompletedIsReadBack();
  }

  lemma ResponsesFrameRoundTrip(codec: Codec, e: Event)
    requires Lawful(codec) && (e.kind == ContentDelta ==> exists text :: e == ResponsesDelta(text))
    ensures OpenAI.DecodeLines(codec, Responses, ScanLines(ResponsesFrame(codec, e))) == Decoded(ResponsesEventView(e))
  {
    if e.kind == ContentDelta {
      var text :| e == ResponsesDelta(text);
      ResponsesDeltaRoundTrip(codec, text);
    } else if e.kind == MessageStop {
      CompletedRoundTrip(codec);
    }
  }

  /** The same for the responses endpoint: stop data is stripped, tool and usage events are dropped, and
      every content delta comes back unchanged. */
  lemma {:induction false} ResponsesRoundTrip(codec: Codec, events: seq<Event>)
    requires Lawful(codec) && ResponsesShaped(events)
    ensures OpenAI.DecodeLines(codec, Responses, ScanLines(PrintResponses(codec, events))) == Decoded(ResponsesView(events))
  {
    if events != [] {
      var front, last := events[..|events| - 1], events[|events| - 1];
      assert last in events;
      ResponsesRoundTrip(codec, front);
      ResponsesFrameRoundTrip(codec, last);
      PrintedEndsItsLines(codec, front);
      ScanAppend(PrintResponses(codec, front), ResponsesFrame(codec, last));
      OpenAI.DecodeConcat(codec, Responses, ScanLines(PrintResponses(codec, front)), ScanLines(ResponsesFrame(codec, last)));
    }
  }

  lemma {:induction false} ChatViewAppend(a: seq<Event>, b: seq<Event>)
    ensures ChatView(a + b) == ChatView(a) + ChatView(b)
  {
    if b == [] {
      AppendEmpty(a);
      AppendEmpty(ChatView(a));
    } else {
      FrontOfAppend(a, b);
      ChatViewAppend(a, b[..|b| - 1]);
      Associative(ChatView(a), ChatView(b[..|b| - 1]), ChatEventView(b[|b| - 1]));
    }
  }

  lemma ChatEventViewIsStable(e: Event)
    ensures ChatView(ChatEventView(e)) == ChatEventView(e)
  {
    var view := ChatEventView(e);
    if view != [] {
      assert view[..0] == [] && view == [view[0]];
    }
  }

  /** The normalization a round trip makes is idempotent. */
  lemma {:induction false} ChatViewIsIdempotent(events: seq<Event>)
    ensures ChatView(ChatView(events)) == ChatView(events)
  {
    if events != [] {
      var front, last := events[..|events| - 1], events[|events| - 1];
      ChatViewIsIdempotent(front);
      ChatEventViewIsStable(last);
      ChatViewAppend(ChatView(front), ChatEventView(last));
    }
  }

  /** Printing what was decoded from a printed stream changes no byte any more. */
  lemma PrintDecodePrintIsStable(codec: Codec, events: seq<Event>)
    requires Lawful(codec)
    ensures var decoded := OpenAI.DecodeLines(codec, ChatCompletions, ScanLines(PrintChat(codec, events)));
            && decoded.Decoded?
            && var again := OpenAI.DecodeLines(codec, ChatCompletions, ScanLines(PrintChat(codec, decoded.events)));
               again == decoded && PrintChat(codec, again.events) == PrintChat(codec, decoded.events)
  {
    ChatRoundTrip(codec, events);
    ChatRoundTrip(codec, ChatView(events));
    ChatViewIsIdempotent(events);
  }

  lemma {:induction false} PrintResponsesAppend(codec: Codec, a: seq<Event>, b: seq<Event>)
    ensures PrintResponses(codec, a + b) == PrintResponses(codec, a) + PrintResponses(codec, b)
  {
    if b == [] {
      AppendEmpty(a);
      AppendEmpty(PrintResponses(codec, a));
    } else {
      FrontOfAppend(a, b);
      PrintResponsesAppend(codec, a, b[..|b| - 1]);
      Associative(PrintResponses(codec, a), PrintResponses(codec, b[..|b| - 1]), ResponsesFrame(codec, b[|b| - 1]));
    }
  }

  lemma ResponsesEventViewPrintsTheSame(codec: Codec, e: Event)
    ensures PrintResponses(codec, ResponsesEventView(e)) == ResponsesFrame(codec, e)
  {
    var view := ResponsesEventView(e);
    if view != [] {
      assert view == [view[0]] && view[..0] == [];
      AppendEmpty(ResponsesFrame(codec, e));
    }
  }

  /** What is stripped from responses events is what the printer does not print. */
  lemma {:induction false} ResponsesViewPrintsTheSame(codec: Codec, events: seq<Event>)
    ensures PrintResponses(codec, ResponsesView(events)) == PrintResponses(codec, events)
  {
    if events != [] {
      var front, last := events[..|events| - 1], events[|events| - 1];
      ResponsesViewPrintsTheSame(codec, front);
      ResponsesEventViewPrintsTheSame(codec, last);
      PrintResponsesAppend(codec, ResponsesView(front), ResponsesEventView(last));
    }
  }

  /** On the responses endpoint, printing what was decoded from a printed stream gives the same text from the
      first print on. */
  lemma ResponsesPrintIsStable(codec: Codec, events: seq<Event>)
    requires Lawful(codec) && ResponsesShaped(events)
    ensures var decoded := OpenAI.DecodeLines(codec, Responses, ScanLines(PrintResponses(codec, events)));
            decoded.Decoded? && PrintResponses(codec, decoded.events) == PrintResponses(codec, events)
  {
    ResponsesRoundTrip(codec, events);
    ResponsesViewPrintsTheSame(codec, events);
  }

  /** The chat events an OpenAI upstream can produce. */
  ghost predicate FromOpenAI(e: Event) {
    || e.kind == UsageReport
    || e == BARE_STOP
    || (exists objectName, text :: objectName != "" && text != "" && e == ChatDelta(objectName, text))
    || (exists reason :: reason != "" && e == Event(MessageStop, map["finish_reason" := Str(reason)]))
  }

  lemma ChatEventsAreFromOpenAI(chunk: Object)
    ensures forall e :: e in OpenAI.ChatEvents(chunk) ==> FromOpenAI(e)
  {
  }

  lemma LineIsFromOpenAI(codec: Codec, rawLine: string)
    requires OpenAI.LineEvents(codec, ChatCompletions, rawLine).Some?
    ensures forall e :: e in OpenAI.LineEvents(codec, ChatCompletions, rawLine).value ==> FromOpenAI(e)
  {
    var line := TrimSpace(rawLine);
    if "data: " <= line {
      var payload := WithoutPrefix(line, "data: ");
      if payload != "[DONE]" {
        ChatEventsAreFromOpenAI(UnmarshalMap(codec, payload).value);
      }
    }
  }

  lemma {:induction false} DecodedChatIsFromOpenAI(codec: Codec, lines: seq<string>)
    requires OpenAI.DecodeLines(codec, ChatCompletions, lines).Decoded?
    ensures forall e :: e in OpenAI.DecodeLines(codec, ChatCompletions, lines).events ==> FromOpenAI(e)
  {
    if lines != [] {
      DecodedChatIsFromOpenAI(codec, lines[..|lines| - 1]);
      LineIsFromOpenAI(codec, lines[|lines| - 1]);
    }
  }

  lemma {:induction false} PrintChatAppend(codec: Codec, a: seq<Event>, b: seq<Event>)
    ensures PrintChat(codec, a + b) == PrintChat(codec, a) + PrintChat(codec, b)
  {
    if b == [] {
      AppendEmpty(a);
      AppendEmpty(PrintChat(codec, a));
    } else {
      FrontOfAppend(a, b);
      PrintChatAppend(codec, a, b[..|b| - 1]);
      Associative(PrintChat(codec, a), PrintChat(codec, b[..|b| - 1]), ChatFrame(codec, b[|b| - 1]));
    }
  }

  lemma PrintOne(codec: Codec, e: Event)
    ensures PrintChat(codec, [e]) == ChatFrame(codec, e)
  {
    assert [e][..0] == [] && PrintChat(codec, []) == "";
  }

  lemma ViewPrintsTheSame(codec: Codec, e: Event)
    requires FromOpenAI(e)
    ensures PrintChat(codec, ChatEventView(e)) == ChatFrame(codec, e)
  {
    if e.kind != UsageReport {
      var view := ChatEventView(e);
      assert |view| == 1 && view == [view[0]];
      PrintOne(codec, view[0]);
    }
  }

  /** Relaying what an OpenAI upstream sent is byte-stable from the first print on. */
  lemma {:induction false} OpenAIRelayIsByteStable(codec: Codec, events: seq<Event>)
    requires forall e :: e in events ==> FromOpenAI(e)
    ensures PrintChat(codec, ChatView(events)) == PrintChat(codec, events)
  {
    if events != [] {
      var front, last := events[..|events| - 1], events[|events| - 1];
      assert last in events;
      OpenAIRelayIsByteStable(codec, front);
      ViewPrintsTheSame(codec, last);
      PrintChatAppend(codec, ChatView(front), ChatEventView(last));
    }
  }

  // Streamed and aggregated answers

  lemma {:induction false} ClientTextAppend(codec: Codec, a: seq<string>, b: seq<string>)
    ensures ClientText(codec, a + b) == ClientText(codec, a) + ClientText(codec, b)
  {
    if b == [] {
      AppendEmpty(a);
      AppendEmpty(ClientText(codec, a));
    } else {
      FrontOfAppend(a, b);
      ClientTextAppend(codec, a, b[..|b| - 1]);
      Associative(ClientText(codec, a), ClientText(codec, b[..|b| - 1]), LineText(codec, b[|b| - 1]));
    }
  }

  lemma {:induction false} ClientReasonAppend(codec: Codec, a: seq<string>, b: seq<string>, default: string)
    ensures ClientReason(codec, a + b, default) == ClientReason(codec, b, ClientReason(codec, a, default))
  {
    if b == [] {
      AppendEmpty(a);
    } else {
      FrontOfAppend(a, b);
      ClientReasonAppend(codec, a, b[..|b| - 1], default);
    }
  }

  lemma {:induction false} ClientDeltasAppend(codec: Codec, a: seq<string>, b: seq<string>)
    ensures ClientDeltas(codec, a + b) == ClientDeltas(codec, a) + ClientDeltas(codec, b)
  {
    if b == [] {
      AppendEmpty(a);
      AppendEmpty(ClientDeltas(codec, a));
    } else {
      FrontOfAppend(a, b);
      ClientDeltasAppend(codec, a, b[..|b| - 1]);
      Associative(ClientDeltas(codec, a), ClientDeltas(codec, b[..|b| - 1]), LineDelta(codec, b[|b| - 1]));
    }
  }

  /** What a client takes from the two lines of one frame. */
  lemma ClientTwoLines(codec: Codec, line: string, default: string)
    ensures ClientText(codec, [line] + [""]) == LineText(codec, line)
    ensures ClientReason(codec, [line] + [""], default)
         == match LineReason(codec, line) case None => default case Some(reason) => reason
    ensures ClientDeltas(codec, [line] + [""]) == LineDelta(codec, line)
  {
    assert ([line] + [""])[..1] == [line] && [line][..0] == [];
    assert PayloadOf(codec, "") == None;
    assert ClientText(codec, [line]) == ClientText(codec, []) + LineText(codec, line);
    assert ClientDeltas(codec, [line]) == ClientDeltas(codec, []) + LineDelta(codec, line);
    assert ClientReason(codec, [], default) == default;
  }

  lemma ClientReadsDataFrame(codec: Codec, o: Object, default: string)
    requires Lawful(codec)
    ensures ClientText(codec, ScanLines(DataFrame(codec, o))) == ChunkText(o)
    ensures ClientReason(codec, ScanLines(DataFrame(codec, o)), default)
         == match ChunkReason(o) case None => default case Some(reason) => reason
    ensures ClientDeltas(codec, ScanLines(DataFrame(codec, o))) == StringAt(o, "delta")
  {
    ReadDataFrame(codec, o);
    ClientTwoLines(codec, DataLine(codec.marshal(Obj(o))), default);
  }

  lemma DeltaContents(data: Object)
    ensures ChunkText(DeltaChunk(data)) == StringAt(data, "text") && ChunkReason(DeltaChunk(data)) == None
  {
    var choice := Item(Field(Some(Obj(DeltaChunk(data))), "choices"), 0);
    assert choice == Some(Obj(map["delta" := Obj(map["content" := ValueAt(data, "text")])]));
  }

  lemma ToolContents(data: Object)
    ensures ChunkText(ToolChunk(data)) == "" && ChunkReason(ToolChunk(data)) == None
  {
    var choice := Item(Field(Some(Obj(ToolChunk(data))), "choices"), 0);
    assert choice.value.fields.Keys == {"delta"} && choice.value.fields["delta"].fields.Keys == {"tool_calls"};
  }

  lemma FinishContents(reason: string)
    ensures ChunkText(FinishChunk(reason)) == "" && ChunkReason(FinishChunk(reason)) == Some(reason)
  {
    var choice := Item(Field(Some(Obj(FinishChunk(reason))), "choices"), 0);
    assert choice == Some(Obj(map["delta" := Obj(map[]), "finish_reason" := Str(reason)]));
  }

  lemma ClientReadsChatFrame(codec: Codec, e: Event, default: string)
    requires Lawful(codec)
    ensures ClientText(codec, ScanLines(ChatFrame(codec, e))) == if e.kind == ContentDelta then StringAt(e.data, "text") else ""
    ensures ClientReason(codec, ScanLines(ChatFrame(codec, e)), default)
         == if e.kind == MessageStop && FinishReason(e.data).Some? then FinishReason(e.data).value else default
  {
    match e.kind
    case ContentDelta =>
      ClientReadsDataFrame(codec, DeltaChunk(e.data), default);
      DeltaContents(e.data);
    case ToolCallStart =>
      ClientReadsDataFrame(codec, ToolChunk(e.data), default);
      ToolContents(e.data);
    case ToolCallDelta =>
      ClientReadsDataFrame(codec, ToolChunk(e.data), default);
      ToolContents(e.data);
    case MessageStop =>
      if FinishReason(e.data).Some? {
        ClientReadsDataFrame(codec, FinishChunk(FinishReason(e.data).value), default);
        FinishContents(FinishReason(e.data).value);
      } else {
        ReadDone(codec);
        ClientTwoLines(codec, DataLine("[DONE]"), default);
      }
    case _ =>
  }

  /** The printer and the finalizer normalize alike, in what they take for a reason and in how they name it. */
  lemma NormalizersAgree(data: Object)
    ensures FinishReason(data) == ReasonGiven(data)
    ensures forall raw: Json :: NormalizeReason(raw) == FinalNormalizeReason(raw)
  {
  }

  /** For any events, a client of the chat stream ends up with the text and the finish reason the aggregated
      answer has. */
  lemma {:induction false} ChatStreamAgreesWithFinal(codec: Codec, events: seq<Event>)
    requires Lawful(codec)
    ensures ClientText(codec, ScanLines(PrintChat(codec, events))) == FinalText(events)
    ensures ClientReason(codec, ScanLines(PrintChat(codec, events)), "stop") == FinalReason(events)
  {
    if events != [] {
      var front, last := events[..|events| - 1], events[|events| - 1];
      ChatStreamAgreesWithFinal(codec, front);
      PrintedEndsItsLines(codec, front);
      ScanAppend(PrintChat(codec, front), ChatFrame(codec, last));
      ClientTextAppend(codec, ScanLines(PrintChat(codec, front)), ScanLines(ChatFrame(codec, last)));
      ClientReasonAppend(codec, ScanLines(PrintChat(codec, front)), ScanLines(ChatFrame(codec, last)), "stop");
      ClientReadsChatFrame(codec, last, FinalReason(front));
      NormalizersAgree(last.data);
    }
  }

  lemma ClientReadsResponsesFrame(codec: Codec, e: Event)
    requires Lawful(codec) && (e.kind == ContentDelta ==> exists text :: e == ResponsesDelta(text))
    ensures ClientDeltas(codec, ScanLines(ResponsesFrame(codec, e)))
         == if e.kind == ContentDelta then StringAt(e.data, "delta") else ""
  {
    if e.kind == ContentDelta || e.kind == MessageStop {
      var o := if e.kind == ContentDelta then e.data else COMPLETED;
      ClientReadsDataFrame(codec, o, "");
    }
  }

  lemma {:induction false} ResponsesStreamAgreesWithFinal(codec: Codec, events: seq<Event>)
    requires Lawful(codec) && ResponsesShaped(events)
    ensures ClientDeltas(codec, ScanLines(PrintResponses(codec, events))) == FinalResponseText(events)
  {
    if events != [] {
      var front, last := events[..|events| - 1], events[|events| - 1];
      assert last in events;
      ResponsesStreamAgreesWithFinal(codec, front);
      PrintedEndsItsLines(codec, front);
      ScanAppend(PrintResponses(codec, front), ResponsesFrame(codec, last));
      ClientDeltasAppend(codec, ScanLines(PrintResponses(codec, front)), ScanLines(ResponsesFrame(codec, last)));
      ClientReadsResponsesFrame(codec, last);
    }
  }

  /** Whatever an upstream of either family sends for the responses endpoint, if it decodes, then the stream the
      client receives carries the text of the aggregated answer, and decodes back to the events it came from. */
  lemma DecodedResponsesAgree(codec: Codec, lines: seq<string>, anthropic: bool, events: seq<Event>)
    requires Lawful(codec)
    requires anthropic ==>
               Anthropic.Decode(codec, Responses, Anthropic.START, lines).Running? &&
               events == Anthropic.Decode(codec, Responses, Anthropic.START, lines).decoder.events
    requires !anthropic ==> OpenAI.DecodeLines(codec, Responses, lines) == Decoded(events)
    ensures ClientDeltas(codec, ScanLines(PrintResponses(codec, events))) == FinalResponseText(events)
    ensures OpenAI.DecodeLines(codec, Responses, ScanLines(PrintResponses(codec, events))) == Decoded(ResponsesView(events))
  {
    if anthropic {
      Anthropic.OutputMatchesTheLines(codec, Responses, lines);
    } else {
      OpenAI.DecodedResponsesAreShaped(codec, lines);
    }
    ResponsesStreamAgreesWithFinal(codec, events);
    ResponsesRoundTrip(codec, events);
  }
}

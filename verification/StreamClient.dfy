/** A client that reads every field of every chunk of the printed streams, and what it sees for any events. */
module StreamClient {
  import opened Sequences
  import opened Config
  import opened Json
  import opened Lines
  import opened Events
  import opened Relay
  import opened RelayProofs

  /** One tool call of a chunk, as its fields stand. */
  datatype Call = Call(id: Option<Json>, kind: Option<Json>, name: Option<Json>, arguments: Option<Json>)

  datatype Chunk =
    | EndOfStream
    | Chunk(objectName: Option<Json>, content: Option<Json>, call: Option<Call>, finishReason: Option<Json>)

  /** choices[0].delta.tool_calls[0] of a chunk. */
  function CallOf(root: Option<Json>): Option<Call> {
    var call := Item(Field(Field(Item(Field(root, "choices"), 0), "delta"), "tool_calls"), 0);
    var f := Field(call, "function");
    if call.None? then None
    else Some(Call(Field(call, "id"), Field(call, "type"), Field(f, "name"), Field(f, "arguments")))
  }

  function ChunkOf(root: Option<Json>): Chunk {
    var choice := Item(Field(root, "choices"), 0);
    Chunk(Field(root, "object"), Field(Field(choice, "delta"), "content"), CallOf(root), Field(choice, "finish_reason"))
  }

  function LineChunks(codec: Codec, line: string): seq<Chunk> {
    match DataOf(line)
    case None => []
    case Some(payload) =>
      if payload == "[DONE]" then [EndOfStream]
      else if UnmarshalMap(codec, payload).Some? then [ChunkOf(Some(Obj(UnmarshalMap(codec, payload).value)))]
      else []
  }

  function ReadChunks(codec: Codec, lines: seq<string>): seq<Chunk> {
    if lines == [] then [] else ReadChunks(codec, lines[..|lines| - 1]) + LineChunks(codec, lines[|lines| - 1])
  }

  /** What a client should see for one event. Fields an event does not have are null. */
  function ExpectedChunk(e: Event): seq<Chunk> {
    match e.kind
    case ContentDelta => [Chunk(Some(ValueAt(e.data, "object")), Some(ValueAt(e.data, "text")), None, None)]
    case ToolCallStart => [ExpectedCall(e.data)]
    case ToolCallDelta => [ExpectedCall(e.data)]
    case MessageStop =>
      if "finish_reason" in e.data || "stop_reason" in e.data
      then [Chunk(Some(Str("chat.completion.chunk")), None, None, Some(Str(ReasonOf(e.data))))]
      else [EndOfStream]
    case _ => []
  }

  function ExpectedCall(data: Object): Chunk {
    Chunk(Some(Str("chat.completion.chunk")), None,
          Some(Call(Some(ValueAt(data, "id")), Some(Str("function")), Some(ValueAt(data, "name")),
                    Some(ValueAt(data, "arguments")))),
          None)
  }

  /** The reason of a stop event: the finish reason if there is one, else the stop reason, in OpenAI's words. */
  function ReasonOf(data: Object): string
    requires "finish_reason" in data || "stop_reason" in data
  {
    OpenAIReason(TextOf(Some(if "finish_reason" in data then data["finish_reason"] else data["stop_reason"])))
  }

  function OpenAIReason(reason: string): string {
    match reason
    case "" => "stop"
    case "end_turn" => "stop"
    case "stop_sequence" => "stop"
    case "max_tokens" => "length"
    case "tool_use" => "tool_calls"
    case _ => reason
  }

  function ExpectedChunks(events: seq<Event>): seq<Chunk> {
    if events == [] then [] else ExpectedChunks(events[..|events| - 1]) + ExpectedChunk(events[|events| - 1])
  }

  lemma ReasonIs(data: Object)
    requires "finish_reason" in data || "stop_reason" in data
    ensures FinishReason(data) == Some(ReasonOf(data))
  {
  }

  lemma {:induction false} ReadAppend(codec: Codec, a: seq<string>, b: seq<string>)
    ensures ReadChunks(codec, a + b) == ReadChunks(codec, a) + ReadChunks(codec, b)
  {
    if b == [] {
      AppendEmpty(a);
      AppendEmpty(ReadChunks(codec, a));
    } else {
      FrontOfAppend(a, b);
      ReadAppend(codec, a, b[..|b| - 1]);
      Associative(ReadChunks(codec, a), ReadChunks(codec, b[..|b| - 1]), LineChunks(codec, b[|b| - 1]));
    }
  }

  lemma ReadTwoLines(codec: Codec, line: string)
    ensures ReadChunks(codec, [line] + [""]) == LineChunks(codec, line)
  {
    assert ([line] + [""])[..1] == [line] && [line][..0] == [];
    assert LineChunks(codec, "") == [];
    assert ReadChunks(codec, [line]) == ReadChunks(codec, []) + LineChunks(codec, line);
    AppendEmpty(LineChunks(codec, line));
  }

  lemma ReadFrameChunk(codec: Codec, o: Object)
    requires Lawful(codec)
    ensures ReadChunks(codec, ScanLines(DataFrame(codec, o))) == [ChunkOf(Some(Obj(o)))]
  {
    ReadDataFrame(codec, o);
    ReadTwoLines(codec, DataLine(codec.marshal(Obj(o))));
  }

  lemma TextChunk(data: Object)
    ensures ChunkOf(Some(Obj(DeltaChunk(data)))) == Chunk(Some(ValueAt(data, "object")), Some(ValueAt(data, "text")), None, None)
  {
    var root := Some(Obj(DeltaChunk(data)));
    var choice := Item(Field(root, "choices"), 0);
    assert choice == Some(Obj(map["delta" := Obj(map["content" := ValueAt(data, "text")])]));
    assert Field(choice, "delta") == Some(Obj(map["content" := ValueAt(data, "text")]));
  }

  lemma CallChunk(data: Object)
    ensures ChunkOf(Some(Obj(ToolChunk(data)))) == ExpectedCall(data)
  {
    var root := Some(Obj(ToolChunk(data)));
    var delta := Field(Item(Field(root, "choices"), 0), "delta");
    var call := Item(Field(delta, "tool_calls"), 0);
    assert Field(Item(Field(root, "choices"), 0), "finish_reason") == None && Field(delta, "content") == None;
    assert Field(call, "id") == Some(ValueAt(data, "id")) && Field(call, "type") == Some(Str("function"));
    assert Field(Field(call, "function"), "name") == Some(ValueAt(data, "name"));
    assert Field(Field(call, "function"), "arguments") == Some(ValueAt(data, "arguments"));
  }

  lemma StopChunk(reason: string)
    ensures ChunkOf(Some(Obj(FinishChunk(reason)))) == Chunk(Some(Str("chat.completion.chunk")), None, None, Some(Str(reason)))
  {
    var root := Some(Obj(FinishChunk(reason)));
    var choice := Item(Field(root, "choices"), 0);
    assert choice == Some(Obj(map["delta" := Obj(map[]), "finish_reason" := Str(reason)]));
    assert Field(choice, "delta") == Some(Obj(map[]));
  }

  lemma ReadEvent(codec: Codec, e: Event)
    requires Lawful(codec)
    ensures ReadChunks(codec, ScanLines(ChatFrame(codec, e))) == ExpectedChunk(e)
  {
    match e.kind
    case ContentDelta =>
      ReadFrameChunk(codec, DeltaChunk(e.data));
      TextChunk(e.data);
    case ToolCallStart =>
      ReadFrameChunk(codec, ToolChunk(e.data));
      CallChunk(e.data);
    case ToolCallDelta =>
      ReadFrameChunk(codec, ToolChunk(e.data));
      CallChunk(e.data);
    case MessageStop =>
      if "finish_reason" in e.data || "stop_reason" in e.data {
        ReasonIs(e.data);
        ReadFrameChunk(codec, FinishChunk(ReasonOf(e.data)));
        StopChunk(ReasonOf(e.data));
      } else {
        ReadDone(codec);
        ReadTwoLines(codec, DataLine("[DONE]"));
      }
    case _ =>
  }

  /** For any events, a client of the printed chat stream sees exactly the expected chunks, field by field and in
      order. */
  lemma {:induction false} ChatStreamIsRead(codec: Codec, events: seq<Event>)
    requires Lawful(codec)
    ensures ReadChunks(codec, ScanLines(PrintChat(codec, events))) == ExpectedChunks(events)
  {
    if events != [] {
      var front, last := events[..|events| - 1], events[|events| - 1];
      ChatStreamIsRead(codec, front);
      PrintedEndsItsLines(codec, front);
      ScanAppend(PrintChat(codec, front), ChatFrame(codec, last));
      ReadAppend(codec, ScanLines(PrintChat(codec, front)), ScanLines(ChatFrame(codec, last)));
      ReadEvent(codec, last);
    }
  }

  // Tool calls

  function CallIn(chunk: Chunk): seq<Call> {
    if chunk.Chunk? && chunk.call.Some? then [chunk.call.value] else []
  }

  function CallsIn(chunks: seq<Chunk>): seq<Call> {
    if chunks == [] then [] else CallsIn(chunks[..|chunks| - 1]) + CallIn(chunks[|chunks| - 1])
  }

  /** The call a tool event stands for. */
  function ToolCall(e: Event): seq<Call> {
    if e.kind == ToolCallStart || e.kind == ToolCallDelta then
      [Call(Some(ValueAt(e.data, "id")), Some(Str("function")), Some(ValueAt(e.data, "name")), Some(ValueAt(e.data, "arguments")))]
    else []
  }

  function ToolCalls(events: seq<Event>): seq<Call> {
    if events == [] then [] else ToolCalls(events[..|events| - 1]) + ToolCall(events[|events| - 1])
  }

  lemma OneMoreChunk(chunks: seq<Chunk>, chunk: Chunk)
    ensures CallsIn(chunks + [chunk]) == CallsIn(chunks) + CallIn(chunk)
  {
    assert (chunks + [chunk])[..|chunks|] == chunks;
  }

  lemma CallOfEvent(chunks: seq<Chunk>, e: Event)
    ensures CallsIn(chunks + ExpectedChunk(e)) == CallsIn(chunks) + ToolCall(e)
  {
    var expected := ExpectedChunk(e);
    if expected == [] {
      AppendEmpty(chunks);
      AppendEmpty(CallsIn(chunks));
    } else {
      assert expected == [expected[0]] && CallIn(expected[0]) == ToolCall(e);
      OneMoreChunk(chunks, expected[0]);
    }
  }

  lemma {:induction false} ExpectedCalls(events: seq<Event>)
    ensures CallsIn(ExpectedChunks(events)) == ToolCalls(events)
  {
    if events != [] {
      var front, last := events[..|events| - 1], events[|events| - 1];
      ExpectedCalls(front);
      CallOfEvent(ExpectedChunks(front), last);
    }
  }

  /** For any events, a client that collects choices[0].delta.tool_calls[0] gets, in order, exactly the id, name and
      arguments of the tool events. */
  lemma ToolCallsAreRead(codec: Codec, events: seq<Event>)
    requires Lawful(codec)
    ensures CallsIn(ReadChunks(codec, ScanLines(PrintChat(codec, events)))) == ToolCalls(events)
  {
    ChatStreamIsRead(codec, events);
    ExpectedCalls(events);
  }

  // The responses endpoint

  function LinePayloads(codec: Codec, line: string): seq<Object> {
    if PayloadOf(codec, line).Some? then [PayloadOf(codec, line).value] else []
  }

  function ReadPayloads(codec: Codec, lines: seq<string>): seq<Object> {
    if lines == [] then [] else ReadPayloads(codec, lines[..|lines| - 1]) + LinePayloads(codec, lines[|lines| - 1])
  }

  /** A content delta is passed on as it is, a stop completes the response, nothing else is said. */
  function ExpectedPayload(e: Event): seq<Object> {
    match e.kind
    case ContentDelta => [e.data]
    case MessageStop => [map["type" := Str("response.completed")]]
    case _ => []
  }

  function ExpectedPayloads(events: seq<Event>): seq<Object> {
    if events == [] then [] else ExpectedPayloads(events[..|events| - 1]) + ExpectedPayload(events[|events| - 1])
  }

  lemma {:induction false} ReadPayloadsAppend(codec: Codec, a: seq<string>, b: seq<string>)
    ensures ReadPayloads(codec, a + b) == ReadPayloads(codec, a) + ReadPayloads(codec, b)
  {
    if b == [] {
      AppendEmpty(a);
      AppendEmpty(ReadPayloads(codec, a));
    } else {
      FrontOfAppend(a, b);
      ReadPayloadsAppend(codec, a, b[..|b| - 1]);
      Associative(ReadPayloads(codec, a), ReadPayloads(codec, b[..|b| - 1]), LinePayloads(codec, b[|b| - 1]));
    }
  }

  lemma ReadPayloadFrame(codec: Codec, o: Object)
    requires Lawful(codec)
    ensures ReadPayloads(codec, ScanLines(DataFrame(codec, o))) == [o]
  {
    ReadDataFrame(codec, o);
    var line := DataLine(codec.marshal(Obj(o)));
    assert ([line] + [""])[..1] == [line] && [line][..0] == [];
    assert ReadPayloads(codec, [line]) == ReadPayloads(codec, []) + [o];
    AppendEmpty([o]);
  }

  lemma ReadPayloadEvent(codec: Codec, e: Event)
    requires Lawful(codec)
    ensures ReadPayloads(codec, ScanLines(ResponsesFrame(codec, e))) == ExpectedPayload(e)
  {
    if e.kind == ContentDelta {
      ReadPayloadFrame(codec, e.data);
    } else if e.kind == MessageStop {
      ReadPayloadFrame(codec, COMPLETED);
    }
  }

  /** For any events, a client of the printed responses stream reads exactly the expected payloads, in order. */
  lemma {:induction false} ResponsesStreamIsRead(codec: Codec, events: seq<Event>)
    requires Lawful(codec)
    ensures ReadPayloads(codec, ScanLines(PrintResponses(codec, events))) == ExpectedPayloads(events)
  {
    if events != [] {
      var front, last := events[..|events| - 1], events[|events| - 1];
      ResponsesStreamIsRead(codec, front);
      PrintedEndsItsLines(codec, front);
      ScanAppend(PrintResponses(codec, front), ResponsesFrame(codec, last));
      ReadPayloadsAppend(codec, ScanLines(PrintResponses(codec, front)), ScanLines(ResponsesFrame(codec, last)));
      ReadPayloadEvent(codec, last);
    }
  }

  // The aggregated answers

  /** The text a delta adds to the aggregated answer of the responses endpoint. */
  function TextOfDelta(data: Object): string {
    if "text" in data && data["text"].Str? then data["text"].s else TextOf(Field(Some(Obj(data)), "delta"))
  }

  function DeltaTexts(events: seq<Event>): seq<string> {
    if events == [] then []
    else
      DeltaTexts(events[..|events| - 1]) +
      if events[|events| - 1].kind == ContentDelta then [TextOfDelta(events[|events| - 1].data)] else []
  }

  function Joined(texts: seq<string>): string {
    if texts == [] then "" else Joined(texts[..|texts| - 1]) + texts[|texts| - 1]
  }

  /** For any events, the aggregated answer joins the texts of the deltas, each its text or else its delta. */
  lemma {:induction false} FinalResponseJoins(events: seq<Event>)
    ensures FinalResponseText(events) == Joined(DeltaTexts(events))
  {
    if events != [] {
      var front, last := events[..|events| - 1], events[|events| - 1];
      FinalResponseJoins(front);
      if last.kind == ContentDelta {
        FrontOfAppend(DeltaTexts(front), [TextOfDelta(last.data)]);
        AppendEmpty(DeltaTexts(front));
        assert [TextOfDelta(last.data)][..0] == [];
      } else {
        AppendEmpty(DeltaTexts(front));
        AppendEmpty(FinalResponseText(front));
      }
    }
  }
}

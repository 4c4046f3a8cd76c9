/** Canonical events, and the way a decoder reports a broken stream. */
module Events {
  import opened Config
  import opened Json

  datatype EndpointKind = ChatCompletions | Responses

  datatype EventType =
    | MessageStart | ContentStart | ContentDelta | ToolCallStart | ToolCallDelta
    | ContentStop | MessageStop | UsageReport | ErrorReport

  datatype Event = Event(kind: EventType, data: Object)

  const BARE_STOP := Event(MessageStop, map[])

  /** A decoded stream, or the fact that it broke and whether it had produced events before. */
  datatype DecodeResult = Decoded(events: seq<Event>) | Broken(outputCommitted: bool)

  function BreakAfter(events: seq<Event>): DecodeResult {
    Broken(events != [])
  }

  /** Usage is reported by an object that has one of the token counts as a number. */
  predicate HasUsage(data: Object) {
    exists key :: key in {"input_tokens", "prompt_tokens", "output_tokens", "completion_tokens", "total_tokens"}
                  && key in data && data[key].Num?
  }

  function UsageEvents(data: Object): seq<Event> {
    if HasUsage(data) then [Event(UsageReport, data)] else []
  }

  predicate IsNumber(j: Option<Json>) {
    j.Some? && j.value.Num?
  }

  /** The usage report an object stands for: one with at least one of the token counts. */
  function UsageAt(j: Option<Json>): seq<Event> {
    if || IsNumber(Field(j, "input_tokens")) || IsNumber(Field(j, "prompt_tokens"))
       || IsNumber(Field(j, "output_tokens")) || IsNumber(Field(j, "completion_tokens"))
       || IsNumber(Field(j, "total_tokens"))
    then [Event(UsageReport, j.value.fields)]
    else []
  }

  lemma UsageEventsMean(data: Object)
    ensures UsageEvents(data) == UsageAt(Some(Obj(data)))
  {
    var keys := {"input_tokens", "prompt_tokens", "output_tokens", "completion_tokens", "total_tokens"};
    if k :| k in keys && k in data && data[k].Num? {
      assert HasUsage(data);
    }
    assert "input_tokens" in keys && "prompt_tokens" in keys && "output_tokens" in keys;
    assert "completion_tokens" in keys && "total_tokens" in keys;
  }

  const DELTA_TYPE := "response.output_text.delta"

  const CHUNK := "chat.completion.chunk"

  function ChatDelta(objectName: string, text: string): Event {
    Event(ContentDelta, map["object" := Str(objectName), "text" := Str(text)])
  }

  function ResponsesDelta(text: string): Event {
    Event(ContentDelta, map["type" := Str(DELTA_TYPE), "delta" := Str(text)])
  }

  /** The first choice of a chunk, or an empty one. */
  function FirstChoice(chunk: Object): Object {
    match ValueAt(chunk, "choices")
    case Arr(items) => if items == [] then map[] else MapValue(items[0])
    case _ => map[]
  }

  /** The content deltas a decoder makes for the responses endpoint. */
  ghost predicate ResponsesShaped(events: seq<Event>) {
    forall e :: e in events && e.kind == ContentDelta ==> exists text :: e == ResponsesDelta(text)
  }
}

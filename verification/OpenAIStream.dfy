/** The decoder of OpenAI event streams. */
module OpenAIStream {
  import opened Sequences
  import opened Config
  import opened Json
  import opened Lines
  import opened Events

  function NestedMap(data: Object, keys: seq<string>): Object
    decreases |keys|
  {
    if keys == [] then data
    else if keys[0] !in data then map[]
    else
      var next := MapValue(data[keys[0]]);
      if next == map[] && |keys| > 1 then map[] else NestedMap(next, keys[1..])
  }

  function ResponsesEvents(event: Object): seq<Event> {
    var eventType := StringAt(event, "type");
    if eventType == DELTA_TYPE then [ResponsesDelta(StringAt(event, "delta"))]
    else if eventType == "response.completed" then
      UsageEvents(NestedMap(event, ["response", "usage"])) + UsageEvents(ObjectAt(event, "usage")) + [BARE_STOP]
    else UsageEvents(ObjectAt(event, "usage"))
  }

  function ChatEvents(chunk: Object): seq<Event> {
    var choice := FirstChoice(chunk);
    var objectName := StringAt(chunk, "object");
    var text := StringAt(ObjectAt(choice, "delta"), "content");
    var finishReason := StringAt(choice, "finish_reason");
    UsageEvents(ObjectAt(chunk, "usage"))
    + (if text == "" then [] else [ChatDelta(if objectName == "" then CHUNK else objectName, text)])
    + (if finishReason == "" then [] else [Event(MessageStop, map["finish_reason" := Str(finishReason)])])
  }

  /** The events of one line, or None when its payload does not parse. */
  function LineEvents(codec: Codec, kind: EndpointKind, rawLine: string): Option<seq<Event>> {
    var line := TrimSpace(rawLine);
    if !("data: " <= line) then Some([])
    else
      var payload := WithoutPrefix(line, "data: ");
      if payload == "[DONE]" then Some([BARE_STOP])
      else
        match UnmarshalMap(codec, payload)
        case None => None
        case Some(o) => Some(if kind == Responses then ResponsesEvents(o) else ChatEvents(o))
  }

  function Extend(r: DecodeResult, line: Option<seq<Event>>): DecodeResult {
    match r
    case Broken(c) => Broken(c)
    case Decoded(events) =>
      match line
      case None => BreakAfter(events)
      case Some(more) => Decoded(events + more)
  }

  function DecodeLines(codec: Codec, kind: EndpointKind, lines: seq<string>): DecodeResult {
    if lines == [] then Decoded([])
    else Extend(DecodeLines(codec, kind, lines[..|lines| - 1]), LineEvents(codec, kind, lines[|lines| - 1]))
  }

  /** A stream whose reader may fail after the last line it delivered. */
  function DecodeBody(codec: Codec, kind: EndpointKind, body: string, readFails: bool): DecodeResult {
    match DecodeLines(codec, kind, ScanLines(body))
    case Decoded(events) => if readFails then BreakAfter(events) else Decoded(events)
    case Broken(c) => Broken(c)
  }

  /** Where a stream breaks: at a line that does not parse, after a prefix that decoded; the output counts as
      committed exactly when that prefix produced an event. */
  lemma {:induction false} CommittedIffOutput(codec: Codec, kind: EndpointKind, lines: seq<string>) returns (i: nat)
    requires DecodeLines(codec, kind, lines).Broken?
    ensures i < |lines| && LineEvents(codec, kind, lines[i]).None?
    ensures DecodeLines(codec, kind, lines[..i]).Decoded?
    ensures DecodeLines(codec, kind, lines).outputCommitted <==> DecodeLines(codec, kind, lines[..i]).events != []
  {
    var front := lines[..|lines| - 1];
    if DecodeLines(codec, kind, front).Broken? {
      i := CommittedIffOutput(codec, kind, front);
      assert front[..i] == lines[..i];
    } else {
      i := |lines| - 1;
    }
  }

  lemma DecodeOneLine(codec: Codec, kind: EndpointKind, line: string)
    ensures DecodeLines(codec, kind, [line])
         == match LineEvents(codec, kind, line) case None => Broken(false) case Some(events) => Decoded(events)
  {
    assert [line][..0] == [];
    assert DecodeLines(codec, kind, []) == Decoded([]);
    assert LineEvents(codec, kind, line).Some? ==> [] + LineEvents(codec, kind, line).value == LineEvents(codec, kind, line).value;
  }

  function Continue(first: DecodeResult, second: DecodeResult): DecodeResult {
    match (first, second)
    case (Broken(c), _) => Broken(c)
    case (Decoded(events), Broken(c)) => Broken(events != [] || c)
    case (Decoded(events), Decoded(more)) => Decoded(events + more)
  }

  /** Decoding composes over any split of the lines. */
  lemma {:induction false} DecodeConcat(codec: Codec, kind: EndpointKind, a: seq<string>, b: seq<string>)
    ensures DecodeLines(codec, kind, a + b) == Continue(DecodeLines(codec, kind, a), DecodeLines(codec, kind, b))
  {
    if b == [] {
      assert a + b == a;
      assert forall events: seq<Event> :: events + [] == events;
    } else {
      var front, line := b[..|b| - 1], b[|b| - 1];
      assert (a + b)[..|a + b| - 1] == a + front && (a + b)[|a + b| - 1] == line;
      DecodeConcat(codec, kind, a, front);
      Associate(DecodeLines(codec, kind, a), DecodeLines(codec, kind, front), LineEvents(codec, kind, line));
    }
  }

  lemma Associate(a: DecodeResult, b: DecodeResult, line: Option<seq<Event>>)
    ensures Extend(Continue(a, b), line) == Continue(a, Extend(b, line))
  {
    if a.Decoded? && b.Decoded? && line.Some? {
      assert a.events + b.events + line.value == a.events + (b.events + line.value);
    }
  }

  lemma ResponsesEventsAreShaped(event: Object)
    ensures ResponsesShaped(ResponsesEvents(event))
  {
  }

  lemma LineIsShaped(codec: Codec, rawLine: string)
    requires LineEvents(codec, Responses, rawLine).Some?
    ensures ResponsesShaped(LineEvents(codec, Responses, rawLine).value)
  {
    var line := TrimSpace(rawLine);
    if "data: " <= line {
      var payload := WithoutPrefix(line, "data: ");
      if payload != "[DONE]" {
        ResponsesEventsAreShaped(UnmarshalMap(codec, payload).value);
      }
    }
  }

  lemma {:induction false} DecodedResponsesAreShaped(codec: Codec, lines: seq<string>)
    requires DecodeLines(codec, Responses, lines).Decoded?
    ensures ResponsesShaped(DecodeLines(codec, Responses, lines).events)
  {
    if lines != [] {
      DecodedResponsesAreShaped(codec, lines[..|lines| - 1]);
      LineIsShaped(codec, lines[|lines| - 1]);
    }
  }

  lemma DecodeNext(codec: Codec, kind: EndpointKind, lines: seq<string>, i: nat)
    requires i < |lines|
    ensures DecodeLines(codec, kind, lines[..i + 1])
         == Extend(DecodeLines(codec, kind, lines[..i]), LineEvents(codec, kind, lines[i]))
  {
    assert lines[..i + 1][..i] == lines[..i];
  }

  lemma BrokenStaysBroken(codec: Codec, kind: EndpointKind, lines: seq<string>, i: nat)
    requires i <= |lines| && DecodeLines(codec, kind, lines[..i]).Broken?
    ensures DecodeLines(codec, kind, lines) == DecodeLines(codec, kind, lines[..i])
  {
    assert lines[..i] + lines[i..] == lines;
    DecodeConcat(codec, kind, lines[..i], lines[i..]);
  }

  // What payloads mean

  lemma UsageUnder(o: Object, key: string)
    ensures UsageEvents(ObjectAt(o, key)) == UsageAt(Field(Some(Obj(o)), key))
  {
    UsageEventsMean(ObjectAt(o, key));
  }

  /** The events of any chat chunk, read off its paths. */
  lemma ChatEventsMean(chunk: Object)
    ensures var root := Some(Obj(chunk));
            var choice := Item(Field(root, "choices"), 0);
            var text, reason := TextOf(Field(Field(choice, "delta"), "content")), TextOf(Field(choice, "finish_reason"));
            var name := TextOf(Field(root, "object"));
            ChatEvents(chunk)
            == UsageAt(Field(root, "usage"))
               + (if text == "" then []
                  else [Event(ContentDelta, map["object" := Str(if name == "" then "chat.completion.chunk" else name), "text" := Str(text)])])
               + (if reason == "" then [] else [Event(MessageStop, map["finish_reason" := Str(reason)])])
  {
    UsageUnder(chunk, "usage");
    var choice := Item(Field(Some(Obj(chunk)), "choices"), 0);
    assert FirstChoice(chunk) == if choice.Some? then MapValue(choice.value) else map[];
  }

  /** The events of any payload of the responses endpoint, read off its paths. */
  lemma ResponsesEventsMean(event: Object)
    ensures var root := Some(Obj(event));
            var eventType := TextOf(Field(root, "type"));
            ResponsesEvents(event)
            == if eventType == "response.output_text.delta" then
                 [Event(ContentDelta, map["type" := Str("response.output_text.delta"), "delta" := Str(TextOf(Field(root, "delta")))])]
               else if eventType == "response.completed" then
                 UsageAt(Field(Field(root, "response"), "usage")) + UsageAt(Field(root, "usage")) + [Event(MessageStop, map[])]
               else UsageAt(Field(root, "usage"))
  {
    UsageUnder(event, "usage");
    NestedUsage(event);
  }

  lemma NestedUsage(event: Object)
    ensures UsageEvents(NestedMap(event, ["response", "usage"])) == UsageAt(Field(Field(Some(Obj(event)), "response"), "usage"))
  {
    var keys := ["response", "usage"];
    assert keys[1..] == ["usage"] && ["usage"][1..] == [];
    var response := ObjectAt(event, "response");
    assert NestedMap(response, ["usage"]) == ObjectAt(response, "usage") by {
      if "usage" in response {
        assert NestedMap(MapValue(response["usage"]), []) == MapValue(response["usage"]);
      }
    }
    UsageUnder(response, "usage");
    UsageEventsMean(map[]);
  }

  /** Lines without data say nothing. */
  lemma OtherLinesAreIgnored(codec: Codec, kind: EndpointKind, line: string)
    requires !("data: " <= TrimSpace(line))
    ensures LineEvents(codec, kind, line) == Some([])
  {
  }

  method LookUpNested(data: Object, keys: seq<string>) returns (current: Object)
    ensures current == NestedMap(data, keys)
  {
    current := data;
    for i := 0 to |keys|
      invariant NestedMap(current, keys[i..]) == NestedMap(data, keys)
    {
      assert keys[i..][0] == keys[i] && keys[i..][1..] == keys[i + 1..];
      if keys[i] !in current {
        return map[];
      }
      var next := MapValue(current[keys[i]]);
      if next == map[] && i != |keys| - 1 {
        return map[];
      }
      current := next;
    }
  }

  method AppendUsageEvent(events: seq<Event>, data: Object) returns (r: seq<Event>)
    ensures r == events + UsageEvents(data)
  {
    r := events;
    if HasUsage(data) {
      r := r + [Event(UsageReport, data)];
    }
  }

  method DecodeResponsesEvent(event: Object) returns (events: seq<Event>)
    ensures events == ResponsesEvents(event)
  {
    events := [];
    var eventType := StringAt(event, "type");
    if eventType == DELTA_TYPE {
      events := events + [ResponsesDelta(StringAt(event, "delta"))];
    } else if eventType == "response.completed" {
      var nested := LookUpNested(event, ["response", "usage"]);
      events := AppendUsageEvent(events, nested);
      events := AppendUsageEvent(events, ObjectAt(event, "usage"));
      events := events + [BARE_STOP];
    } else {
      events := AppendUsageEvent(events, ObjectAt(event, "usage"));
    }
  }

  method DecodeChatEvent(chunk: Object) returns (events: seq<Event>)
    ensures events == ChatEvents(chunk)
  {
    events := AppendUsageEvent([], ObjectAt(chunk, "usage"));
    var objectName := StringAt(chunk, "object");
    var text, finishReason := "", "";
    if "choices" in chunk && chunk["choices"].Arr? && |chunk["choices"].items| > 0 {
      var choice := MapValue(chunk["choices"].items[0]);
      if choice != map[] {
        var delta := ObjectAt(choice, "delta");
        if delta != map[] {
          text := StringAt(delta, "content");
        }
        finishReason := StringAt(choice, "finish_reason");
      }
    }
    if text != "" {
      if objectName == "" {
        objectName := CHUNK;
      }
      events := events + [ChatDelta(objectName, text)];
    }
    if finishReason != "" {
      events := events + [Event(MessageStop, map["finish_reason" := Str(finishReason)])];
    }
  }

  method DecodeStream(codec: Codec, kind: EndpointKind, body: string, readFails: bool) returns (r: DecodeResult)
    ensures r == DecodeBody(codec, kind, body, readFails)
  {
    var lines := ScanLines(body);
    var events: seq<Event> := [];
    for i := 0 to |lines|
      invariant DecodeLines(codec, kind, lines[..i]) == Decoded(events)
    {
      DecodeNext(codec, kind, lines, i);
      var line := TrimSpace(lines[i]);
      if !("data: " <= line) {
        AppendEmpty(events);
        continue;
      }
      var payload := WithoutPrefix(line, "data: ");
      if payload == "[DONE]" {
        events := events + [BARE_STOP];
        continue;
      }
      var parsed := UnmarshalMap(codec, payload);
      if parsed.None? {
        BrokenStaysBroken(codec, kind, lines, i + 1);
        return Broken(|events| > 0);
      }
      if kind == Responses {
        var responseEvents := DecodeResponsesEvent(parsed.value);
        events := events + responseEvents;
        continue;
      }
      var chatEvents := DecodeChatEvent(parsed.value);
      events := events + chatEvents;
    }
    assert lines[..|lines|] == lines;
    if readFails {
      return Broken(|events| > 0);
    }
    return Decoded(events);
  }
}

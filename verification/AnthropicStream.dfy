/** The decoder of Anthropic event streams: a fold over lines that remembers the current event name, the
    current tool and the pending stop reason. */
module AnthropicStream {
  import opened Sequences
  import opened Config
  import opened Json
  import opened Lines
  import opened Events

  datatype Tool = Tool(id: string, name: string)

  const NO_TOOL := Tool("", "")

  datatype Decoder = Decoder(event: string, tool: Tool, stopReason: string, events: seq<Event>)

  const START := Decoder("", NO_TOOL, "", [])

  datatype Result = Running(decoder: Decoder) | Failed(outputCommitted: bool)

  /** What a line says, given the name of the event it belongs to. */
  datatype Signal =
    | Name(name: string)
    | Usage(data: Object)
    | ToolUse(tool: Tool)
    | Arguments(json: string)
    | Text(text: string)
    | Closing(reason: string, data: Object)
    | Stop
    | Nothing
    | Malformed

  // Payloads, as the typed structs of the source read them

  function ReadStart(o: Object): Signal {
    match ObjectField(o, "message")
    case None => Malformed
    case Some(message) =>
      match ObjectField(message, "usage")
      case None => Malformed
      case Some(usage) => Usage(usage)
  }

  function ReadBlock(o: Object): Signal {
    match ObjectField(o, "content_block")
    case None => Malformed
    case Some(b) =>
      match (StringField(b, "type"), StringField(b, "id"), StringField(b, "name"))
      case (Some(t), Some(id), Some(name)) => if t == "tool_use" then ToolUse(Tool(id, name)) else Nothing
      case _ => Malformed
  }

  function ReadDelta(o: Object): Signal {
    match ObjectField(o, "delta")
    case None => Malformed
    case Some(d) =>
      match (StringField(d, "text"), StringField(d, "partial_json"))
      case (Some(text), Some(partial)) => if partial != "" then Arguments(partial) else Text(text)
      case _ => Malformed
  }

  function ReadClosing(o: Object): Signal {
    match (ObjectField(o, "delta"), ObjectField(o, "usage"))
    case (Some(d), Some(usage)) =>
      (match StringField(d, "stop_reason")
       case Some(reason) => Closing(reason, usage)
       case None => Malformed)
    case _ => Malformed
  }

  function ReadPayload(event: string, o: Object): Signal {
    if event == "message_start" then ReadStart(o)
    else if event == "content_block_start" then ReadBlock(o)
    else if event == "content_block_delta" then ReadDelta(o)
    else if event == "message_delta" then ReadClosing(o)
    else Nothing
  }

  predicate HasPayload(event: string) {
    event in {"message_start", "content_block_start", "content_block_delta", "message_delta"}
  }

  function Interpret(codec: Codec, event: string, rawLine: string): Signal {
    var line := TrimSpace(rawLine);
    if "event: " <= line then Name(WithoutPrefix(line, "event: "))
    else if !("data: " <= line) then Nothing
    else if event == "message_stop" then Stop
    else if !HasPayload(event) then Nothing
    else
      match UnmarshalMap(codec, WithoutPrefix(line, "data: "))
      case None => Malformed
      case Some(o) => ReadPayload(event, o)
  }

  function ToolStart(tool: Tool): Event {
    Event(ToolCallStart, map["id" := Str(tool.id), "name" := Str(tool.name)])
  }

  function ToolDelta(tool: Tool, arguments: string): Event {
    Event(ToolCallDelta, map["id" := Str(tool.id), "name" := Str(tool.name), "arguments" := Str(arguments)])
  }

  function TextDelta(kind: EndpointKind, text: string): Event {
    if kind == Responses then ResponsesDelta(text) else ChatDelta(CHUNK, text)
  }

  function Finish(reason: string): Event {
    Event(MessageStop, map["stop_reason" := Str(reason)])
  }

  /** The events one signal adds to the output. */
  function Output(kind: EndpointKind, d: Decoder, s: Signal): seq<Event> {
    match s
    case Usage(data) => UsageEvents(data)
    case ToolUse(tool) => [ToolStart(tool)]
    case Arguments(json) => [ToolDelta(d.tool, json)]
    case Text(text) => [TextDelta(kind, text)]
    case Closing(_, data) => UsageEvents(data)
    case Stop => (if d.stopReason != "" then [Finish(d.stopReason)] else []) + [BARE_STOP]
    case _ => []
  }

  function Apply(kind: EndpointKind, d: Decoder, s: Signal): Decoder {
    Decoder(
      if s.Name? then s.name else d.event,
      if s.ToolUse? then s.tool else d.tool,
      if s.Stop? then "" else if s.Closing? && s.reason != "" then s.reason else d.stopReason,
      d.events + Output(kind, d, s))
  }

  function OnLine(codec: Codec, kind: EndpointKind, d: Decoder, rawLine: string): Result {
    var s := Interpret(codec, d.event, rawLine);
    if s.Malformed? then Failed(d.events != []) else Running(Apply(kind, d, s))
  }

  function Decode(codec: Codec, kind: EndpointKind, d: Decoder, lines: seq<string>): Result {
    if lines == [] then Running(d)
    else
      match Decode(codec, kind, d, lines[..|lines| - 1])
      case Failed(c) => Failed(c)
      case Running(e) => OnLine(codec, kind, e, lines[|lines| - 1])
  }

  function DecodeBody(codec: Codec, kind: EndpointKind, body: string, readFails: bool): DecodeResult {
    match Decode(codec, kind, START, ScanLines(body))
    case Running(d) => if readFails then BreakAfter(d.events) else Decoded(d.events)
    case Failed(c) => Broken(c)
  }

  /** Decoding composes over any split of the lines. */
  lemma {:induction false} DecodeConcat(codec: Codec, kind: EndpointKind, d: Decoder, a: seq<string>, b: seq<string>)
    ensures Decode(codec, kind, d, a + b)
         == match Decode(codec, kind, d, a)
            case Failed(c) => Failed(c)
            case Running(e) => Decode(codec, kind, e, b)
  {
    if b == [] {
      assert a + b == a;
    } else {
      assert (a + b)[..|a + b| - 1] == a + b[..|b| - 1];
      DecodeConcat(codec, kind, d, a, b[..|b| - 1]);
    }
  }

  lemma FailedStaysFailed(codec: Codec, kind: EndpointKind, lines: seq<string>, i: nat)
    requires i <= |lines| && Decode(codec, kind, START, lines[..i]).Failed?
    ensures Decode(codec, kind, START, lines) == Decode(codec, kind, START, lines[..i])
  {
    assert lines[..i] + lines[i..] == lines;
    DecodeConcat(codec, kind, START, lines[..i], lines[i..]);
  }

  /** A stream fails at one line, after a prefix that decoded; the output counts as committed exactly when that
      prefix produced an event. */
  lemma {:induction false} CommittedIffOutput(codec: Codec, kind: EndpointKind, lines: seq<string>)
    returns (i: nat, before: Decoder)
    requires Decode(codec, kind, START, lines).Failed?
    ensures i < |lines| && Decode(codec, kind, START, lines[..i]) == Running(before)
    ensures Interpret(codec, before.event, lines[i]).Malformed?
    ensures Decode(codec, kind, START, lines).outputCommitted <==> before.events != []
  {
    var front := lines[..|lines| - 1];
    if Decode(codec, kind, START, front).Failed? {
      i, before := CommittedIffOutput(codec, kind, front);
      assert front[..i] == lines[..i];
    } else {
      i, before := |lines| - 1, Decode(codec, kind, START, front).decoder;
    }
  }

  lemma DecodeNext(codec: Codec, kind: EndpointKind, lines: seq<string>, i: nat)
    requires i < |lines| && Decode(codec, kind, START, lines[..i]).Running?
    ensures Decode(codec, kind, START, lines[..i + 1])
         == OnLine(codec, kind, Decode(codec, kind, START, lines[..i]).decoder, lines[i])
  {
    assert lines[..i + 1][..i] == lines[..i];
  }

  method DecodeStream(codec: Codec, kind: EndpointKind, body: string, readFails: bool) returns (r: DecodeResult)
    ensures r == DecodeBody(codec, kind, body, readFails)
  {
    var lines := ScanLines(body);
    var decoder := new StreamDecoder(kind);
    for i := 0 to |lines|
      invariant Decode(codec, kind, START, lines[..i]) == Running(decoder.Value())
    {
      DecodeNext(codec, kind, lines, i);
      var s := Interpret(codec, decoder.currentEvent, lines[i]);
      if s.Malformed? {
        FailedStaysFailed(codec, kind, lines, i + 1);
        return Broken(|decoder.events| > 0);
      }
      decoder.Take(s);
    }
    assert lines[..|lines|] == lines;
    if readFails {
      return Broken(|decoder.events| > 0);
    }
    return Decoded(decoder.events);
  }

  /** The variables of the decoding loop. */
  class StreamDecoder {
    const kind: EndpointKind
    var events: seq<Event>
    var currentEvent: string
    var currentToolName: string
    var currentToolID: string
    var currentStopReason: string

    function Value(): Decoder
      reads this
    {
      Decoder(currentEvent, Tool(currentToolID, currentToolName), currentStopReason, events)
    }

    constructor (kind: EndpointKind)
      ensures this.kind == kind && Value() == START
    {
      this.kind, events := kind, [];
      currentEvent, currentToolName, currentToolID, currentStopReason := "", "", "", "";
    }

    method Take(s: Signal)
      requires !s.Malformed?
      modifies this
      ensures Value() == Apply(kind, old(Value()), s)
    {
      match s {
        case Name(name) =>
          currentEvent := name;
        case Usage(data) =>
          events := events + UsageEvents(data);
        case ToolUse(tool) =>
          currentToolName := tool.name;
          currentToolID := tool.id;
          events := events + [ToolStart(Tool(currentToolID, currentToolName))];
        case Arguments(json) =>
          events := events + [ToolDelta(Tool(currentToolID, currentToolName), json)];
        case Text(text) =>
          var delta := ChatDelta(CHUNK, text);
          if kind == Responses {
            delta := ResponsesDelta(text);
          }
          events := events + [delta];
        case Closing(reason, data) =>
          if reason != "" {
            currentStopReason := reason;
          }
          events := events + UsageEvents(data);
        case Stop =>
          if currentStopReason != "" {
            events := events + [Finish(currentStopReason)];
            currentStopReason := "";
          }
          events := events + [BARE_STOP];
        case Nothing =>
      }
    }
  }

  // Attribution, looking back over the output

  /** The tool of the last tool start. */
  function LastTool(events: seq<Event>): Tool {
    if events == [] then NO_TOOL
    else
      var last := events[|events| - 1];
      if last.kind == ToolCallStart then Tool(StringAt(last.data, "id"), StringAt(last.data, "name"))
      else LastTool(events[..|events| - 1])
  }

  ghost predicate AttributedTo(e: Event, before: seq<Event>) {
    e.kind == ToolCallDelta ==> exists arguments :: arguments != "" && e == ToolDelta(LastTool(before), arguments)
  }

  /** Every tool delta carries the id and name of the nearest tool start before it. */
  ghost predicate ToolsAttributed(events: seq<Event>) {
    forall i :: 0 <= i < |events| ==> AttributedTo(events[i], events[..i])
  }

  lemma AppendAttributed(events: seq<Event>, e: Event)
    requires ToolsAttributed(events) && AttributedTo(e, events)
    ensures ToolsAttributed(events + [e])
    ensures LastTool(events + [e])
         == if e.kind == ToolCallStart then Tool(StringAt(e.data, "id"), StringAt(e.data, "name")) else LastTool(events)
  {
    var all := events + [e];
    assert all[..|all| - 1] == events;
    forall i | 0 <= i < |all|
      ensures AttributedTo(all[i], all[..i])
    {
      if i < |events| {
        assert AttributedTo(events[i], events[..i]) && all[..i] == events[..i];
      }
    }
  }

  ghost predicate ToolInvariant(d: Decoder) {
    d.tool == LastTool(d.events) && ToolsAttributed(d.events)
  }

  /** Events of other kinds leave the tools alone. */
  lemma {:induction false} AppendOthers(events: seq<Event>, more: seq<Event>)
    requires ToolsAttributed(events)
    requires forall e :: e in more ==> e.kind != ToolCallStart && e.kind != ToolCallDelta
    ensures ToolsAttributed(events + more) && LastTool(events + more) == LastTool(events)
  {
    if more == [] {
      AppendEmpty(events);
    } else {
      var front, last := more[..|more| - 1], more[|more| - 1];
      AppendOthers(events, front);
      AppendAttributed(events + front, last);
      FrontAndLast(more);
      Associative(events, front, [last]);
    }
  }

  lemma OthersOutput(kind: EndpointKind, d: Decoder, s: Signal)
    requires !s.ToolUse? && !s.Arguments?
    ensures forall e :: e in Output(kind, d, s) ==> e.kind != ToolCallStart && e.kind != ToolCallDelta
  {
  }

  lemma ToolUseKeepsTools(kind: EndpointKind, d: Decoder, tool: Tool)
    requires ToolInvariant(d)
    ensures ToolInvariant(Apply(kind, d, ToolUse(tool)))
  {
    AppendAttributed(d.events, ToolStart(tool));
  }

  lemma ArgumentsKeepTools(kind: EndpointKind, d: Decoder, json: string)
    requires ToolInvariant(d) && json != ""
    ensures ToolInvariant(Apply(kind, d, Arguments(json)))
  {
    assert AttributedTo(ToolDelta(d.tool, json), d.events);
    AppendAttributed(d.events, ToolDelta(d.tool, json));
  }

  lemma OthersKeepTools(kind: EndpointKind, d: Decoder, s: Signal)
    requires ToolInvariant(d) && !s.ToolUse? && !s.Arguments?
    ensures ToolInvariant(Apply(kind, d, s))
  {
    OthersOutput(kind, d, s);
    AppendOthers(d.events, Output(kind, d, s));
  }

  lemma SignalKeepsTools(kind: EndpointKind, d: Decoder, s: Signal)
    requires ToolInvariant(d) && (s.Arguments? ==> s.json != "")
    ensures ToolInvariant(Apply(kind, d, s))
  {
    if s.ToolUse? {
      ToolUseKeepsTools(kind, d, s.tool);
    } else if s.Arguments? {
      ArgumentsKeepTools(kind, d, s.json);
    } else {
      OthersKeepTools(kind, d, s);
    }
  }

  lemma ArgumentsAreNotEmpty(codec: Codec, event: string, line: string)
    ensures Interpret(codec, event, line).Arguments? ==> Interpret(codec, event, line).json != ""
  {
  }

  lemma {:induction false} ToolDeltasAreAttributed(codec: Codec, kind: EndpointKind, lines: seq<string>)
    requires Decode(codec, kind, START, lines).Running?
    ensures ToolInvariant(Decode(codec, kind, START, lines).decoder)
  {
    if lines != [] {
      var front, line := lines[..|lines| - 1], lines[|lines| - 1];
      ToolDeltasAreAttributed(codec, kind, front);
      var d := Decode(codec, kind, START, front).decoder;
      ArgumentsAreNotEmpty(codec, d.event, line);
      SignalKeepsTools(kind, d, Interpret(codec, d.event, line));
    }
  }

  // Stops and text, looking back over the lines

  /** The name on the last event line. */
  function EventName(lines: seq<string>): string {
    if lines == [] then ""
    else
      var line := TrimSpace(lines[|lines| - 1]);
      if "event: " <= line then WithoutPrefix(line, "event: ") else EventName(lines[..|lines| - 1])
  }

  /** What every line says, each under the last event name before it. */
  function Signals(codec: Codec, lines: seq<string>): seq<Signal> {
    if lines == [] then []
    else
      var front := lines[..|lines| - 1];
      Signals(codec, front) + [Interpret(codec, EventName(front), lines[|lines| - 1])]
  }

  /** The last non-empty stop reason since the last stop. */
  function PendingReason(signals: seq<Signal>): string {
    if signals == [] then ""
    else
      var last := signals[|signals| - 1];
      if last.Stop? then ""
      else if last.Closing? && last.reason != "" then last.reason
      else PendingReason(signals[..|signals| - 1])
  }

  /** One finish event, if a reason is pending, and one bare stop for every stop. */
  function ExpectedStops(signals: seq<Signal>): seq<Event> {
    if signals == [] then []
    else
      var front := signals[..|signals| - 1];
      ExpectedStops(front) +
      if !signals[|signals| - 1].Stop? then []
      else if PendingReason(front) == "" then [BARE_STOP]
      else [Finish(PendingReason(front)), BARE_STOP]
  }

  function ExpectedText(signals: seq<Signal>): string {
    if signals == [] then ""
    else
      var last := signals[|signals| - 1];
      ExpectedText(signals[..|signals| - 1]) + if last.Text? then last.text else ""
  }

  function Stops(events: seq<Event>): seq<Event> {
    if events == [] then []
    else
      var last := events[|events| - 1];
      Stops(events[..|events| - 1]) + if last.kind == MessageStop then [last] else []
  }

  function EventText(e: Event): string {
    if e.kind != ContentDelta then ""
    else if "text" in e.data then StringAt(e.data, "text")
    else StringAt(e.data, "delta")
  }

  function OutputText(events: seq<Event>): string {
    if events == [] then "" else OutputText(events[..|events| - 1]) + EventText(events[|events| - 1])
  }

  lemma {:induction false} StopsAppend(a: seq<Event>, b: seq<Event>)
    ensures Stops(a + b) == Stops(a) + Stops(b)
  {
    if b == [] {
      AppendEmpty(a);
      AppendEmpty(Stops(a));
    } else {
      FrontOfAppend(a, b);
      StopsAppend(a, b[..|b| - 1]);
      Associative(Stops(a), Stops(b[..|b| - 1]), if b[|b| - 1].kind == MessageStop then [b[|b| - 1]] else []);
    }
  }

  lemma {:induction false} OutputTextAppend(a: seq<Event>, b: seq<Event>)
    ensures OutputText(a + b) == OutputText(a) + OutputText(b)
  {
    if b == [] {
      AppendEmpty(a);
      AppendEmpty(OutputText(a));
    } else {
      FrontOfAppend(a, b);
      OutputTextAppend(a, b[..|b| - 1]);
      Associative(OutputText(a), OutputText(b[..|b| - 1]), EventText(b[|b| - 1]));
    }
  }

  /** In the output every finish event is immediately followed by a bare stop. */
  ghost predicate FinishThenStop(events: seq<Event>) {
    forall i :: 0 <= i < |events| && events[i].kind == MessageStop && "stop_reason" in events[i].data ==>
      i + 1 < |events| && events[i + 1] == BARE_STOP
  }

  lemma FinishThenStopAppend(a: seq<Event>, b: seq<Event>)
    requires FinishThenStop(a) && FinishThenStop(b)
    ensures FinishThenStop(a + b)
  {
    var all := a + b;
    forall i | 0 <= i < |all| && all[i].kind == MessageStop && "stop_reason" in all[i].data
      ensures i + 1 < |all| && all[i + 1] == BARE_STOP
    {
      if i < |a| {
        assert all[i] == a[i] && all[i + 1] == a[i + 1];
      } else {
        assert all[i] == b[i - |a|] && all[i + 1] == b[i - |a| + 1];
      }
    }
  }

  lemma OutputFinishesThenStops(kind: EndpointKind, d: Decoder, s: Signal)
    ensures FinishThenStop(Output(kind, d, s))
  {
  }

  ghost predicate TraceInvariant(kind: EndpointKind, d: Decoder, signals: seq<Signal>) {
    && d.stopReason == PendingReason(signals)
    && Stops(d.events) == ExpectedStops(signals)
    && FinishThenStop(d.events)
    && OutputText(d.events) == ExpectedText(signals)
    && (kind == Responses ==> ResponsesShaped(d.events))
  }

  lemma OneEvent(e: Event)
    ensures Stops([e]) == (if e.kind == MessageStop then [e] else []) && OutputText([e]) == EventText(e)
  {
    assert [e][..0] == [];
    AppendEmpty(if e.kind == MessageStop then [e] else []);
    AppendEmpty(EventText(e));
  }

  lemma TwoStops(e: Event, f: Event)
    requires e.kind == f.kind == MessageStop
    ensures Stops([e, f]) == [e, f] && OutputText([e, f]) == ""
  {
    OneEvent(e);
    assert [e, f][..1] == [e] && [e, f][1] == f;
    AppendEmpty("");
  }

  lemma StopOutput(kind: EndpointKind, d: Decoder)
    ensures Stops(Output(kind, d, Stop)) == if d.stopReason == "" then [BARE_STOP] else [Finish(d.stopReason), BARE_STOP]
    ensures OutputText(Output(kind, d, Stop)) == ""
  {
    if d.stopReason == "" {
      AppendEmpty([BARE_STOP]);
      OneEvent(BARE_STOP);
    } else {
      var e := Finish(d.stopReason);
      assert [e] + [BARE_STOP] == [e, BARE_STOP];
      TwoStops(e, BARE_STOP);
    }
  }

  lemma OutputOfSignal(kind: EndpointKind, d: Decoder, s: Signal)
    ensures Stops(Output(kind, d, s))
         == if !s.Stop? then [] else if d.stopReason == "" then [BARE_STOP] else [Finish(d.stopReason), BARE_STOP]
    ensures OutputText(Output(kind, d, s)) == if s.Text? then s.text else ""
  {
    if s.Stop? {
      StopOutput(kind, d);
    } else if Output(kind, d, s) != [] {
      var e := Output(kind, d, s)[0];
      assert Output(kind, d, s) == [e];
      OneEvent(e);
    }
  }

  lemma OutputIsShaped(d: Decoder, s: Signal)
    ensures ResponsesShaped(Output(Responses, d, s))
  {
  }

  lemma ExpectationsAfter(signals: seq<Signal>, s: Signal)
    ensures PendingReason(signals + [s])
         == if s.Stop? then "" else if s.Closing? && s.reason != "" then s.reason else PendingReason(signals)
    ensures ExpectedStops(signals + [s])
         == ExpectedStops(signals) +
            if !s.Stop? then []
            else if PendingReason(signals) == "" then [BARE_STOP]
            else [Finish(PendingReason(signals)), BARE_STOP]
    ensures ExpectedText(signals + [s]) == ExpectedText(signals) + if s.Text? then s.text else ""
  {
    FrontOfAppend(signals, [s]);
    AppendEmpty(signals);
    assert [s][..0] == [];
  }

  lemma ShapedAppend(a: seq<Event>, b: seq<Event>)
    requires ResponsesShaped(a) && ResponsesShaped(b)
    ensures ResponsesShaped(a + b)
  {
  }

  lemma SignalKeepsTrace(kind: EndpointKind, d: Decoder, signals: seq<Signal>, s: Signal)
    requires TraceInvariant(kind, d, signals)
    ensures TraceInvariant(kind, Apply(kind, d, s), signals + [s])
  {
    var out := Output(kind, d, s);
    ExpectationsAfter(signals, s);
    OutputOfSignal(kind, d, s);
    StopsAppend(d.events, out);
    OutputTextAppend(d.events, out);
    OutputFinishesThenStops(kind, d, s);
    FinishThenStopAppend(d.events, out);
    if kind == Responses {
      OutputIsShaped(d, s);
      ShapedAppend(d.events, out);
    }
  }

  lemma OnlyEventLinesName(codec: Codec, event: string, rawLine: string)
    ensures var line, s := TrimSpace(rawLine), Interpret(codec, event, rawLine);
            if "event: " <= line then s == Name(WithoutPrefix(line, "event: ")) else !s.Name?
  {
  }

  lemma {:induction false} EventNameIsRemembered(codec: Codec, kind: EndpointKind, lines: seq<string>)
    requires Decode(codec, kind, START, lines).Running?
    ensures Decode(codec, kind, START, lines).decoder.event == EventName(lines)
  {
    if lines != [] {
      var front, line := lines[..|lines| - 1], lines[|lines| - 1];
      EventNameIsRemembered(codec, kind, front);
      OnlyEventLinesName(codec, EventName(front), line);
    }
  }

  /** For every line sequence that decodes: the stop events are exactly the expected ones, each finish event
      carrying the last reason since the previous stop and, in the output itself, immediately followed by a bare
      stop; the text is the text deltas
      in order; and content deltas for the responses endpoint have their shape. */
  lemma {:induction false} OutputMatchesTheLines(codec: Codec, kind: EndpointKind, lines: seq<string>)
    requires Decode(codec, kind, START, lines).Running?
    ensures TraceInvariant(kind, Decode(codec, kind, START, lines).decoder, Signals(codec, lines))
  {
    if lines != [] {
      var front, line := lines[..|lines| - 1], lines[|lines| - 1];
      OutputMatchesTheLines(codec, kind, front);
      EventNameIsRemembered(codec, kind, front);
      var d := Decode(codec, kind, START, front).decoder;
      SignalKeepsTrace(kind, d, Signals(codec, front), Interpret(codec, d.event, line));
    }
  }
}

/** Decoding what the chat encoder sends upstream gives back the request it was given. */
module ChatRoundTrip {
  import opened Sequences
  import opened Config
  import opened Json
  import opened Events
  import opened Canonical
  import opened ChatCodec

  // What every decoded request satisfies

  ghost predicate WellFormed(parse: UrlParser, r: Request) {
    && r.kind == ChatCompletions && r.metadata == map[]
    && (forall t :: t in r.conversation ==> ImagesValid(parse, t))
    && (r.generation.maxOutputTokens.Some? ==> INT_MIN <= r.generation.maxOutputTokens.value <= INT_MAX)
  }

  lemma {:induction false} DecodedItemsAreValid(parse: UrlParser, rawRole: string, role: Role, items: seq<Object>)
    requires DecodeItems(parse, rawRole, role, items).Ok?
    ensures ImagesValid(parse, Turn(role, DecodeItems(parse, rawRole, role, items).value))
  {
    if items != [] {
      DecodedItemsAreValid(parse, rawRole, role, items[..|items| - 1]);
    }
  }

  lemma {:induction false} DecodedTurnsAreValid(parse: UrlParser, messages: seq<ChatMessage>)
    requires DecodeMessages(parse, messages).Ok?
    ensures forall t :: t in DecodeMessages(parse, messages).value ==> ImagesValid(parse, t)
  {
    if messages != [] {
      var m := messages[|messages| - 1];
      DecodedTurnsAreValid(parse, messages[..|messages| - 1]);
      if m.content.Some? && m.content.value.Arr? {
        DecodedItemsAreValid(parse, m.role, NormalizeRole(m.role), ObjectsOf(m.content.value.items).value);
      }
    }
  }

  lemma DecodedIsWellFormed(parse: UrlParser, body: Option<Json>)
    requires Decode(parse, body).Ok?
    ensures WellFormed(parse, Decode(parse, body).value)
  {
    var req := ParseRequest(body.value).value;
    DecodedTurnsAreValid(parse, req.messages);
  }

  // Content

  function BlockObject(b: ContentBlock): Object {
    EncodeBlock(b).fields
  }

  function BlockObjects(blocks: seq<ContentBlock>): seq<Object> {
    seq(|blocks|, i requires 0 <= i < |blocks| => BlockObject(blocks[i]))
  }

  lemma {:induction false} ObjectsOfBlocks(blocks: seq<ContentBlock>)
    ensures ObjectsOf(EncodeBlocks(blocks)) == Some(BlockObjects(blocks))
  {
    if blocks == [] {
      assert EncodeBlocks(blocks) == [] && BlockObjects(blocks) == [];
    } else {
      var front := blocks[..|blocks| - 1];
      assert EncodeBlocks(blocks)[..|blocks| - 1] == EncodeBlocks(front);
      ObjectsOfBlocks(front);
      assert BlockObjects(blocks) == BlockObjects(front) + [BlockObject(blocks[|blocks| - 1])];
    }
  }

  lemma TextIsNotImageLike(text: string)
    ensures !IsImageLike(BlockObject(TextBlock(text)))
  {
    var o := BlockObject(TextBlock(text));
    assert o == map["type" := Str("text"), "text" := Str(text)];
    PlainItemIsNotImageLike(o, "text");
  }

  lemma ImageURLRoundTrip(url: string)
    ensures ImageURLOf(BlockObject(ImageBlock(url))) == Ok(url)
  {
    var o := BlockObject(ImageBlock(url));
    assert o == map["type" := Str("image_url"), "image_url" := Obj(map["url" := Str(url)])];
    assert OnlyKeys(o, {"type", "image_url"}) && OnlyKeys(o["image_url"].fields, {"url"});
  }

  lemma BlockRoundTrip(parse: UrlParser, role: Role, b: ContentBlock)
    requires b.ImageBlock? ==> role == UserRole && ImageURLError(parse, b.url) == None
    ensures DecodeItem(parse, RoleName(role), role, BlockObject(b)) == Ok(b)
  {
    match b
    case TextBlock(text) =>
      TextIsNotImageLike(text);
      assert ValueAt(BlockObject(b), "text") == Str(text) && StringAt(BlockObject(b), "type") == "text";
    case ImageBlock(url) =>
      ImageURLRoundTrip(url);
      assert StringAt(BlockObject(b), "type") == "image_url" && |"text"| != |"image_url"|;
  }

  lemma {:induction false} BlocksRoundTrip(parse: UrlParser, role: Role, blocks: seq<ContentBlock>)
    requires ImagesValid(parse, Turn(role, blocks))
    ensures DecodeItems(parse, RoleName(role), role, BlockObjects(blocks)) == Ok(blocks)
  {
    if blocks == [] {
      assert BlockObjects(blocks) == [];
    } else {
      var front, last := blocks[..|blocks| - 1], blocks[|blocks| - 1];
      FrontAndLast(blocks);
      assert BlockObjects(blocks)[..|blocks| - 1] == BlockObjects(front);
      BlocksRoundTrip(parse, role, front);
      BlockRoundTrip(parse, role, last);
    }
  }

  lemma ContentRoundTrip(parse: UrlParser, role: Role, blocks: seq<ContentBlock>)
    requires ImagesValid(parse, Turn(role, blocks))
    ensures DecodeContent(parse, Some(EncodeContent(blocks)), RoleName(role), role) == Ok(blocks)
  {
    if |blocks| == 1 && blocks[0].TextBlock? {
      assert blocks == [TextBlock(blocks[0].text)];
    } else {
      assert EncodeContent(blocks) == Arr(EncodeBlocks(blocks));
      assert ObjectsOf(EncodeBlocks(blocks)) == Some(BlockObjects(blocks)) by {
        ObjectsOfBlocks(blocks);
      }
      assert DecodeItems(parse, RoleName(role), role, BlockObjects(blocks)) == Ok(blocks) by {
        BlocksRoundTrip(parse, role, blocks);
      }
    }
  }

  function TurnMessage(t: Turn): ChatMessage {
    ChatMessage(RoleName(t.role), Some(EncodeContent(t.content)))
  }

  function TurnMessages(turns: seq<Turn>): seq<ChatMessage> {
    seq(|turns|, i requires 0 <= i < |turns| => TurnMessage(turns[i]))
  }

  lemma TurnParses(t: Turn)
    ensures ParseMessage(EncodeTurn(t)) == Some(TurnMessage(t))
  {
    var o := EncodeTurn(t).fields;
    assert StringField(o, "role") == Some(RoleName(t.role));
    assert o["content"] == EncodeContent(t.content);
  }

  lemma TurnDecodes(parse: UrlParser, t: Turn)
    requires ImagesValid(parse, t)
    ensures DecodeMessage(parse, TurnMessage(t)) == Ok(t)
  {
    ContentRoundTrip(parse, t.role, t.content);
    assert NormalizeRole(RoleName(t.role)) == t.role;
  }

  lemma {:induction false} TurnsParse(turns: seq<Turn>)
    ensures ParseMessages(EncodeTurns(turns)) == Some(TurnMessages(turns))
  {
    if turns == [] {
      assert EncodeTurns(turns) == [] && TurnMessages(turns) == [];
    } else {
      var front, last := turns[..|turns| - 1], turns[|turns| - 1];
      TurnsParse(front);
      TurnParses(last);
      assert EncodeTurns(turns)[..|turns| - 1] == EncodeTurns(front);
      assert TurnMessages(turns) == TurnMessages(front) + [TurnMessage(last)];
    }
  }

  lemma {:induction false} TurnsDecode(parse: UrlParser, turns: seq<Turn>)
    requires forall t :: t in turns ==> ImagesValid(parse, t)
    ensures DecodeMessages(parse, TurnMessages(turns)) == Ok(turns)
  {
    if turns == [] {
      assert TurnMessages(turns) == [];
    } else {
      var front, last := turns[..|turns| - 1], turns[|turns| - 1];
      FrontAndLast(turns);
      TurnsDecode(parse, front);
      TurnDecodes(parse, last);
      assert TurnMessages(turns)[..|turns| - 1] == TurnMessages(front);
    }
  }

  // Tools and stops

  function ToolOf(t: Tool): ChatTool {
    ChatTool("function", Some(ToolFunction(t.name, t.schema)))
  }

  function ToolsOf(tools: seq<Tool>): seq<ChatTool> {
    seq(|tools|, i requires 0 <= i < |tools| => ToolOf(tools[i]))
  }

  lemma ToolRoundTrip(t: Tool)
    ensures ParseTool(EncodeTool(t)) == Some(ToolOf(t))
  {
    var f := map["name" := Str(t.name), "parameters" := SchemaValue(t.schema)];
    assert ParseFunction(Obj(f)) == Some(Some(ToolFunction(t.name, t.schema)));
  }

  lemma {:induction false} ToolsParse(tools: seq<Tool>)
    ensures ParseTools(EncodeTools(tools)) == Some(ToolsOf(tools))
  {
    var items := EncodeTools(tools);
    if tools == [] {
      assert items == [] && ToolsOf(tools) == [];
    } else {
      var front, last := tools[..|tools| - 1], tools[|tools| - 1];
      ToolsParse(front);
      assert items[..|items| - 1] == EncodeTools(front) && items[|items| - 1] == EncodeTool(last);
      assert ParseTool(items[|items| - 1]) == Some(ToolOf(last)) by {
        ToolRoundTrip(last);
      }
      assert ToolsOf(tools) == ToolsOf(front) + [ToolOf(last)];
    }
  }

  lemma {:induction false} ToolsDecode(tools: seq<Tool>)
    ensures DecodeTools(ToolsOf(tools)) == tools
  {
    if tools == [] {
      assert ToolsOf(tools) == [];
    } else {
      var front, last := tools[..|tools| - 1], tools[|tools| - 1];
      ToolsDecode(front);
      assert ToolsOf(tools)[..|tools| - 1] == ToolsOf(front);
      assert front + [last] == tools;
    }
  }

  lemma {:induction false} StringsRoundTrip(texts: seq<string>)
    ensures StringsOf(EncodeStrings(texts)) == Some(texts)
  {
    if texts == [] {
      assert EncodeStrings(texts) == [];
    } else {
      StringsRoundTrip(texts[..|texts| - 1]);
      assert texts[..|texts| - 1] + [texts[|texts| - 1]] == texts;
      assert EncodeStrings(texts)[..|texts| - 1] == EncodeStrings(texts[..|texts| - 1]);
    }
  }

  // The request

  /** The typed request the payload parses to. */
  function EncodedRequest(r: Request): ChatRequest {
    ChatRequest(r.model, TurnMessages(r.conversation), true, r.generation.temperature, r.generation.topP, None,
                r.generation.maxOutputTokens,
                if r.generation.stop == [] then None else Some(Arr(EncodeStrings(r.generation.stop))),
                ToolsOf(r.tools),
                if r.toolChoice == "" then None else Some(NamedFunction(r.toolChoice)), None)
  }

  /** The payload has these fields and no others. */
  function PayloadField(r: Request, key: string): Option<Json> {
    var g := r.generation;
    if key == "model" then Some(Str(r.model))
    else if key == "stream" then Some(Bool(true))
    else if key == "messages" then Some(Arr(EncodeTurns(r.conversation)))
    else if key == "stream_options" then Some(Obj(map["include_usage" := Bool(true)]))
    else if key == "temperature" && g.temperature.Some? then Some(Num(g.temperature.value))
    else if key == "top_p" && g.topP.Some? then Some(Num(g.topP.value))
    else if key == "max_completion_tokens" && g.maxOutputTokens.Some? then Some(Num(Decimal(g.maxOutputTokens.value, 0)))
    else if key == "stop" && g.stop != [] then Some(Arr(EncodeStrings(g.stop)))
    else if key == "tools" && r.tools != [] then Some(Arr(EncodeTools(r.tools)))
    else if key == "tool_choice" && r.toolChoice != "" then Some(NamedFunction(r.toolChoice))
    else None
  }

  lemma PutField(o: Object, present: bool, key: string, value: Json, other: string)
    ensures RawField(Put(o, present, key, value), other)
         == if present && other == key then Some(value) else RawField(o, other)
  {
  }

  lemma GenerationFields(o: Object, g: Generation, key: string)
    ensures RawField(PutGeneration(o, g), key)
         == if key == "temperature" && g.temperature.Some? then Some(Num(g.temperature.value))
            else if key == "top_p" && g.topP.Some? then Some(Num(g.topP.value))
            else if key == "max_completion_tokens" && g.maxOutputTokens.Some? then Some(Num(Decimal(g.maxOutputTokens.value, 0)))
            else if key == "stop" && g.stop != [] then Some(Arr(EncodeStrings(g.stop)))
            else RawField(o, key)
  {
    var a := Put(o, g.temperature.Some?, "temperature", NumberOf(g.temperature));
    var b := Put(a, g.topP.Some?, "top_p", NumberOf(g.topP));
    var c := Put(b, g.maxOutputTokens.Some?, "max_completion_tokens", IntegerOf(g.maxOutputTokens));
    PutField(c, g.stop != [], "stop", Arr(EncodeStrings(g.stop)), key);
    PutField(b, g.maxOutputTokens.Some?, "max_completion_tokens", IntegerOf(g.maxOutputTokens), key);
    PutField(a, g.topP.Some?, "top_p", NumberOf(g.topP), key);
    PutField(o, g.temperature.Some?, "temperature", NumberOf(g.temperature), key);
  }

  lemma PayloadFields(r: Request, key: string)
    ensures RawField(Encode(r), key) == PayloadField(r, key)
  {
    var base: Object :=
      map["model" := Str(r.model), "stream" := Bool(true), "messages" := Arr(EncodeTurns(r.conversation)),
          "stream_options" := Obj(map["include_usage" := Bool(true)])];
    var a := PutGeneration(base, r.generation);
    var b := Put(a, r.tools != [], "tools", Arr(EncodeTools(r.tools)));
    PutField(b, r.toolChoice != "", "tool_choice", NamedFunction(r.toolChoice), key);
    PutField(a, r.tools != [], "tools", Arr(EncodeTools(r.tools)), key);
    GenerationFields(base, r.generation, key);
  }

  ghost predicate IsPayload(o: Object, r: Request) {
    forall key :: RawField(o, key) == PayloadField(r, key)
  }

  lemma ParsedParts(o: Object, r: Request)
    requires IsPayload(o, r)
    ensures && StringField(o, "model") == Some(r.model)
            && ListField(o, "messages") == Some(EncodeTurns(r.conversation))
            && BoolField(o, "stream") == Some(true)
            && ListField(o, "tools") == Some(EncodeTools(r.tools))
            && ParseFormat(ValueAt(o, "response_format")) == Some(None)
  {
    assert RawField(o, "model") == Some(Str(r.model));
    assert RawField(o, "messages") == Some(Arr(EncodeTurns(r.conversation)));
    assert RawField(o, "stream") == Some(Bool(true));
    assert RawField(o, "tools") == PayloadField(r, "tools");
    assert RawField(o, "response_format") == None;
    assert EncodeTools([]) == [];
  }

  lemma ParsedNumbers(parse: UrlParser, o: Object, r: Request)
    requires IsPayload(o, r) && WellFormed(parse, r)
    ensures && NumberField(o, "temperature") == Some(r.generation.temperature)
            && NumberField(o, "top_p") == Some(r.generation.topP)
            && IntField(o, "max_tokens") == Some(None)
            && IntField(o, "max_completion_tokens") == Some(r.generation.maxOutputTokens)
  {
    assert RawField(o, "temperature") == PayloadField(r, "temperature");
    assert RawField(o, "top_p") == PayloadField(r, "top_p");
    assert RawField(o, "max_tokens") == None;
    assert RawField(o, "max_completion_tokens") == PayloadField(r, "max_completion_tokens");
  }

  lemma RawOptions(o: Object, r: Request)
    requires IsPayload(o, r)
    ensures RawField(o, "stop") == EncodedRequest(r).stop && RawField(o, "tool_choice") == EncodedRequest(r).toolChoice
  {
    assert RawField(o, "stop") == PayloadField(r, "stop");
    assert RawField(o, "tool_choice") == PayloadField(r, "tool_choice");
  }

  /** A request parses when its parts do. */
  lemma ParseFromParts(o: Object, messageItems: seq<Json>, toolItems: seq<Json>, req: ChatRequest)
    requires StringField(o, "model") == Some(req.model) && BoolField(o, "stream") == Some(req.stream)
    requires ListField(o, "messages") == Some(messageItems) && ParseMessages(messageItems) == Some(req.messages)
    requires ListField(o, "tools") == Some(toolItems) && ParseTools(toolItems) == Some(req.tools)
    requires ParseFormat(ValueAt(o, "response_format")) == Some(req.responseFormat)
    requires NumberField(o, "temperature") == Some(req.temperature) && NumberField(o, "top_p") == Some(req.topP)
    requires IntField(o, "max_tokens") == Some(req.maxTokens)
    requires IntField(o, "max_completion_tokens") == Some(req.maxCompletionTokens)
    requires RawField(o, "stop") == req.stop && RawField(o, "tool_choice") == req.toolChoice
    ensures ParseRequest(Obj(o)) == Some(req)
  {
  }

  lemma PayloadParses(parse: UrlParser, o: Object, r: Request)
    requires IsPayload(o, r) && WellFormed(parse, r)
    ensures ParseRequest(Obj(o)) == Some(EncodedRequest(r))
  {
    ParsedParts(o, r);
    ParsedNumbers(parse, o, r);
    RawOptions(o, r);
    TurnsParse(r.conversation);
    assert ParseTools(EncodeTools(r.tools)) == Some(ToolsOf(r.tools)) by {
      ToolsParse(r.tools);
    }
    ParseFromParts(o, EncodeTurns(r.conversation), EncodeTools(r.tools), EncodedRequest(r));
  }

  lemma ToolChoiceRoundTrip(name: string)
    ensures DecodeToolChoice(if name == "" then None else Some(NamedFunction(name))) == Ok(name)
  {
    assert StringField(map["name" := Str(name)], "name") == Some(name);
  }

  /** A body decodes when its parts do. */
  lemma DecodeFromParts(parse: UrlParser, body: Json, req: ChatRequest, conversation: seq<Turn>, choice: string, stop: seq<string>)
    requires ParseRequest(body) == Some(req)
    requires DecodeMessages(parse, req.messages) == Ok(conversation)
    requires DecodeToolChoice(req.toolChoice) == Ok(choice)
    requires DecodeStop(req.stop) == Ok(stop)
    ensures Decode(parse, Some(body)) == Ok(Assemble(req, conversation, choice, stop))
  {
  }

  lemma EncodedRequestAssembles(r: Request)
    requires r.kind == ChatCompletions && r.metadata == map[]
    ensures Assemble(EncodedRequest(r), r.conversation, r.toolChoice, r.generation.stop)
         == r.(stream := true, contract := NoContract)
    ensures DecodeStop(EncodedRequest(r).stop) == Ok(r.generation.stop)
  {
    ToolsDecode(r.tools);
    StringsRoundTrip(r.generation.stop);
  }

  /** A well-formed request comes back as it was, except that it is streamed and carries no response contract. */
  lemma PayloadRoundTrip(parse: UrlParser, o: Object, r: Request)
    requires IsPayload(o, r) && WellFormed(parse, r)
    ensures Decode(parse, Some(Obj(o))) == Ok(r.(stream := true, contract := NoContract))
  {
    PayloadParses(parse, o, r);
    TurnsDecode(parse, r.conversation);
    EncodedRequestAssembles(r);
    ToolChoiceRoundTrip(r.toolChoice);
    DecodeFromParts(parse, Obj(o), EncodedRequest(r), r.conversation, r.toolChoice, r.generation.stop);
  }

  /** For every accepted public request: decoding the encoded upstream payload gives the same canonical request
      with streaming on, exactly when the request asked for no structured output. */
  lemma ChatRequestRoundTrip(parse: UrlParser, body: Option<Json>)
    requires Decode(parse, body).Ok?
    ensures var r := Decode(parse, body).value;
            var again := Decode(parse, Some(Obj(Encode(r))));
            && again == Ok(r.(stream := true, contract := NoContract))
            && (again == Ok(r.(stream := true)) <==> r.contract == NoContract)
  {
    var r := Decode(parse, body).value;
    DecodedIsWellFormed(parse, body);
    forall key
      ensures RawField(Encode(r), key) == PayloadField(r, key)
    {
      PayloadFields(r, key);
    }
    PayloadRoundTrip(parse, Encode(r), r);
  }
}

/** The chat completions endpoint: decoding public requests and encoding them for an OpenAI upstream. */
module ChatCodec {
  import opened Config
  import opened Json
  import opened Events
  import opened Canonical

  datatype ChatMessage = ChatMessage(role: string, content: Option<Json>)

  datatype ToolFunction = ToolFunction(name: string, parameters: Option<Object>)

  datatype ChatTool = ChatTool(toolType: string, function_: Option<ToolFunction>)

  datatype ResponseFormat = ResponseFormat(formatType: string, schema: Option<Object>)

  datatype ChatRequest = ChatRequest(
    model: string,
    messages: seq<ChatMessage>,
    stream: bool,
    temperature: Option<Decimal>,
    topP: Option<Decimal>,
    maxTokens: Option<int>,
    maxCompletionTokens: Option<int>,
    stop: Option<Json>,
    tools: seq<ChatTool>,
    toolChoice: Option<Json>,
    responseFormat: Option<ResponseFormat>)

  // The typed request

  function ParseMessage(j: Json): Option<ChatMessage> {
    match StructOf(j)
    case None => None
    case Some(o) =>
      match StringField(o, "role")
      case None => None
      case Some(role) => Some(ChatMessage(role, RawField(o, "content")))
  }

  function ParseMessages(items: seq<Json>): Option<seq<ChatMessage>> {
    if items == [] then Some([])
    else
      match (ParseMessages(items[..|items| - 1]), ParseMessage(items[|items| - 1]))
      case (Some(front), Some(last)) => Some(front + [last])
      case _ => None
  }

  function ParseFunction(j: Json): Option<Option<ToolFunction>> {
    match j
    case Null => Some(None)
    case Obj(o) =>
      (match (StringField(o, "name"), SchemaField(o, "parameters"))
       case (Some(name), Some(parameters)) => Some(Some(ToolFunction(name, parameters)))
       case _ => None)
    case _ => None
  }

  function ParseTool(j: Json): Option<ChatTool> {
    match StructOf(j)
    case None => None
    case Some(o) =>
      match (StringField(o, "type"), ParseFunction(ValueAt(o, "function")))
      case (Some(t), Some(f)) => Some(ChatTool(t, f))
      case _ => None
  }

  function ParseTools(items: seq<Json>): Option<seq<ChatTool>> {
    if items == [] then Some([])
    else
      match (ParseTools(items[..|items| - 1]), ParseTool(items[|items| - 1]))
      case (Some(front), Some(last)) => Some(front + [last])
      case _ => None
  }

  function ParseFormat(j: Json): Option<Option<ResponseFormat>> {
    match j
    case Null => Some(None)
    case Obj(o) =>
      (match (StringField(o, "type"), SchemaField(o, "json_schema"))
       case (Some(t), Some(None)) => Some(Some(ResponseFormat(t, None)))
       case (Some(t), Some(Some(s))) =>
         (match (StringField(s, "name"), SchemaField(s, "schema"))
          case (Some(_), Some(schema)) => Some(Some(ResponseFormat(t, schema)))
          case _ => None)
       case _ => None)
    case _ => None
  }

  function ParseRequest(body: Json): Option<ChatRequest> {
    match StructOf(body)
    case None => None
    case Some(o) =>
      match (StringField(o, "model"), ListField(o, "messages"), BoolField(o, "stream"), ListField(o, "tools"),
             ParseFormat(ValueAt(o, "response_format")))
      case (Some(model), Some(messageItems), Some(stream), Some(toolItems), Some(format)) =>
        (match (ParseMessages(messageItems), ParseTools(toolItems), NumberField(o, "temperature"),
                NumberField(o, "top_p"), IntField(o, "max_tokens"), IntField(o, "max_completion_tokens"))
         case (Some(messages), Some(tools), Some(temperature), Some(topP), Some(maxTokens), Some(maxCompletion)) =>
           Some(ChatRequest(model, messages, stream, temperature, topP, maxTokens, maxCompletion,
                            RawField(o, "stop"), tools, RawField(o, "tool_choice"), format))
         case _ => None)
      case _ => None
  }

  // Decoding

  function ImageURLOf(item: Object): Result<string> {
    if "file_id" in item then Err(UnsupportedCapability)
    else if !OnlyKeys(item, {"type", "image_url"}) then Err(UnsupportedCapability)
    else if "image_url" !in item then Err(InvalidRequest)
    else
      match item["image_url"]
      case Obj(value) =>
        if "file_id" in value then Err(UnsupportedCapability)
        else if !OnlyKeys(value, {"url"}) then Err(UnsupportedCapability)
        else if "url" !in value || !value["url"].Str? then Err(InvalidRequest)
        else Ok(value["url"].s)
      case _ => Err(InvalidRequest)
  }

  function DecodeItem(parse: UrlParser, rawRole: string, role: Role, item: Object): Result<ContentBlock> {
    var itemType := StringAt(item, "type");
    if itemType == "text" then
      if IsImageLike(item) || !ValueAt(item, "text").Str? then Err(InvalidRequest)
      else Ok(TextBlock(StringAt(item, "text")))
    else if itemType == "image_url" then
      if !ImageRoleOK(rawRole, role) then Err(InvalidRequest)
      else
        match ImageURLOf(item)
        case Err(e) => Err(e)
        case Ok(url) =>
          match ImageURLError(parse, url)
          case Some(e) => Err(e)
          case None => Ok(ImageBlock(url))
    else Err(InvalidRequest)
  }

  function DecodeItems(parse: UrlParser, rawRole: string, role: Role, items: seq<Object>): Result<seq<ContentBlock>> {
    if items == [] then Ok([])
    else
      match DecodeItems(parse, rawRole, role, items[..|items| - 1])
      case Err(e) => Err(e)
      case Ok(front) =>
        match DecodeItem(parse, rawRole, role, items[|items| - 1])
        case Err(e) => Err(e)
        case Ok(last) => Ok(front + [last])
  }

  function DecodeContent(parse: UrlParser, raw: Option<Json>, rawRole: string, role: Role): Result<seq<ContentBlock>> {
    match raw
    case None => Ok([])
    case Some(Null) => Ok([TextBlock("")])
    case Some(Str(text)) => Ok([TextBlock(text)])
    case Some(Arr(items)) =>
      (match ObjectsOf(items)
       case None => Err(InvalidRequest)
       case Some(objects) => DecodeItems(parse, rawRole, role, objects))
    case Some(_) => Err(InvalidRequest)
  }

  function DecodeMessage(parse: UrlParser, m: ChatMessage): Result<Turn> {
    var role := NormalizeRole(m.role);
    match DecodeContent(parse, m.content, m.role, role)
    case Err(e) => Err(e)
    case Ok(blocks) => Ok(Turn(role, blocks))
  }

  function DecodeMessages(parse: UrlParser, messages: seq<ChatMessage>): Result<seq<Turn>> {
    if messages == [] then Ok([])
    else
      match DecodeMessages(parse, messages[..|messages| - 1])
      case Err(e) => Err(e)
      case Ok(front) =>
        match DecodeMessage(parse, messages[|messages| - 1])
        case Err(e) => Err(e)
        case Ok(last) => Ok(front + [last])
  }

  /** Tools that are not functions are skipped. */
  function DecodeTools(tools: seq<ChatTool>): seq<Tool> {
    if tools == [] then []
    else
      var last := tools[|tools| - 1];
      DecodeTools(tools[..|tools| - 1]) +
      if last.toolType != "function" || last.function_.None? then []
      else [Tool(last.function_.value.name, last.function_.value.parameters)]
  }

  function StringsOf(items: seq<Json>): Option<seq<string>> {
    if items == [] then Some([])
    else
      match (StringsOf(items[..|items| - 1]), items[|items| - 1])
      case (Some(front), Str(s)) => Some(front + [s])
      case (Some(front), Null) => Some(front + [""])
      case _ => None
  }

  function DecodeStop(raw: Option<Json>): Result<seq<string>> {
    match raw
    case None => Ok([])
    case Some(Null) => Ok([])
    case Some(Str(s)) => Ok(if s == "" then [] else [s])
    case Some(Arr(items)) =>
      (match StringsOf(items)
       case None => Err(InvalidStop)
       case Some(many) => Ok(many))
    case Some(_) => Err(InvalidStop)
  }

  function DecodeToolChoice(raw: Option<Json>): Result<string> {
    match raw
    case None => Ok("")
    case Some(Null) => Ok("")
    case Some(Str(mode)) => if mode == "" || mode == "auto" then Ok("") else Err(InvalidToolChoice)
    case Some(Obj(o)) =>
      (match (StringField(o, "type"), SchemaField(o, "function"))
       case (Some(t), Some(Some(f))) =>
         (match StringField(f, "name")
          case Some(name) => if t == "function" && name != "" then Ok(name) else Err(InvalidToolChoice)
          case None => Err(InvalidToolChoice))
       case _ => Err(InvalidToolChoice))
    case Some(_) => Err(InvalidToolChoice)
  }

  function DecodeContract(format: Option<ResponseFormat>): ResponseContract {
    match format
    case None => NoContract
    case Some(f) =>
      if f.formatType == "json_object" then JSONObjectContract
      else if f.formatType == "json_schema" then JSONSchemaContract(f.schema)
      else NoContract
  }

  function Assemble(req: ChatRequest, conversation: seq<Turn>, toolChoice: string, stop: seq<string>): Request {
    Request(ChatCompletions, req.model, conversation,
            Generation(req.temperature, req.topP,
                       if req.maxCompletionTokens.None? then req.maxTokens else req.maxCompletionTokens, stop),
            DecodeTools(req.tools), toolChoice, DecodeContract(req.responseFormat), req.stream, map[])
  }

  /** The body is None when it is not JSON at all. */
  function Decode(parse: UrlParser, body: Option<Json>): Result<Request> {
    if body.None? || ParseRequest(body.value).None? then Err(InvalidRequest)
    else
      var req := ParseRequest(body.value).value;
      match DecodeMessages(parse, req.messages)
      case Err(e) => Err(e)
      case Ok(conversation) =>
        match DecodeToolChoice(req.toolChoice)
        case Err(e) => Err(e)
        case Ok(toolChoice) =>
          match DecodeStop(req.stop)
          case Err(e) => Err(e)
          case Ok(stop) => Ok(Assemble(req, conversation, toolChoice, stop))
  }

  lemma {:induction false} ItemErrorStays(parse: UrlParser, rawRole: string, role: Role, items: seq<Object>, i: nat)
    requires i <= |items| && DecodeItems(parse, rawRole, role, items[..i]).Err?
    ensures DecodeItems(parse, rawRole, role, items) == DecodeItems(parse, rawRole, role, items[..i])
  {
    if i == |items| {
      assert items[..i] == items;
    } else {
      assert items[..|items| - 1][..i] == items[..i];
      ItemErrorStays(parse, rawRole, role, items[..|items| - 1], i);
    }
  }

  lemma {:induction false} MessageErrorStays(parse: UrlParser, messages: seq<ChatMessage>, i: nat)
    requires i <= |messages| && DecodeMessages(parse, messages[..i]).Err?
    ensures DecodeMessages(parse, messages) == DecodeMessages(parse, messages[..i])
  {
    if i == |messages| {
      assert messages[..i] == messages;
    } else {
      assert messages[..|messages| - 1][..i] == messages[..i];
      MessageErrorStays(parse, messages[..|messages| - 1], i);
    }
  }

  lemma NextMessage(parse: UrlParser, messages: seq<ChatMessage>, i: nat)
    requires i < |messages| && DecodeMessages(parse, messages[..i]).Ok?
    ensures DecodeMessages(parse, messages[..i + 1])
         == match DecodeMessage(parse, messages[i])
            case Err(e) => Err(e)
            case Ok(turn) => Ok(DecodeMessages(parse, messages[..i]).value + [turn])
  {
    assert messages[..i + 1][..i] == messages[..i];
  }

  lemma NextTool(tools: seq<ChatTool>, i: nat)
    requires i < |tools|
    ensures DecodeTools(tools[..i + 1])
         == DecodeTools(tools[..i]) +
            if tools[i].toolType != "function" || tools[i].function_.None? then []
            else [Tool(tools[i].function_.value.name, tools[i].function_.value.parameters)]
  {
    assert tools[..i + 1][..i] == tools[..i];
  }

  /** The only accepted form is an object that is nothing but a URL. A key that has no place in it is
      unsupported, whatever else is wrong; anything else that is wrong is invalid. */
  method NormalizeChatImageURL(item: Object) returns (r: Result<string>)
    ensures r == ImageURLOf(item)
    ensures forall url :: r == Ok(url) <==>
              item.Keys <= {"type", "image_url"} && "image_url" in item && item["image_url"] == Obj(map["url" := Str(url)])
    ensures r == Err(UnsupportedCapability) <==>
              || !(item.Keys <= {"type", "image_url"})
              || ("image_url" in item && item["image_url"].Obj? && !(item["image_url"].fields.Keys <= {"url"}))
    ensures r.Err? ==> r.error in {UnsupportedCapability, InvalidRequest}
  {
    if "file_id" in item {
      return Err(UnsupportedCapability);
    }
    var ok := ValidateAllowedObjectKeys(item, ["type", "image_url"]);
    assert ok <==> OnlyKeys(item, {"type", "image_url"});
    if !ok {
      return Err(UnsupportedCapability);
    }
    if "image_url" !in item {
      return Err(InvalidRequest);
    }
    match item["image_url"] {
      case Obj(value) =>
        if "file_id" in value {
          return Err(UnsupportedCapability);
        }
        var okValue := ValidateAllowedObjectKeys(value, ["url"]);
        assert okValue <==> OnlyKeys(value, {"url"});
        if !okValue {
          return Err(UnsupportedCapability);
        }
        if "url" !in value {
          return Err(InvalidRequest);
        }
        if !value["url"].Str? {
          return Err(InvalidRequest);
        }
        return Ok(value["url"].s);
      case _ =>
        return Err(InvalidRequest);
    }
  }

  method NormalizeChatItem(parse: UrlParser, rawRole: string, role: Role, item: Object) returns (r: Result<ContentBlock>)
    ensures r == DecodeItem(parse, rawRole, role, item)
  {
    var itemType := StringAt(item, "type");
    if itemType == "text" {
      if IsImageLike(item) {
        return Err(InvalidRequest);
      }
      if "text" !in item || !item["text"].Str? {
        return Err(InvalidRequest);
      }
      return Ok(TextBlock(item["text"].s));
    } else if itemType == "image_url" {
      if !ImageRoleOK(rawRole, role) {
        return Err(InvalidRequest);
      }
      var imageURL := NormalizeChatImageURL(item);
      if imageURL.Err? {
        return Err(imageURL.error);
      }
      var problem := ImageURLError(parse, imageURL.value);
      if problem.Some? {
        return Err(problem.value);
      }
      return Ok(ImageBlock(imageURL.value));
    } else {
      return Err(InvalidRequest);
    }
  }

  method NormalizeItems(parse: UrlParser, items: seq<Object>, rawRole: string, role: Role)
    returns (r: Result<seq<ContentBlock>>)
    ensures r == DecodeItems(parse, rawRole, role, items)
  {
    var blocks: seq<ContentBlock> := [];
    for i := 0 to |items|
      invariant DecodeItems(parse, rawRole, role, items[..i]) == Ok(blocks)
    {
      assert items[..i + 1][..i] == items[..i];
      var block := NormalizeChatItem(parse, rawRole, role, items[i]);
      if block.Err? {
        ItemErrorStays(parse, rawRole, role, items, i + 1);
        return Err(block.error);
      }
      blocks := blocks + [block.value];
    }
    assert items[..|items|] == items;
    return Ok(blocks);
  }

  method NormalizeChatContent(parse: UrlParser, raw: Option<Json>, rawRole: string, role: Role)
    returns (r: Result<seq<ContentBlock>>)
    ensures r == DecodeContent(parse, raw, rawRole, role)
  {
    if raw.None? {
      return Ok([]);
    }
    if raw.value.Null? {
      return Ok([TextBlock("")]);
    }
    if raw.value.Str? {
      return Ok([TextBlock(raw.value.s)]);
    }
    if !raw.value.Arr? || ObjectsOf(raw.value.items).None? {
      return Err(InvalidRequest);
    }
    r := NormalizeItems(parse, ObjectsOf(raw.value.items).value, rawRole, role);
  }

  method DecodeChatCompletionRequest(parse: UrlParser, body: Option<Json>) returns (r: Result<Request>)
    ensures r == Decode(parse, body)
  {
    if body.None? || ParseRequest(body.value).None? {
      return Err(InvalidRequest);
    }
    var req := ParseRequest(body.value).value;
    var conversation: seq<Turn> := [];
    for i := 0 to |req.messages|
      invariant DecodeMessages(parse, req.messages[..i]) == Ok(conversation)
    {
      NextMessage(parse, req.messages, i);
      var msg := req.messages[i];
      var role := NormalizeRole(msg.role);
      var blocks := NormalizeChatContent(parse, msg.content, msg.role, role);
      if blocks.Err? {
        MessageErrorStays(parse, req.messages, i + 1);
        return Err(blocks.error);
      }
      conversation := conversation + [Turn(role, blocks.value)];
    }
    assert req.messages[..|req.messages|] == req.messages;
    var tools: seq<Tool> := [];
    for i := 0 to |req.tools|
      invariant tools == DecodeTools(req.tools[..i])
    {
      NextTool(req.tools, i);
      var tool := req.tools[i];
      if tool.toolType != "function" || tool.function_.None? {
        continue;
      }
      tools := tools + [Tool(tool.function_.value.name, tool.function_.value.parameters)];
    }
    assert req.tools[..|req.tools|] == req.tools;
    var toolChoice := DecodeToolChoice(req.toolChoice);
    if toolChoice.Err? {
      return Err(toolChoice.error);
    }
    var stop := DecodeStop(req.stop);
    if stop.Err? {
      return Err(stop.error);
    }
    var maxOutputTokens := req.maxCompletionTokens;
    if maxOutputTokens.None? {
      maxOutputTokens := req.maxTokens;
    }
    return Ok(Request(ChatCompletions, req.model, conversation,
                      Generation(req.temperature, req.topP, maxOutputTokens, stop.value),
                      tools, toolChoice.value, DecodeContract(req.responseFormat), req.stream, map[]));
  }

  // Encoding

  function EncodeBlock(b: ContentBlock): Json {
    match b
    case TextBlock(text) => Obj(map["type" := Str("text"), "text" := Str(text)])
    case ImageBlock(url) => Obj(map["type" := Str("image_url"), "image_url" := Obj(map["url" := Str(url)])])
  }

  function EncodeBlocks(blocks: seq<ContentBlock>): seq<Json> {
    seq(|blocks|, i requires 0 <= i < |blocks| => EncodeBlock(blocks[i]))
  }

  function EncodeContent(blocks: seq<ContentBlock>): Json {
    if |blocks| == 1 && blocks[0].TextBlock? then Str(blocks[0].text) else Arr(EncodeBlocks(blocks))
  }

  function EncodeTurn(t: Turn): Json {
    Obj(map["role" := Str(RoleName(t.role)), "content" := EncodeContent(t.content)])
  }

  function EncodeTurns(turns: seq<Turn>): seq<Json> {
    seq(|turns|, i requires 0 <= i < |turns| => EncodeTurn(turns[i]))
  }

  function EncodeTool(t: Tool): Json {
    Obj(map["type" := Str("function"),
            "function" := Obj(map["name" := Str(t.name), "parameters" := SchemaValue(t.schema)])])
  }

  function EncodeTools(tools: seq<Tool>): seq<Json> {
    seq(|tools|, i requires 0 <= i < |tools| => EncodeTool(tools[i]))
  }

  function EncodeStrings(texts: seq<string>): seq<Json> {
    seq(|texts|, i requires 0 <= i < |texts| => Str(texts[i]))
  }

  /** Sets a field if it is present. */
  function Put(o: Object, present: bool, key: string, value: Json): Object {
    if present then o[key := value] else o
  }

  function NumberOf(n: Option<Decimal>): Json {
    if n.Some? then Num(n.value) else Null
  }

  function IntegerOf(n: Option<int>): Json {
    if n.Some? then Num(Decimal(n.value, 0)) else Null
  }

  function PutGeneration(o: Object, g: Generation): Object {
    var a := Put(o, g.temperature.Some?, "temperature", NumberOf(g.temperature));
    var b := Put(a, g.topP.Some?, "top_p", NumberOf(g.topP));
    var c := Put(b, g.maxOutputTokens.Some?, "max_completion_tokens", IntegerOf(g.maxOutputTokens));
    Put(c, g.stop != [], "stop", Arr(EncodeStrings(g.stop)))
  }

  function NamedFunction(name: string): Json {
    Obj(map["type" := Str("function"), "function" := Obj(map["name" := Str(name)])])
  }

  /** The payload for a chat completions upstream: always streamed, with the optional parts that are set. */
  function Encode(req: Request): Object {
    var base: Object :=
      map["model" := Str(req.model), "stream" := Bool(true), "messages" := Arr(EncodeTurns(req.conversation)),
          "stream_options" := Obj(map["include_usage" := Bool(true)])];
    var a := PutGeneration(base, req.generation);
    var b := Put(a, req.tools != [], "tools", Arr(EncodeTools(req.tools)));
    Put(b, req.toolChoice != "", "tool_choice", NamedFunction(req.toolChoice))
  }

  method EncodeChatContent(blocks: seq<ContentBlock>) returns (r: Json)
    ensures r == EncodeContent(blocks)
  {
    if |blocks| == 1 && blocks[0].TextBlock? {
      return Str(blocks[0].text);
    }
    var content: seq<Json> := [];
    for i := 0 to |blocks|
      invariant content == EncodeBlocks(blocks[..i])
    {
      match blocks[i] {
        case TextBlock(text) =>
          content := content + [Obj(map["type" := Str("text"), "text" := Str(text)])];
        case ImageBlock(url) =>
          content := content + [Obj(map["type" := Str("image_url"), "image_url" := Obj(map["url" := Str(url)])])];
      }
    }
    assert blocks[..|blocks|] == blocks;
    return Arr(content);
  }

  method EncodeChatMessages(conversation: seq<Turn>) returns (messages: seq<Json>)
    ensures messages == EncodeTurns(conversation)
  {
    messages := [];
    for i := 0 to |conversation|
      invariant messages == EncodeTurns(conversation[..i])
    {
      var content := EncodeChatContent(conversation[i].content);
      messages := messages + [Obj(map["role" := Str(RoleName(conversation[i].role)), "content" := content])];
    }
    assert conversation[..|conversation|] == conversation;
  }

  method EncodeChatTools(tools: seq<Tool>) returns (payload: seq<Json>)
    ensures payload == EncodeTools(tools)
  {
    payload := [];
    for i := 0 to |tools|
      invariant payload == EncodeTools(tools[..i])
    {
      payload := payload + [EncodeTool(tools[i])];
    }
    assert tools[..|tools|] == tools;
  }

  method AddGeneration(g: Generation, before: Object) returns (payload: Object)
    ensures payload == PutGeneration(before, g)
  {
    payload := before;
    if g.temperature.Some? {
      payload := payload["temperature" := Num(g.temperature.value)];
    }
    if g.topP.Some? {
      payload := payload["top_p" := Num(g.topP.value)];
    }
    if g.maxOutputTokens.Some? {
      payload := payload["max_completion_tokens" := Num(Decimal(g.maxOutputTokens.value, 0))];
    }
    if |g.stop| > 0 {
      payload := payload["stop" := Arr(EncodeStrings(g.stop))];
    }
  }

  method EncodeRequest(req: Request) returns (payload: Object)
    ensures payload == Encode(req)
  {
    var messages := EncodeChatMessages(req.conversation);
    payload := map["model" := Str(req.model), "stream" := Bool(true), "messages" := Arr(messages),
                   "stream_options" := Obj(map["include_usage" := Bool(true)])];
    payload := AddGeneration(req.generation, payload);
    if |req.tools| > 0 {
      var tools := EncodeChatTools(req.tools);
      payload := payload["tools" := Arr(tools)];
    }
    if req.toolChoice != "" {
      payload := payload["tool_choice" := NamedFunction(req.toolChoice)];
    }
  }
}

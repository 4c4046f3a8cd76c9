/** The responses endpoint: decoding public requests and encoding them for an OpenAI upstream. */
module ResponsesCodec {
  import opened Config
  import opened Json
  import opened Events
  import opened Canonical
  import Chat = ChatCodec

  datatype Input = Input(role: string, content: seq<Object>)

  datatype InputTool = InputTool(name: string, parameters: Option<Object>)

  datatype ResponsesRequest = ResponsesRequest(
    model: string,
    input: seq<Input>,
    stream: bool,
    format: Object,
    tools: seq<InputTool>,
    temperature: Option<Decimal>,
    topP: Option<Decimal>,
    maxOutputTokens: Option<int>,
    metadata: map<string, string>)

  // The typed request

  function ParseInput(j: Json): Option<Input> {
    match StructOf(j)
    case None => None
    case Some(o) =>
      match (StringField(o, "role"), ListField(o, "content"))
      case (Some(role), Some(items)) =>
        (match ObjectsOf(items)
         case None => None
         case Some(content) => Some(Input(role, content)))
      case _ => None
  }

  function ParseInputs(items: seq<Json>): Option<seq<Input>> {
    if items == [] then Some([])
    else
      match (ParseInputs(items[..|items| - 1]), ParseInput(items[|items| - 1]))
      case (Some(front), Some(last)) => Some(front + [last])
      case _ => None
  }

  function ParseTool(j: Json): Option<InputTool> {
    match StructOf(j)
    case None => None
    case Some(o) =>
      match (StringField(o, "type"), StringField(o, "name"), SchemaField(o, "parameters"))
      case (Some(_), Some(name), Some(parameters)) => Some(InputTool(name, parameters))
      case _ => None
  }

  function ParseTools(items: seq<Json>): Option<seq<InputTool>> {
    if items == [] then Some([])
    else
      match (ParseTools(items[..|items| - 1]), ParseTool(items[|items| - 1]))
      case (Some(front), Some(last)) => Some(front + [last])
      case _ => None
  }

  /** The format of the text block; absent at any level gives an empty one. */
  function ParseFormat(o: Object): Option<Object> {
    match ObjectField(o, "text")
    case None => None
    case Some(text) => ObjectField(text, "format")
  }

  /** A map of strings, in which null counts as "". */
  function StringMapField(o: Object, key: string): Option<map<string, string>> {
    match ObjectField(o, key)
    case None => None
    case Some(m) =>
      if forall k :: k in m ==> m[k].Str? || m[k].Null? then Some(map k | k in m :: StringAt(m, k)) else None
  }

  function ParseRequest(body: Json): Option<ResponsesRequest> {
    match StructOf(body)
    case None => None
    case Some(o) =>
      match (StringField(o, "model"), ListField(o, "input"), BoolField(o, "stream"), ParseFormat(o), ListField(o, "tools"))
      case (Some(model), Some(inputItems), Some(stream), Some(format), Some(toolItems)) =>
        (match (ParseInputs(inputItems), ParseTools(toolItems), NumberField(o, "temperature"), NumberField(o, "top_p"),
                IntField(o, "max_output_tokens"), StringMapField(o, "metadata"))
         case (Some(input), Some(tools), Some(temperature), Some(topP), Some(maxTokens), Some(metadata)) =>
           Some(ResponsesRequest(model, input, stream, format, tools, temperature, topP, maxTokens, metadata))
         case _ => None)
      case _ => None
  }

  // Decoding

  function ImageURLOf(item: Object): Result<string> {
    if "file_id" in item then Err(UnsupportedCapability)
    else if !OnlyKeys(item, {"type", "image_url"}) then Err(UnsupportedCapability)
    else if "image_url" !in item then Err(InvalidRequest)
    else
      match item["image_url"]
      case Str(url) => Ok(url)
      case Obj(value) => if "file_id" in value then Err(UnsupportedCapability) else Err(InvalidRequest)
      case _ => Err(InvalidRequest)
  }

  function DecodeItem(parse: UrlParser, rawRole: string, role: Role, item: Object): Result<ContentBlock> {
    var itemType := StringAt(item, "type");
    if itemType == "input_text" then
      if IsImageLike(item) || !ValueAt(item, "text").Str? then Err(InvalidRequest)
      else Ok(TextBlock(StringAt(item, "text")))
    else if itemType == "input_image" then
      if !ImageRoleOK(rawRole, role) then Err(InvalidRequest)
      else
        match ImageURLOf(item)
        case Err(e) => Err(e)
        case Ok(url) =>
          match ImageURLError(parse, url)
          case Some(e) => Err(e)
          case None => Ok(ImageBlock(url))
    else Err(InvalidRequest)
  }

  function DecodeItems(parse: UrlParser, rawRole: string, role: Role, items: seq<Object>): Result<seq<ContentBlock>> {
    if items == [] then Ok([])
    else
      match DecodeItems(parse, rawRole, role, items[..|items| - 1])
      case Err(e) => Err(e)
      case Ok(front) =>
        match DecodeItem(parse, rawRole, role, items[|items| - 1])
        case Err(e) => Err(e)
        case Ok(last) => Ok(front + [last])
  }

  function DecodeInput(parse: UrlParser, item: Input): Result<Turn> {
    var role := NormalizeRole(item.role);
    match DecodeItems(parse, item.role, role, item.content)
    case Err(e) => Err(e)
    case Ok(blocks) => Ok(Turn(role, blocks))
  }

  function DecodeInputs(parse: UrlParser, items: seq<Input>): Result<seq<Turn>> {
    if items == [] then Ok([])
    else
      match DecodeInputs(parse, items[..|items| - 1])
      case Err(e) => Err(e)
      case Ok(front) =>
        match DecodeInput(parse, items[|items| - 1])
        case Err(e) => Err(e)
        case Ok(last) => Ok(front + [last])
  }

  /** Nameless tools are skipped. */
  function DecodeTools(tools: seq<InputTool>): seq<Tool> {
    if tools == [] then []
    else
      var last := tools[|tools| - 1];
      DecodeTools(tools[..|tools| - 1]) + if last.name == "" then [] else [Tool(last.name, last.parameters)]
  }

  function DecodeContract(format: Object): ResponseContract {
    var formatType := StringAt(format, "type");
    if formatType == "json_object" then JSONObjectContract
    else if formatType == "json_schema" then
      JSONSchemaContract(if ValueAt(format, "schema").Obj? then Some(format["schema"].fields) else None)
    else NoContract
  }

  function Assemble(req: ResponsesRequest, conversation: seq<Turn>): Request {
    Request(Responses, req.model, conversation,
            Generation(req.temperature, req.topP, req.maxOutputTokens, []),
            DecodeTools(req.tools), "", DecodeContract(req.format), req.stream, req.metadata)
  }

  /** The body is None when it is not JSON at all. */
  function Decode(parse: UrlParser, body: Option<Json>): Result<Request> {
    if body.None? || ParseRequest(body.value).None? then Err(InvalidRequest)
    else
      var req := ParseRequest(body.value).value;
      match DecodeInputs(parse, req.input)
      case Err(e) => Err(e)
      case Ok(conversation) => Ok(Assemble(req, conversation))
  }

  lemma {:induction false} ItemErrorStays(parse: UrlParser, rawRole: string, role: Role, items: seq<Object>, i: nat)
    requires i <= |items| && DecodeItems(parse, rawRole, role, items[..i]).Err?
    ensures DecodeItems(parse, rawRole, role, items) == DecodeItems(parse, rawRole, role, items[..i])
  {
    if i == |items| {
      assert items[..i] == items;
    } else {
      assert items[..|items| - 1][..i] == items[..i];
      ItemErrorStays(parse, rawRole, role, items[..|items| - 1], i);
    }
  }

  lemma {:induction false} InputErrorStays(parse: UrlParser, items: seq<Input>, i: nat)
    requires i <= |items| && DecodeInputs(parse, items[..i]).Err?
    ensures DecodeInputs(parse, items) == DecodeInputs(parse, items[..i])
  {
    if i == |items| {
      assert items[..i] == items;
    } else {
      assert items[..|items| - 1][..i] == items[..i];
      InputErrorStays(parse, items[..|items| - 1], i);
    }
  }

  lemma InputTextIsPlain()
    ensures forall i :: 0 <= i < |"input_text"| ==> PlainChar("input_text"[i])
  {
  }

  /** The only accepted form is the URL itself. A key that has no place in it and a file are unsupported,
      whatever else is wrong; anything else that is wrong is invalid. */
  method NormalizeResponsesImageURL(item: Object) returns (r: Result<string>)
    ensures r == ImageURLOf(item)
    ensures forall url :: r == Ok(url) <==>
              item.Keys <= {"type", "image_url"} && "image_url" in item && item["image_url"] == Str(url)
    ensures r == Err(UnsupportedCapability) <==>
              || !(item.Keys <= {"type", "image_url"})
              || ("image_url" in item && item["image_url"].Obj? && "file_id" in item["image_url"].fields)
    ensures r.Err? ==> r.error in {UnsupportedCapability, InvalidRequest}
  {
    if "file_id" in item {
      return Err(UnsupportedCapability);
    }
    var ok := ValidateAllowedObjectKeys(item, ["type", "image_url"]);
    assert ok <==> OnlyKeys(item, {"type", "image_url"});
    if !ok {
      return Err(UnsupportedCapability);
    }
    if "image_url" !in item {
      return Err(InvalidRequest);
    }
    match item["image_url"] {
      case Str(url) =>
        return Ok(url);
      case Obj(value) =>
        if "file_id" in value {
          return Err(UnsupportedCapability);
        }
        return Err(InvalidRequest);
      case _ =>
        return Err(InvalidRequest);
    }
  }

  lemma NextInput(parse: UrlParser, items: seq<Input>, i: nat)
    requires i < |items| && DecodeInputs(parse, items[..i]).Ok?
    ensures DecodeInputs(parse, items[..i + 1])
         == match DecodeInput(parse, items[i])
            case Err(e) => Err(e)
            case Ok(turn) => Ok(DecodeInputs(parse, items[..i]).value + [turn])
  {
    assert items[..i + 1][..i] == items[..i];
  }

  lemma NextTool(tools: seq<InputTool>, i: nat)
    requires i < |tools|
    ensures DecodeTools(tools[..i + 1])
         == DecodeTools(tools[..i]) + if tools[i].name == "" then [] else [Tool(tools[i].name, tools[i].parameters)]
  {
    assert tools[..i + 1][..i] == tools[..i];
  }

  method NormalizeItem(parse: UrlParser, rawRole: string, role: Role, item: Object) returns (r: Result<ContentBlock>)
    ensures r == DecodeItem(parse, rawRole, role, item)
  {
    var itemType := StringAt(item, "type");
    if itemType == "input_text" {
      if IsImageLike(item) {
        return Err(InvalidRequest);
      }
      if "text" !in item || !item["text"].Str? {
        return Err(InvalidRequest);
      }
      return Ok(TextBlock(item["text"].s));
    } else if itemType == "input_image" {
      if !ImageRoleOK(rawRole, role) {
        return Err(InvalidRequest);
      }
      var imageURL := NormalizeResponsesImageURL(item);
      if imageURL.Err? {
        return Err(imageURL.error);
      }
      var problem := ImageURLError(parse, imageURL.value);
      if problem.Some? {
        return Err(problem.value);
      }
      return Ok(ImageBlock(imageURL.value));
    } else {
      return Err(InvalidRequest);
    }
  }

  method NormalizeItems(parse: UrlParser, items: seq<Object>, rawRole: string, role: Role)
    returns (r: Result<seq<ContentBlock>>)
    ensures r == DecodeItems(parse, rawRole, role, items)
  {
    var blocks: seq<ContentBlock> := [];
    for i := 0 to |items|
      invariant DecodeItems(parse, rawRole, role, items[..i]) == Ok(blocks)
    {
      assert items[..i + 1][..i] == items[..i];
      var block := NormalizeItem(parse, rawRole, role, items[i]);
      if block.Err? {
        ItemErrorStays(parse, rawRole, role, items, i + 1);
        return Err(block.error);
      }
      blocks := blocks + [block.value];
    }
    assert items[..|items|] == items;
    return Ok(blocks);
  }

  method DecodeResponsesRequest(parse: UrlParser, body: Option<Json>) returns (r: Result<Request>)
    ensures r == Decode(parse, body)
  {
    if body.None? || ParseRequest(body.value).None? {
      return Err(InvalidRequest);
    }
    var req := ParseRequest(body.value).value;
    var conversation: seq<Turn> := [];
    for i := 0 to |req.input|
      invariant DecodeInputs(parse, req.input[..i]) == Ok(conversation)
    {
      NextInput(parse, req.input, i);
      var role := NormalizeRole(req.input[i].role);
      var blocks := NormalizeItems(parse, req.input[i].content, req.input[i].role, role);
      if blocks.Err? {
        InputErrorStays(parse, req.input, i + 1);
        return Err(blocks.error);
      }
      conversation := conversation + [Turn(role, blocks.value)];
    }
    assert req.input[..|req.input|] == req.input;
    var tools: seq<Tool> := [];
    for i := 0 to |req.tools|
      invariant tools == DecodeTools(req.tools[..i])
    {
      NextTool(req.tools, i);
      if req.tools[i].name == "" {
        continue;
      }
      tools := tools + [Tool(req.tools[i].name, req.tools[i].parameters)];
    }
    assert req.tools[..|req.tools|] == req.tools;
    return Ok(Request(Responses, req.model, conversation,
                      Generation(req.temperature, req.topP, req.maxOutputTokens, []),
                      tools, "", DecodeContract(req.format), req.stream, req.metadata));
  }

  // Encoding

  function EncodeBlock(b: ContentBlock): Json {
    match b
    case TextBlock(text) => Obj(map["type" := Str("input_text"), "text" := Str(text)])
    case ImageBlock(url) => Obj(map["type" := Str("input_image"), "image_url" := Str(url)])
  }

  function EncodeBlocks(blocks: seq<ContentBlock>): seq<Json> {
    seq(|blocks|, i requires 0 <= i < |blocks| => EncodeBlock(blocks[i]))
  }

  function EncodeTurn(t: Turn): Json {
    Obj(map["role" := Str(RoleName(t.role)), "content" := Arr(EncodeBlocks(t.content))])
  }

  function EncodeTurns(turns: seq<Turn>): seq<Json> {
    seq(|turns|, i requires 0 <= i < |turns| => EncodeTurn(turns[i]))
  }

  function EncodeStringMap(m: map<string, string>): Json {
    Obj(map k | k in m :: Str(m[k]))
  }

  function PutGeneration(o: Object, g: Generation): Object {
    var a := Chat.Put(o, g.temperature.Some?, "temperature", Chat.NumberOf(g.temperature));
    var b := Chat.Put(a, g.topP.Some?, "top_p", Chat.NumberOf(g.topP));
    Chat.Put(b, g.maxOutputTokens.Some?, "max_output_tokens", Chat.IntegerOf(g.maxOutputTokens))
  }

  /** The payload for a responses upstream: always streamed; tools and contracts are not sent. */
  function Encode(req: Request): Object {
    var base: Object :=
      map["model" := Str(req.model), "stream" := Bool(true), "input" := Arr(EncodeTurns(req.conversation))];
    Chat.Put(PutGeneration(base, req.generation), req.metadata != map[], "metadata", EncodeStringMap(req.metadata))
  }

  method EncodeResponsesInput(conversation: seq<Turn>) returns (input: seq<Json>)
    ensures input == EncodeTurns(conversation)
  {
    input := [];
    for i := 0 to |conversation|
      invariant input == EncodeTurns(conversation[..i])
    {
      var blocks := conversation[i].content;
      var content: seq<Json> := [];
      for j := 0 to |blocks|
        invariant content == EncodeBlocks(blocks[..j])
      {
        match blocks[j] {
          case TextBlock(text) =>
            content := content + [Obj(map["type" := Str("input_text"), "text" := Str(text)])];
          case ImageBlock(url) =>
            content := content + [Obj(map["type" := Str("input_image"), "image_url" := Str(url)])];
        }
      }
      assert blocks[..|blocks|] == blocks;
      input := input + [Obj(map["role" := Str(RoleName(conversation[i].role)), "content" := Arr(content)])];
    }
    assert conversation[..|conversation|] == conversation;
  }

  method EncodeRequest(req: Request) returns (payload: Object)
    ensures payload == Encode(req)
  {
    var input := EncodeResponsesInput(req.conversation);
    payload := map["model" := Str(req.model), "stream" := Bool(true), "input" := Arr(input)];
    if req.generation.temperature.Some? {
      payload := payload["temperature" := Num(req.generation.temperature.value)];
    }
    if req.generation.topP.Some? {
      payload := payload["top_p" := Num(req.generation.topP.value)];
    }
    if req.generation.maxOutputTokens.Some? {
      payload := payload["max_output_tokens" := Num(Decimal(req.generation.maxOutputTokens.value, 0))];
    }
    if req.metadata != map[] {
      payload := payload["metadata" := EncodeStringMap(req.metadata)];
    }
  }
}

/** Decoding what the responses encoder sends upstream gives back the request it was given. */
module ResponsesRoundTrip {
  import opened Sequences
  import opened Config
  import opened Json
  import opened Events
  import opened Canonical
  import opened ResponsesCodec
  import Chat = ChatCodec
  import ChatRoundTrip

  ghost predicate WellFormed(parse: UrlParser, r: Request) {
    && r.kind == Responses && r.toolChoice == "" && r.generation.stop == []
    && (forall t :: t in r.conversation ==> ImagesValid(parse, t))
    && (r.generation.maxOutputTokens.Some? ==> INT_MIN <= r.generation.maxOutputTokens.value <= INT_MAX)
  }

  lemma {:induction false} DecodedItemsAreValid(parse: UrlParser, rawRole: string, role: Role, items: seq<Object>)
    requires DecodeItems(parse, rawRole, role, items).Ok?
    ensures ImagesValid(parse, Turn(role, DecodeItems(parse, rawRole, role, items).value))
  {
    if items != [] {
      DecodedItemsAreValid(parse, rawRole, role, items[..|items| - 1]);
    }
  }

  lemma {:induction false} DecodedTurnsAreValid(parse: UrlParser, items: seq<Input>)
    requires DecodeInputs(parse, items).Ok?
    ensures forall t :: t in DecodeInputs(parse, items).value ==> ImagesValid(parse, t)
  {
    if items != [] {
      var item := items[|items| - 1];
      DecodedTurnsAreValid(parse, items[..|items| - 1]);
      DecodedItemsAreValid(parse, item.role, NormalizeRole(item.role), item.content);
    }
  }

  lemma DecodedIsWellFormed(parse: UrlParser, body: Option<Json>)
    requires Decode(parse, body).Ok?
    ensures WellFormed(parse, Decode(parse, body).value)
  {
    DecodedTurnsAreValid(parse, ParseRequest(body.value).value.input);
  }

  // Content

  function BlockObject(b: ContentBlock): Object {
    EncodeBlock(b).fields
  }

  function BlockObjects(blocks: seq<ContentBlock>): seq<Object> {
    seq(|blocks|, i requires 0 <= i < |blocks| => BlockObject(blocks[i]))
  }

  lemma {:induction false} ObjectsOfBlocks(blocks: seq<ContentBlock>)
    ensures ObjectsOf(EncodeBlocks(blocks)) == Some(BlockObjects(blocks))
  {
    if blocks == [] {
      assert EncodeBlocks(blocks) == [] && BlockObjects(blocks) == [];
    } else {
      var front := blocks[..|blocks| - 1];
      assert EncodeBlocks(blocks)[..|blocks| - 1] == EncodeBlocks(front);
      ObjectsOfBlocks(front);
      assert BlockObjects(blocks) == BlockObjects(front) + [BlockObject(blocks[|blocks| - 1])];
    }
  }

  lemma InputTextIsNotImageLike(text: string)
    ensures !IsImageLike(BlockObject(TextBlock(text)))
  {
    var o := BlockObject(TextBlock(text));
    assert o == map["type" := Str("input_text"), "text" := Str(text)];
    InputTextIsPlain();
    PlainItemIsNotImageLike(o, "input_text");
  }

  lemma TextRoundTrip(parse: UrlParser, rawRole: string, role: Role, text: string)
    ensures DecodeItem(parse, rawRole, role, BlockObject(TextBlock(text))) == Ok(TextBlock(text))
  {
    var o := BlockObject(TextBlock(text));
    InputTextIsNotImageLike(text);
    assert StringAt(o, "type") == "input_text" && ValueAt(o, "text") == Str(text);
  }

  lemma ImageURLRoundTrip(url: string)
    ensures ImageURLOf(BlockObject(ImageBlock(url))) == Ok(url)
  {
    var o := BlockObject(ImageBlock(url));
    assert o == map["type" := Str("input_image"), "image_url" := Str(url)];
    assert OnlyKeys(o, {"type", "image_url"});
  }

  lemma ImageRoundTrip(parse: UrlParser, url: string)
    requires ImageURLError(parse, url) == None
    ensures DecodeItem(parse, RoleName(UserRole), UserRole, BlockObject(ImageBlock(url))) == Ok(ImageBlock(url))
  {
    ImageURLRoundTrip(url);
    assert StringAt(BlockObject(ImageBlock(url)), "type") == "input_image";
    assert |"input_image"| != |"input_text"|;
  }

  lemma BlockRoundTrip(parse: UrlParser, role: Role, b: ContentBlock)
    requires b.ImageBlock? ==> role == UserRole && ImageURLError(parse, b.url) == None
    ensures DecodeItem(parse, RoleName(role), role, BlockObject(b)) == Ok(b)
  {
    match b
    case TextBlock(text) => TextRoundTrip(parse, RoleName(role), role, text);
    case ImageBlock(url) => ImageRoundTrip(parse, url);
  }

  lemma {:induction false} BlocksRoundTrip(parse: UrlParser, role: Role, blocks: seq<ContentBlock>)
    requires ImagesValid(parse, Turn(role, blocks))
    ensures DecodeItems(parse, RoleName(role), role, BlockObjects(blocks)) == Ok(blocks)
  {
    if blocks == [] {
      assert BlockObjects(blocks) == [];
    } else {
      var front, last := blocks[..|blocks| - 1], blocks[|blocks| - 1];
      FrontAndLast(blocks);
      assert BlockObjects(blocks)[..|blocks| - 1] == BlockObjects(front);
      BlocksRoundTrip(parse, role, front);
      BlockRoundTrip(parse, role, last);
    }
  }

  function TurnInput(t: Turn): Input {
    Input(RoleName(t.role), BlockObjects(t.content))
  }

  function TurnInputs(turns: seq<Turn>): seq<Input> {
    seq(|turns|, i requires 0 <= i < |turns| => TurnInput(turns[i]))
  }

  lemma TurnParses(t: Turn)
    ensures ParseInput(EncodeTurn(t)) == Some(TurnInput(t))
  {
    var o := EncodeTurn(t).fields;
    assert StringField(o, "role") == Some(RoleName(t.role));
    assert ListField(o, "content") == Some(EncodeBlocks(t.content));
    ObjectsOfBlocks(t.content);
  }

  lemma TurnDecodes(parse: UrlParser, t: Turn)
    requires ImagesValid(parse, t)
    ensures DecodeInput(parse, TurnInput(t)) == Ok(t)
  {
    BlocksRoundTrip(parse, t.role, t.content);
    assert NormalizeRole(RoleName(t.role)) == t.role;
  }

  lemma {:induction false} TurnsParse(turns: seq<Turn>)
    ensures ParseInputs(EncodeTurns(turns)) == Some(TurnInputs(turns))
  {
    if turns == [] {
      assert EncodeTurns(turns) == [] && TurnInputs(turns) == [];
    } else {
      var front, last := turns[..|turns| - 1], turns[|turns| - 1];
      TurnsParse(front);
      TurnParses(last);
      assert EncodeTurns(turns)[..|turns| - 1] == EncodeTurns(front);
      assert TurnInputs(turns) == TurnInputs(front) + [TurnInput(last)];
    }
  }

  lemma {:induction false} TurnsDecode(parse: UrlParser, turns: seq<Turn>)
    requires forall t :: t in turns ==> ImagesValid(parse, t)
    ensures DecodeInputs(parse, TurnInputs(turns)) == Ok(turns)
  {
    if turns == [] {
      assert TurnInputs(turns) == [];
    } else {
      var front, last := turns[..|turns| - 1], turns[|turns| - 1];
      FrontAndLast(turns);
      TurnsDecode(parse, front);
      TurnDecodes(parse, last);
      assert TurnInputs(turns)[..|turns| - 1] == TurnInputs(front);
    }
  }

  // The request

  function EncodedRequest(r: Request): ResponsesRequest {
    ResponsesRequest(r.model, TurnInputs(r.conversation), true, map[], [], r.generation.temperature, r.generation.topP,
                     r.generation.maxOutputTokens, r.metadata)
  }

  /** The payload has these fields and no others. */
  function PayloadField(r: Request, key: string): Option<Json> {
    var g := r.generation;
    if key == "model" then Some(Str(r.model))
    else if key == "stream" then Some(Bool(true))
    else if key == "input" then Some(Arr(EncodeTurns(r.conversation)))
    else if key == "temperature" && g.temperature.Some? then Some(Num(g.temperature.value))
    else if key == "top_p" && g.topP.Some? then Some(Num(g.topP.value))
    else if key == "max_output_tokens" && g.maxOutputTokens.Some? then Some(Num(Decimal(g.maxOutputTokens.value, 0)))
    else if key == "metadata" && r.metadata != map[] then Some(EncodeStringMap(r.metadata))
    else None
  }

  lemma PayloadFields(r: Request, key: string)
    ensures RawField(Encode(r), key) == PayloadField(r, key)
  {
    var g := r.generation;
    var base: Object :=
      map["model" := Str(r.model), "stream" := Bool(true), "input" := Arr(EncodeTurns(r.conversation))];
    var a := Chat.Put(base, g.temperature.Some?, "temperature", Chat.NumberOf(g.temperature));
    var b := Chat.Put(a, g.topP.Some?, "top_p", Chat.NumberOf(g.topP));
    var c := PutGeneration(base, g);
    ChatRoundTrip.PutField(c, r.metadata != map[], "metadata", EncodeStringMap(r.metadata), key);
    ChatRoundTrip.PutField(b, g.maxOutputTokens.Some?, "max_output_tokens", Chat.IntegerOf(g.maxOutputTokens), key);
    ChatRoundTrip.PutField(a, g.topP.Some?, "top_p", Chat.NumberOf(g.topP), key);
    ChatRoundTrip.PutField(base, g.temperature.Some?, "temperature", Chat.NumberOf(g.temperature), key);
  }

  ghost predicate IsPayload(o: Object, r: Request) {
    forall key :: RawField(o, key) == PayloadField(r, key)
  }

  lemma MetadataRoundTrip(o: Object, m: map<string, string>)
    requires RawField(o, "metadata") == if m != map[] then Some(EncodeStringMap(m)) else None
    ensures StringMapField(o, "metadata") == Some(m)
  {
    if m != map[] {
      var e := EncodeStringMap(m).fields;
      assert forall k :: k in e ==> e[k] == Str(m[k]);
      assert (map k | k in e :: StringAt(e, k)) == m;
    }
  }

  lemma ParsedParts(o: Object, r: Request)
    requires IsPayload(o, r)
    ensures && StringField(o, "model") == Some(r.model)
            && ListField(o, "input") == Some(EncodeTurns(r.conversation))
            && BoolField(o, "stream") == Some(true)
            && ParseFormat(o) == Some(map[])
            && ListField(o, "tools") == Some([])
  {
    assert RawField(o, "model") == Some(Str(r.model));
    assert RawField(o, "input") == Some(Arr(EncodeTurns(r.conversation)));
    assert RawField(o, "stream") == Some(Bool(true));
    assert RawField(o, "text") == None && RawField(o, "tools") == None;
  }

  lemma ParsedNumbers(parse: UrlParser, o: Object, r: Request)
    requires IsPayload(o, r) && WellFormed(parse, r)
    ensures && NumberField(o, "temperature") == Some(r.generation.temperature)
            && NumberField(o, "top_p") == Some(r.generation.topP)
            && IntField(o, "max_output_tokens") == Some(r.generation.maxOutputTokens)
  {
    assert RawField(o, "temperature") == PayloadField(r, "temperature");
    assert RawField(o, "top_p") == PayloadField(r, "top_p");
    assert RawField(o, "max_output_tokens") == PayloadField(r, "max_output_tokens");
  }

  lemma ParseFromParts(o: Object, inputItems: seq<Json>, toolItems: seq<Json>, req: ResponsesRequest)
    requires StringField(o, "model") == Some(req.model) && BoolField(o, "stream") == Some(req.stream)
    requires ListField(o, "input") == Some(inputItems) && ParseInputs(inputItems) == Some(req.input)
    requires ListField(o, "tools") == Some(toolItems) && ParseTools(toolItems) == Some(req.tools)
    requires ParseFormat(o) == Some(req.format)
    requires NumberField(o, "temperature") == Some(req.temperature) && NumberField(o, "top_p") == Some(req.topP)
    requires IntField(o, "max_output_tokens") == Some(req.maxOutputTokens)
    requires StringMapField(o, "metadata") == Some(req.metadata)
    ensures ParseRequest(Obj(o)) == Some(req)
  {
  }

  lemma PayloadRoundTrip(parse: UrlParser, o: Object, r: Request)
    requires IsPayload(o, r) && WellFormed(parse, r)
    ensures Decode(parse, Some(Obj(o))) == Ok(r.(stream := true, contract := NoContract, tools := []))
  {
    ParsedParts(o, r);
    ParsedNumbers(parse, o, r);
    assert StringMapField(o, "metadata") == Some(r.metadata) by {
      assert RawField(o, "metadata") == PayloadField(r, "metadata");
      MetadataRoundTrip(o, r.metadata);
    }
    TurnsParse(r.conversation);
    ParseFromParts(o, EncodeTurns(r.conversation), [], EncodedRequest(r));
    TurnsDecode(parse, r.conversation);
    assert Assemble(EncodedRequest(r), r.conversation) == r.(stream := true, contract := NoContract, tools := []);
  }

  /** For every accepted public request: decoding the encoded upstream payload gives the same canonical request
      with streaming on, exactly when the request had no tools and asked for no structured output. */
  lemma ResponsesRequestRoundTrip(parse: UrlParser, body: Option<Json>)
    requires Decode(parse, body).Ok?
    ensures var r := Decode(parse, body).value;
            var again := Decode(parse, Some(Obj(Encode(r))));
            && again == Ok(r.(stream := true, contract := NoContract, tools := []))
            && (again == Ok(r.(stream := true)) <==> r.contract == NoContract && r.tools == [])
  {
    var r := Decode(parse, body).value;
    DecodedIsWellFormed(parse, body);
    forall key
      ensures RawField(Encode(r), key) == PayloadField(r, key)
    {
      PayloadFields(r, key);
    }
    PayloadRoundTrip(parse, Encode(r), r);
  }
}

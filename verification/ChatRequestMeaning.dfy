/** What the chat endpoint accepts, and what the accepted request says. */
module ChatRequestMeaning {
  import opened Sequences
  import opened Config
  import opened Json
  import opened Events
  import opened Canonical
  import opened RequestFields
  import opened ChatCodec

  // Types

  predicate TypedMessage(j: Json) {
    IsRecord(j) && TextOrMissing(MapValue(j), "role")
  }

  predicate TypedTool(j: Json) {
    var o := MapValue(j);
    && IsRecord(j) && TextOrMissing(o, "type") && ObjectOrMissing(o, "function")
    && TextOrMissing(ObjectAt(o, "function"), "name") && ObjectOrMissing(ObjectAt(o, "function"), "parameters")
  }

  predicate TypedFormat(o: Object) {
    var format := ObjectAt(o, "response_format");
    && ObjectOrMissing(o, "response_format")
    && TextOrMissing(format, "type") && ObjectOrMissing(format, "json_schema")
    && TextOrMissing(ObjectAt(format, "json_schema"), "name") && ObjectOrMissing(ObjectAt(format, "json_schema"), "schema")
  }

  predicate Typed(o: Object) {
    && TextOrMissing(o, "model") && BoolOrMissing(o, "stream")
    && NumberOrMissing(o, "temperature") && NumberOrMissing(o, "top_p")
    && IntegerOrMissing(o, "max_tokens") && IntegerOrMissing(o, "max_completion_tokens")
    && ListOrMissing(o, "messages") && (forall j :: j in ItemsAt(o, "messages") ==> TypedMessage(j))
    && ListOrMissing(o, "tools") && (forall j :: j in ItemsAt(o, "tools") ==> TypedTool(j))
    && TypedFormat(o)
  }

  // What is acceptable beyond types

  predicate TextItem(o: Object) {
    StringAt(o, "type") == "text" && "image_url" !in o && "file_id" !in o && "text" in o && o["text"].Str?
  }

  predicate ImageItem(parse: UrlParser, role: string, o: Object) {
    && StringAt(o, "type") == "image_url" && role == "user" && o.Keys <= {"type", "image_url"}
    && "image_url" in o && o["image_url"].Obj?
    && var image := o["image_url"].fields;
       image.Keys == {"url"} && image["url"].Str? && WebAddress(parse, image["url"].s)
  }

  predicate GoodItem(parse: UrlParser, role: string, o: Object) {
    TextItem(o) || ImageItem(parse, role, o)
  }

  /** An image of a user that asks for something that is not supported: a key that has no place, or a data URL. */
  predicate UnsupportedItem(parse: UrlParser, role: string, o: Object) {
    && StringAt(o, "type") == "image_url" && role == "user"
    && (|| !(o.Keys <= {"type", "image_url"})
        || ("image_url" in o && o["image_url"].Obj? &&
            var image := o["image_url"].fields;
            || !(image.Keys <= {"url"})
            || ("url" in image && image["url"].Str? && DataAddress(parse, image["url"].s))))
  }

  function ItemError(parse: UrlParser, role: string, o: Object): DecodeError {
    if UnsupportedItem(parse, role, o) then UnsupportedCapability else InvalidRequest
  }

  predicate GoodItems(parse: UrlParser, role: string, objects: seq<Object>) {
    forall i :: 0 <= i < |objects| ==> GoodItem(parse, role, objects[i])
  }

  /** The first bad item decides the error of a list. */
  ghost predicate ItemsFailWith(parse: UrlParser, role: string, objects: seq<Object>, error: DecodeError) {
    exists i :: && 0 <= i < |objects| && !GoodItem(parse, role, objects[i]) && error == ItemError(parse, role, objects[i])
                && GoodItems(parse, role, objects[..i])
  }

  predicate GoodContent(parse: UrlParser, message: Object) {
    "content" in message ==>
      match message["content"]
      case Null => true
      case Str(_) => true
      case Arr(items) =>
        AllRecords(items) && GoodItems(parse, StringAt(message, "role"), Records(items))
      case _ => false
  }

  /** Content that is not text, null or a list of objects is invalid. */
  ghost predicate ContentFailsWith(parse: UrlParser, message: Object, error: DecodeError) {
    if "content" in message && message["content"].Arr? && AllRecords(message["content"].items)
    then ItemsFailWith(parse, StringAt(message, "role"), Records(message["content"].items), error)
    else error == InvalidRequest
  }

  /** The first bad message decides the error of the messages. */
  ghost predicate MessagesFailWith(parse: UrlParser, items: seq<Json>, error: DecodeError) {
    exists i :: && 0 <= i < |items| && !GoodContent(parse, MapValue(items[i]))
                && ContentFailsWith(parse, MapValue(items[i]), error)
                && forall j :: 0 <= j < i ==> GoodContent(parse, MapValue(items[j]))
  }

  predicate GoodMessages(parse: UrlParser, o: Object) {
    forall j :: j in ItemsAt(o, "messages") ==> GoodContent(parse, MapValue(j))
  }

  predicate GoodStop(o: Object) {
    "stop" in o ==>
      match o["stop"]
      case Null => true
      case Str(_) => true
      case Arr(items) => forall j :: j in items ==> j.Str? || j.Null?
      case _ => false
  }

  predicate GoodToolChoice(o: Object) {
    "tool_choice" in o ==>
      match o["tool_choice"]
      case Null => true
      case Str(mode) => mode == "" || mode == "auto"
      case Obj(choice) =>
        && TextOf(Field(Some(Obj(choice)), "type")) == "function"
        && TextOf(Field(Field(Some(Obj(choice)), "function"), "name")) != ""
      case _ => false
  }

  // What an accepted request says

  predicate BlockIs(o: Object, b: ContentBlock) {
    match b
    case TextBlock(text) => StringAt(o, "type") == "text" && Field(Some(Obj(o)), "text") == Some(Str(text))
    case ImageBlock(url) =>
      StringAt(o, "type") == "image_url" && Field(Field(Some(Obj(o)), "image_url"), "url") == Some(Str(url))
  }

  predicate BlocksAre(objects: seq<Object>, blocks: seq<ContentBlock>) {
    |blocks| == |objects| && forall i :: 0 <= i < |objects| ==> BlockIs(objects[i], blocks[i])
  }

  predicate TurnIs(message: Object, t: Turn) {
    && RoleIs(StringAt(message, "role"), t.role)
    && match Field(Some(Obj(message)), "content")
       case None => t.content == []
       case Some(Null) => t.content == [TextBlock("")]
       case Some(Str(text)) => t.content == [TextBlock(text)]
       case Some(Arr(items)) =>
         BlocksAre(Records(items), t.content)
       case _ => false
  }

  predicate TurnsAre(items: seq<Json>, turns: seq<Turn>) {
    |turns| == |items| && forall i :: 0 <= i < |items| ==> TurnIs(MapValue(items[i]), turns[i])
  }

  predicate StopIs(o: Object, stop: seq<string>) {
    match Field(Some(Obj(o)), "stop")
    case Some(Str(text)) => stop == if text == "" then [] else [text]
    case Some(Arr(items)) => |stop| == |items| && forall i :: 0 <= i < |items| ==> stop[i] == TextOf(Some(items[i]))
    case _ => stop == []
  }

  predicate ContractIs(o: Object, contract: ResponseContract) {
    var format := Field(Some(Obj(o)), "response_format");
    var formatType := TextOf(Field(format, "type"));
    match contract
    case JSONObjectContract => formatType == "json_object"
    case JSONSchemaContract(schema) =>
      formatType == "json_schema" && schema == SchemaOf(Field(Field(format, "json_schema"), "schema"))
    case NoContract => formatType != "json_object" && formatType != "json_schema"
  }

  /** Every part of the request, tools aside, in terms of the keys of the body. */
  predicate Says(o: Object, r: Request) {
    && r.kind == ChatCompletions && r.metadata == map[]
    && r.model == StringAt(o, "model")
    && (r.stream <==> "stream" in o && o["stream"] == Bool(true))
    && r.generation.temperature == NumberAt(o, "temperature")
    && r.generation.topP == NumberAt(o, "top_p")
    && r.generation.maxOutputTokens
       == (if IntegerAt(o, "max_completion_tokens").Some? then IntegerAt(o, "max_completion_tokens") else IntegerAt(o, "max_tokens"))
    && StopIs(o, r.generation.stop)
    && r.toolChoice == TextOf(Field(Field(Field(Some(Obj(o)), "tool_choice"), "function"), "name"))
    && ContractIs(o, r.contract)
    && TurnsAre(ItemsAt(o, "messages"), r.conversation)
  }

  /** An entry that is a function. */
  predicate IsFunction(j: Json) {
    StringAt(MapValue(j), "type") == "function" && Field(Some(j), "function").Some? && Field(Some(j), "function").value.Obj?
  }

  function FunctionOf(j: Json): Tool {
    var f := Field(Some(j), "function");
    Tool(TextOf(Field(f, "name")), SchemaOf(Field(f, "parameters")))
  }

  /** The tools are the entries at these positions, which are exactly those that are functions. */
  ghost predicate ToolsAre(items: seq<Json>, tools: seq<Tool>, at: seq<nat>) {
    && |at| == |tools|
    && (forall i :: 0 <= i < |at| ==> at[i] < |items| && tools[i] == FunctionOf(items[at[i]]))
    && (forall i, j :: 0 <= i < j < |at| ==> at[i] < at[j])
    && (forall k :: 0 <= k < |items| ==> (k in at <==> IsFunction(items[k])))
  }

  // The typed request

  lemma {:induction false} MessagesParse(items: seq<Json>)
    ensures ParseMessages(items).Some? <==> forall i :: 0 <= i < |items| ==> TypedMessage(items[i])
    ensures ParseMessages(items).Some? ==>
              && |ParseMessages(items).value| == |items|
              && forall i :: 0 <= i < |items| ==>
                   ParseMessages(items).value[i]
                   == ChatMessage(StringAt(MapValue(items[i]), "role"), RawField(MapValue(items[i]), "content"))
  {
    if items != [] {
      MessagesParse(items[..|items| - 1]);
      FieldsAgree(MapValue(items[|items| - 1]), "role");
    }
  }

  lemma ToolParses(j: Json)
    ensures ParseTool(j).Some? <==> TypedTool(j)
    ensures ParseTool(j).Some? ==> ToolStandsFor(j, ParseTool(j).value)
  {
    var o := MapValue(j);
    FieldsAgree(o, "type");
    FieldsAgree(ObjectAt(o, "function"), "name");
    FieldsAgree(ObjectAt(o, "function"), "parameters");
  }

  /** The typed entry that stands for a JSON one. */
  predicate ToolStandsFor(j: Json, t: ChatTool) {
    var f := Field(Some(j), "function");
    && t.toolType == StringAt(MapValue(j), "type")
    && t.function_ == if f.Some? && f.value.Obj? then Some(ToolFunction(TextOf(Field(f, "name")), SchemaOf(Field(f, "parameters")))) else None
  }

  predicate ToolsStandFor(items: seq<Json>, tools: seq<ChatTool>) {
    |tools| == |items| && forall i :: 0 <= i < |items| ==> ToolStandsFor(items[i], tools[i])
  }

  lemma {:induction false} ToolsParse(items: seq<Json>)
    ensures ParseTools(items).Some? <==> forall i :: 0 <= i < |items| ==> TypedTool(items[i])
    ensures ParseTools(items).Some? ==> ToolsStandFor(items, ParseTools(items).value)
  {
    if items != [] {
      ToolsParse(items[..|items| - 1]);
      ToolParses(items[|items| - 1]);
    }
  }

  lemma OneMoreTool(items: seq<Json>, tools: seq<Tool>, at: seq<nat>, j: Json)
    requires ToolsAre(items, tools, at)
    ensures IsFunction(j) ==> ToolsAre(items + [j], tools + [FunctionOf(j)], at + [|items|])
    ensures !IsFunction(j) ==> ToolsAre(items + [j], tools, at)
  {
    var all := items + [j];
    assert forall i :: 0 <= i < |at| ==> at[i] in at && at[i] < |items| && all[at[i]] == items[at[i]];
    assert forall k :: 0 <= k < |items| ==> all[k] == items[k];
  }

  lemma {:induction false} ToolsDecode(items: seq<Json>, tools: seq<ChatTool>) returns (at: seq<nat>)
    requires ToolsStandFor(items, tools)
    ensures ToolsAre(items, DecodeTools(tools), at)
  {
    at := [];
    if items != [] {
      var n := |items| - 1;
      at := ToolsDecode(items[..n], tools[..n]);
      OneMoreTool(items[..n], DecodeTools(tools[..n]), at, items[n]);
      FrontAndLast(items);
      assert ToolStandsFor(items[n], tools[n]);
      if IsFunction(items[n]) {
        at := at + [n];
      } else {
        AppendEmpty(DecodeTools(tools[..n]));
      }
    }
  }

  lemma FormatParses(o: Object)
    ensures ParseFormat(ValueAt(o, "response_format")).Some? <==> TypedFormat(o)
    ensures TypedFormat(o) ==> ContractIs(o, DecodeContract(ParseFormat(ValueAt(o, "response_format")).value))
  {
    var format := ObjectAt(o, "response_format");
    FieldsAgree(format, "type");
    FieldsAgree(format, "json_schema");
    FieldsAgree(ObjectAt(format, "json_schema"), "name");
    FieldsAgree(ObjectAt(format, "json_schema"), "schema");
  }

  lemma NumbersParse(o: Object)
    ensures NumberField(o, "temperature") == if NumberOrMissing(o, "temperature") then Some(NumberAt(o, "temperature")) else None
    ensures NumberField(o, "top_p") == if NumberOrMissing(o, "top_p") then Some(NumberAt(o, "top_p")) else None
    ensures IntField(o, "max_tokens") == if IntegerOrMissing(o, "max_tokens") then Some(IntegerAt(o, "max_tokens")) else None
    ensures IntField(o, "max_completion_tokens")
         == if IntegerOrMissing(o, "max_completion_tokens") then Some(IntegerAt(o, "max_completion_tokens")) else None
  {
    FieldsAgree(o, "temperature");
    FieldsAgree(o, "top_p");
    FieldsAgree(o, "max_tokens");
    FieldsAgree(o, "max_completion_tokens");
  }

  lemma OthersParse(o: Object)
    ensures StringField(o, "model") == if TextOrMissing(o, "model") then Some(StringAt(o, "model")) else None
    ensures BoolField(o, "stream") == if BoolOrMissing(o, "stream") then Some("stream" in o && o["stream"] == Bool(true)) else None
    ensures ListField(o, "messages") == if ListOrMissing(o, "messages") then Some(ItemsAt(o, "messages")) else None
    ensures ListField(o, "tools") == if ListOrMissing(o, "tools") then Some(ItemsAt(o, "tools")) else None
  {
    FieldsAgree(o, "model");
    FieldsAgree(o, "stream");
    FieldsAgree(o, "messages");
    FieldsAgree(o, "tools");
  }

  lemma RequestParses(o: Object)
    ensures ParseRequest(Obj(o)).Some? <==> Typed(o)
    ensures Typed(o) ==>
              var req := ParseRequest(Obj(o)).value;
              && req.model == StringAt(o, "model")
              && (req.stream <==> "stream" in o && o["stream"] == Bool(true))
              && req.temperature == NumberAt(o, "temperature") && req.topP == NumberAt(o, "top_p")
              && req.maxTokens == IntegerAt(o, "max_tokens")
              && req.maxCompletionTokens == IntegerAt(o, "max_completion_tokens")
              && req.stop == Field(Some(Obj(o)), "stop") && req.toolChoice == Field(Some(Obj(o)), "tool_choice")
              && ParseMessages(ItemsAt(o, "messages")) == Some(req.messages)
              && ParseTools(ItemsAt(o, "tools")) == Some(req.tools)
              && ContractIs(o, DecodeContract(req.responseFormat))
  {
    NumbersParse(o);
    OthersParse(o);
    MessagesParse(ItemsAt(o, "messages"));
    ToolsParse(ItemsAt(o, "tools"));
    FormatParses(o);
  }

  // Content

  lemma TextItemIs(o: Object)
    requires StringAt(o, "type") == "text"
    ensures IsImageLike(o) <==> "image_url" in o || "file_id" in o
  {
    PlainHasNoImage("text");
  }

  lemma ImageURLIs(o: Object)
    ensures ImageURLOf(o).Ok? <==>
              && o.Keys <= {"type", "image_url"} && "image_url" in o && o["image_url"].Obj?
              && o["image_url"].fields.Keys == {"url"} && o["image_url"].fields["url"].Str?
    ensures ImageURLOf(o).Ok? ==> Field(Field(Some(Obj(o)), "image_url"), "url") == Some(Str(ImageURLOf(o).value))
    ensures ImageURLOf(o).Err? ==>
              ImageURLOf(o).error
              == if || !(o.Keys <= {"type", "image_url"})
                    || ("image_url" in o && o["image_url"].Obj? && !(o["image_url"].fields.Keys <= {"url"}))
                 then UnsupportedCapability else InvalidRequest
  {
  }

  lemma ImageItemDecodes(parse: UrlParser, role: string, o: Object)
    requires StringAt(o, "type") == "image_url"
    ensures var r := DecodeItem(parse, role, NormalizeRole(role), o);
            && (r.Ok? <==> ImageItem(parse, role, o))
            && (r.Ok? ==> BlockIs(o, r.value))
            && (r.Err? ==> r.error == ItemError(parse, role, o))
  {
    ImageURLIs(o);
    if ImageURLOf(o).Ok? {
      ImageURLs(parse, ImageURLOf(o).value);
    }
  }

  lemma ItemDecodes(parse: UrlParser, role: string, o: Object)
    ensures var r := DecodeItem(parse, role, NormalizeRole(role), o);
            && (r.Ok? <==> GoodItem(parse, role, o))
            && (r.Ok? ==> BlockIs(o, r.value))
            && (r.Err? ==> r.error == ItemError(parse, role, o))
  {
    if StringAt(o, "type") == "text" {
      TextItemIs(o);
    } else if StringAt(o, "type") == "image_url" {
      ImageItemDecodes(parse, role, o);
    }
  }

  lemma StillFails(parse: UrlParser, role: string, front: seq<Object>, last: Object, error: DecodeError)
    requires ItemsFailWith(parse, role, front, error)
    ensures ItemsFailWith(parse, role, front + [last], error)
  {
    var all := front + [last];
    var i :| 0 <= i < |front| && !GoodItem(parse, role, front[i]) && error == ItemError(parse, role, front[i])
             && GoodItems(parse, role, front[..i]);
    assert all[i] == front[i] && all[..i] == front[..i];
  }

  lemma FailsAtLast(parse: UrlParser, role: string, front: seq<Object>, last: Object)
    requires GoodItems(parse, role, front) && !GoodItem(parse, role, last)
    ensures ItemsFailWith(parse, role, front + [last], ItemError(parse, role, last))
  {
    var all := front + [last];
    assert all[|front|] == last && all[..|front|] == front;
  }

  lemma OneMoreBlock(objects: seq<Object>, blocks: seq<ContentBlock>, o: Object, b: ContentBlock)
    requires BlocksAre(objects, blocks) && BlockIs(o, b)
    ensures BlocksAre(objects + [o], blocks + [b])
  {
  }

  lemma {:induction false} ItemsDecode(parse: UrlParser, role: string, objects: seq<Object>)
    ensures var r := DecodeItems(parse, role, NormalizeRole(role), objects);
            && (r.Ok? <==> GoodItems(parse, role, objects))
            && (r.Ok? ==> BlocksAre(objects, r.value))
            && (r.Err? ==> ItemsFailWith(parse, role, objects, r.error))
  {
    if objects != [] {
      var front, o := objects[..|objects| - 1], objects[|objects| - 1];
      ItemsDecode(parse, role, front);
      ItemDecodes(parse, role, o);
      FrontAndLast(objects);
      assert GoodItems(parse, role, objects) <==> GoodItems(parse, role, front) && GoodItem(parse, role, o);
      var blocks, last := DecodeItems(parse, role, NormalizeRole(role), front), DecodeItem(parse, role, NormalizeRole(role), o);
      if blocks.Err? {
        StillFails(parse, role, front, o, blocks.error);
      } else if last.Err? {
        FailsAtLast(parse, role, front, o);
      } else {
        OneMoreBlock(front, blocks.value, o, last.value);
      }
    }
  }

  lemma MessageDecodes(parse: UrlParser, message: Object)
    ensures var r := DecodeMessage(parse, ChatMessage(StringAt(message, "role"), RawField(message, "content")));
            && (r.Ok? <==> GoodContent(parse, message))
            && (r.Ok? ==> TurnIs(message, r.value))
            && (r.Err? ==> ContentFailsWith(parse, message, r.error))
  {
    RolesAgree(StringAt(message, "role"));
    if "content" in message && message["content"].Arr? {
      var items := message["content"].items;
      RecordsAgree(items);
      ItemsDecode(parse, StringAt(message, "role"), Records(items));
    }
  }

  predicate MessagesStandFor(items: seq<Json>, messages: seq<ChatMessage>) {
    && |messages| == |items|
    && forall i :: 0 <= i < |items| ==>
         messages[i] == ChatMessage(StringAt(MapValue(items[i]), "role"), RawField(MapValue(items[i]), "content"))
  }

  lemma OneMoreTurn(items: seq<Json>, turns: seq<Turn>, j: Json, t: Turn)
    requires TurnsAre(items, turns) && TurnIs(MapValue(j), t)
    ensures TurnsAre(items + [j], turns + [t])
  {
  }

  lemma MessagesStillFail(parse: UrlParser, front: seq<Json>, last: Json, error: DecodeError)
    requires MessagesFailWith(parse, front, error)
    ensures MessagesFailWith(parse, front + [last], error)
  {
    var all := front + [last];
    var i :| 0 <= i < |front| && !GoodContent(parse, MapValue(front[i])) && ContentFailsWith(parse, MapValue(front[i]), error)
             && forall j :: 0 <= j < i ==> GoodContent(parse, MapValue(front[j]));
    assert all[i] == front[i] && forall j :: 0 <= j < i ==> all[j] == front[j];
  }

  lemma MessagesFailAtLast(parse: UrlParser, front: seq<Json>, last: Json, error: DecodeError)
    requires forall i :: 0 <= i < |front| ==> GoodContent(parse, MapValue(front[i]))
    requires !GoodContent(parse, MapValue(last)) && ContentFailsWith(parse, MapValue(last), error)
    ensures MessagesFailWith(parse, front + [last], error)
  {
    assert (front + [last])[|front|] == last;
  }

  /** What a result says about the messages it is for. */
  ghost predicate Explains(parse: UrlParser, items: seq<Json>, r: Result<seq<Turn>>) {
    && (r.Ok? <==> forall i :: 0 <= i < |items| ==> GoodContent(parse, MapValue(items[i])))
    && (r.Ok? ==> TurnsAre(items, r.value))
    && (r.Err? ==> MessagesFailWith(parse, items, r.error))
  }

  lemma OneMoreResult(parse: UrlParser, front: seq<Json>, j: Json, turns: Result<seq<Turn>>, last: Result<Turn>)
    requires Explains(parse, front, turns)
    requires last.Ok? <==> GoodContent(parse, MapValue(j))
    requires last.Ok? ==> TurnIs(MapValue(j), last.value)
    requires last.Err? ==> ContentFailsWith(parse, MapValue(j), last.error)
    ensures Explains(parse, front + [j],
                     if turns.Err? then Err(turns.error)
                     else if last.Err? then Err(last.error)
                     else Ok(turns.value + [last.value]))
  {
    var all := front + [j];
    assert all[|front|] == j && forall i :: 0 <= i < |front| ==> all[i] == front[i];
    if turns.Err? {
      MessagesStillFail(parse, front, j, turns.error);
    } else if last.Err? {
      MessagesFailAtLast(parse, front, j, last.error);
    } else {
      OneMoreTurn(front, turns.value, j, last.value);
    }
  }

  lemma {:induction false} MessagesDecode(parse: UrlParser, items: seq<Json>, messages: seq<ChatMessage>)
    requires MessagesStandFor(items, messages)
    ensures Explains(parse, items, DecodeMessages(parse, messages))
  {
    if items != [] {
      var n := |items| - 1;
      MessagesDecode(parse, items[..n], messages[..n]);
      MessageDecodes(parse, MapValue(items[n]));
      OneMoreResult(parse, items[..n], items[n], DecodeMessages(parse, messages[..n]), DecodeMessage(parse, messages[n]));
      FrontAndLast(items);
    }
  }

  lemma {:induction false} StringsAre(items: seq<Json>)
    ensures StringsOf(items).Some? <==> forall i :: 0 <= i < |items| ==> items[i].Str? || items[i].Null?
    ensures StringsOf(items).Some? ==>
              && |StringsOf(items).value| == |items|
              && forall i :: 0 <= i < |items| ==> StringsOf(items).value[i] == TextOf(Some(items[i]))
  {
    if items != [] {
      StringsAre(items[..|items| - 1]);
    }
  }

  lemma StopDecodes(o: Object)
    ensures var r := DecodeStop(Field(Some(Obj(o)), "stop"));
            (if GoodStop(o) then r.Ok? && StopIs(o, r.value) else r == Err(InvalidStop))
  {
    if "stop" in o && o["stop"].Arr? {
      StringsAre(o["stop"].items);
    }
  }

  lemma ToolChoiceDecodes(o: Object)
    ensures DecodeToolChoice(Field(Some(Obj(o)), "tool_choice"))
         == if GoodToolChoice(o) then Ok(TextOf(Field(Field(Field(Some(Obj(o)), "tool_choice"), "function"), "name")))
            else Err(InvalidToolChoice)
  {
    if "tool_choice" in o && o["tool_choice"].Obj? {
      var choice := o["tool_choice"].fields;
      FieldsAgree(choice, "type");
      FieldsAgree(choice, "function");
      FieldsAgree(ObjectAt(choice, "function"), "name");
    }
  }

  // The whole request

  /** A body is accepted exactly when its keys have their types and its messages, tool choice and stop are good; the
      error is that of the part that failed first. */
  lemma ChatBodyAccepted(parse: UrlParser, o: Object)
    ensures var r := Decode(parse, Some(Obj(o)));
            if !Typed(o) then r == Err(InvalidRequest)
            else if !GoodMessages(parse, o) then r.Err? && MessagesFailWith(parse, ItemsAt(o, "messages"), r.error)
            else if !GoodToolChoice(o) then r == Err(InvalidToolChoice)
            else if !GoodStop(o) then r == Err(InvalidStop)
            else r.Ok?
  {
    RequestParses(o);
    if Typed(o) {
      MessagesParse(ItemsAt(o, "messages"));
      MessagesDecode(parse, ItemsAt(o, "messages"), ParseRequest(Obj(o)).value.messages);
      ToolChoiceDecodes(o);
      StopDecodes(o);
    }
  }

  /** Whatever body is accepted, every part of the canonical request is what the keys of the body say. */
  lemma ChatBodyMeans(parse: UrlParser, o: Object) returns (at: seq<nat>)
    requires Decode(parse, Some(Obj(o))).Ok?
    ensures Says(o, Decode(parse, Some(Obj(o))).value)
    ensures ToolsAre(ItemsAt(o, "tools"), Decode(parse, Some(Obj(o))).value.tools, at)
  {
    ChatBodyAccepted(parse, o);
    RequestParses(o);
    MessagesParse(ItemsAt(o, "messages"));
    MessagesDecode(parse, ItemsAt(o, "messages"), ParseRequest(Obj(o)).value.messages);
    ToolChoiceDecodes(o);
    StopDecodes(o);
    ToolsParse(ItemsAt(o, "tools"));
    at := ToolsDecode(ItemsAt(o, "tools"), ParseRequest(Obj(o)).value.tools);
  }

  /** A body that is null is an empty object; no other body that is not an object is accepted. */
  lemma OtherBodies(parse: UrlParser, body: Option<Json>)
    ensures body == Some(Null) ==> Decode(parse, body) == Decode(parse, Some(Obj(map[])))
    ensures body.None? || !IsRecord(body.value) ==> Decode(parse, body) == Err(InvalidRequest)
  {
  }
}

/** What a chat payload says to the upstream, by the same reading of its keys. */
module ChatPayload {
  import opened Config
  import opened Json
  import opened Canonical
  import opened RequestFields
  import opened ChatCodec
  import opened ChatRoundTrip
  import Meaning = ChatRequestMeaning

  /** Read by its keys, the payload of a well-formed request says that request, streamed and without a contract. */
  lemma ChatPayloadSays(parse: UrlParser, r: Request)
    requires WellFormed(parse, r)
    ensures Meaning.Says(Encode(r), r.(stream := true, contract := NoContract))
  {
    forall key
      ensures RawField(Encode(r), key) == PayloadField(r, key)
    {
      PayloadFields(r, key);
    }
    PayloadRoundTrip(parse, Encode(r), r);
    var at := Meaning.ChatBodyMeans(parse, Encode(r));
  }

  predicate PlainBlock(j: Json, b: ContentBlock) {
    match b
    case TextBlock(text) => j == Obj(map["type" := Str("text"), "text" := Str(text)])
    case ImageBlock(url) => j == Obj(map["type" := Str("image_url"), "image_url" := Obj(map["url" := Str(url)])])
  }

  /** A message is a role and a content: the text itself if that is all there is, else the list of its blocks. */
  predicate PlainMessage(j: Json, t: Turn) {
    && j.Obj? && j.fields.Keys == {"role", "content"}
    && (if |t.content| == 1 && t.content[0].TextBlock? then j.fields["content"] == Str(t.content[0].text)
        else
          && j.fields["content"].Arr? && |j.fields["content"].items| == |t.content|
          && forall i :: 0 <= i < |t.content| ==> PlainBlock(j.fields["content"].items[i], t.content[i]))
  }

  predicate PlainFunction(j: Option<Json>, keys: set<string>) {
    && j.Some? && j.value.Obj? && j.value.fields.Keys == {"type", "function"}
    && j.value.fields["type"] == Str("function")
    && j.value.fields["function"].Obj? && j.value.fields["function"].fields.Keys == keys
  }

  predicate PlainTool(j: Json, t: Tool) {
    && PlainFunction(Some(j), {"name", "parameters"})
    && Field(Field(Some(j), "function"), "name") == Some(Str(t.name))
    && SchemaOf(Field(Field(Some(j), "function"), "parameters")) == t.schema
  }

  /** The payload has no keys besides those that say something, at any level. */
  lemma ChatPayloadIsPlain(r: Request)
    ensures var messages := ItemsAt(Encode(r), "messages");
            |messages| == |r.conversation| && forall i :: 0 <= i < |messages| ==> PlainMessage(messages[i], r.conversation[i])
    ensures var tools := ItemsAt(Encode(r), "tools");
            |tools| == |r.tools| && forall i :: 0 <= i < |tools| ==> PlainTool(tools[i], r.tools[i])
    ensures r.toolChoice != "" ==> PlainFunction(Field(Some(Obj(Encode(r))), "tool_choice"), {"name"})
  {
    MessagesArePlain(r);
    ToolsArePlain(r);
    PayloadFields(r, "tool_choice");
  }

  lemma MessagesArePlain(r: Request)
    ensures var messages := ItemsAt(Encode(r), "messages");
            |messages| == |r.conversation| && forall i :: 0 <= i < |messages| ==> PlainMessage(messages[i], r.conversation[i])
  {
    PayloadFields(r, "messages");
    forall i | 0 <= i < |r.conversation|
      ensures PlainMessage(EncodeTurn(r.conversation[i]), r.conversation[i])
    {
      MessageIsPlain(r.conversation[i]);
    }
  }

  lemma ToolIsPlain(t: Tool)
    ensures PlainTool(EncodeTool(t), t)
  {
  }

  lemma ToolsArePlain(r: Request)
    ensures var tools := ItemsAt(Encode(r), "tools");
            |tools| == |r.tools| && forall i :: 0 <= i < |tools| ==> PlainTool(tools[i], r.tools[i])
  {
    PayloadFields(r, "tools");
    forall i | 0 <= i < |r.tools|
      ensures PlainTool(EncodeTool(r.tools[i]), r.tools[i])
    {
      ToolIsPlain(r.tools[i]);
    }
  }

  lemma MessageIsPlain(t: Turn)
    ensures PlainMessage(EncodeTurn(t), t)
  {
    assert EncodeTurn(t).fields.Keys == {"role", "content"};
    assert EncodeTurn(t).fields["content"] == EncodeContent(t.content);
  }
}

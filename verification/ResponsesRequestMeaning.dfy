/** What the responses endpoint accepts, and what the accepted request says. */
module ResponsesRequestMeaning {
  import opened Sequences
  import opened Config
  import opened Json
  import opened Events
  import opened Canonical
  import opened RequestFields
  import opened ResponsesCodec

  // Types

  predicate TypedInput(j: Json) {
    var o := MapValue(j);
    && IsRecord(j) && TextOrMissing(o, "role") && ListOrMissing(o, "content") && AllRecords(ItemsAt(o, "content"))
  }

  predicate TypedTool(j: Json) {
    var o := MapValue(j);
    IsRecord(j) && TextOrMissing(o, "type") && TextOrMissing(o, "name") && ObjectOrMissing(o, "parameters")
  }

  predicate TypedMetadata(o: Object) {
    && ObjectOrMissing(o, "metadata")
    && forall k :: k in ObjectAt(o, "metadata") ==> TextOrMissing(ObjectAt(o, "metadata"), k)
  }

  predicate Typed(o: Object) {
    && TextOrMissing(o, "model") && BoolOrMissing(o, "stream")
    && NumberOrMissing(o, "temperature") && NumberOrMissing(o, "top_p") && IntegerOrMissing(o, "max_output_tokens")
    && ObjectOrMissing(o, "text") && ObjectOrMissing(ObjectAt(o, "text"), "format")
    && ListOrMissing(o, "input") && (forall j :: j in ItemsAt(o, "input") ==> TypedInput(j))
    && ListOrMissing(o, "tools") && (forall j :: j in ItemsAt(o, "tools") ==> TypedTool(j))
    && TypedMetadata(o)
  }

  // Content

  predicate TextItem(o: Object) {
    StringAt(o, "type") == "input_text" && "image_url" !in o && "file_id" !in o && "text" in o && o["text"].Str?
  }

  predicate ImageItem(parse: UrlParser, role: string, o: Object) {
    && StringAt(o, "type") == "input_image" && role == "user" && o.Keys <= {"type", "image_url"}
    && "image_url" in o && o["image_url"].Str? && WebAddress(parse, o["image_url"].s)
  }

  predicate GoodItem(parse: UrlParser, role: string, o: Object) {
    TextItem(o) || ImageItem(parse, role, o)
  }

  /** An image of a user that asks for something that is not supported: a key that has no place, a file, or a data
      URL. */
  predicate UnsupportedItem(parse: UrlParser, role: string, o: Object) {
    && StringAt(o, "type") == "input_image" && role == "user"
    && (|| !(o.Keys <= {"type", "image_url"})
        || ("image_url" in o && o["image_url"].Obj? && "file_id" in o["image_url"].fields)
        || ("image_url" in o && o["image_url"].Str? && DataAddress(parse, o["image_url"].s)))
  }

  function ItemError(parse: UrlParser, role: string, o: Object): DecodeError {
    if UnsupportedItem(parse, role, o) then UnsupportedCapability else InvalidRequest
  }

  predicate GoodItems(parse: UrlParser, role: string, objects: seq<Object>) {
    forall i :: 0 <= i < |objects| ==> GoodItem(parse, role, objects[i])
  }

  /** The first bad item decides the error of a list. */
  ghost predicate ItemsFailWith(parse: UrlParser, role: string, objects: seq<Object>, error: DecodeError) {
    exists i :: && 0 <= i < |objects| && !GoodItem(parse, role, objects[i]) && error == ItemError(parse, role, objects[i])
                && GoodItems(parse, role, objects[..i])
  }

  predicate GoodInput(parse: UrlParser, j: Json) {
    GoodItems(parse, StringAt(MapValue(j), "role"), Records(ItemsAt(MapValue(j), "content")))
  }

  predicate GoodInputs(parse: UrlParser, items: seq<Json>) {
    forall i :: 0 <= i < |items| ==> GoodInput(parse, items[i])
  }

  ghost predicate InputFailsWith(parse: UrlParser, j: Json, error: DecodeError) {
    ItemsFailWith(parse, StringAt(MapValue(j), "role"), Records(ItemsAt(MapValue(j), "content")), error)
  }

  /** The first bad input decides the error of the request. */
  ghost predicate InputsFailWith(parse: UrlParser, items: seq<Json>, error: DecodeError) {
    exists i :: && 0 <= i < |items| && !GoodInput(parse, items[i])
                && InputFailsWith(parse, items[i], error)
                && GoodInputs(parse, items[..i])
  }

  // What an accepted request says

  predicate BlockIs(o: Object, b: ContentBlock) {
    match b
    case TextBlock(text) => StringAt(o, "type") == "input_text" && Field(Some(Obj(o)), "text") == Some(Str(text))
    case ImageBlock(url) => StringAt(o, "type") == "input_image" && Field(Some(Obj(o)), "image_url") == Some(Str(url))
  }

  predicate BlocksAre(objects: seq<Object>, blocks: seq<ContentBlock>) {
    |blocks| == |objects| && forall i :: 0 <= i < |objects| ==> BlockIs(objects[i], blocks[i])
  }

  predicate TurnIs(j: Json, t: Turn) {
    RoleIs(StringAt(MapValue(j), "role"), t.role) && BlocksAre(Records(ItemsAt(MapValue(j), "content")), t.content)
  }

  predicate TurnsAre(items: seq<Json>, turns: seq<Turn>) {
    |turns| == |items| && forall i :: 0 <= i < |items| ==> TurnIs(items[i], turns[i])
  }

  predicate ContractIs(o: Object, contract: ResponseContract) {
    var format := Field(Field(Some(Obj(o)), "text"), "format");
    var formatType := TextOf(Field(format, "type"));
    match contract
    case JSONObjectContract => formatType == "json_object"
    case JSONSchemaContract(schema) => formatType == "json_schema" && schema == SchemaOf(Field(format, "schema"))
    case NoContract => formatType != "json_object" && formatType != "json_schema"
  }

  predicate MetadataIs(o: Object, metadata: map<string, string>) {
    var sent := ObjectAt(o, "metadata");
    metadata.Keys == sent.Keys && forall k :: k in sent ==> metadata[k] == TextOf(Some(sent[k]))
  }

  /** Every part of the request, tools aside, in terms of the keys of the body. */
  predicate Says(o: Object, r: Request) {
    && r.kind == Responses && r.toolChoice == "" && r.generation.stop == []
    && r.model == StringAt(o, "model")
    && (r.stream <==> "stream" in o && o["stream"] == Bool(true))
    && r.generation.temperature == NumberAt(o, "temperature")
    && r.generation.topP == NumberAt(o, "top_p")
    && r.generation.maxOutputTokens == IntegerAt(o, "max_output_tokens")
    && ContractIs(o, r.contract)
    && MetadataIs(o, r.metadata)
    && TurnsAre(ItemsAt(o, "input"), r.conversation)
  }

  /** An entry that has a name. */
  predicate IsNamed(j: Json) {
    TextOf(Field(Some(j), "name")) != ""
  }

  function NamedTool(j: Json): Tool {
    Tool(TextOf(Field(Some(j), "name")), SchemaOf(Field(Some(j), "parameters")))
  }

  /** The tools are the entries at these positions, which are exactly those that have a name. */
  ghost predicate ToolsAre(items: seq<Json>, tools: seq<Tool>, at: seq<nat>) {
    && |at| == |tools|
    && (forall i :: 0 <= i < |at| ==> at[i] < |items| && tools[i] == NamedTool(items[at[i]]))
    && (forall i, j :: 0 <= i < j < |at| ==> at[i] < at[j])
    && (forall k :: 0 <= k < |items| ==> (k in at <==> IsNamed(items[k])))
  }

  // The typed request

  predicate InputStandsFor(j: Json, i: Input) {
    i == Input(StringAt(MapValue(j), "role"), Records(ItemsAt(MapValue(j), "content")))
  }

  predicate InputsStandFor(items: seq<Json>, inputs: seq<Input>) {
    |inputs| == |items| && forall i :: 0 <= i < |items| ==> InputStandsFor(items[i], inputs[i])
  }

  lemma InputParses(j: Json)
    ensures ParseInput(j).Some? <==> TypedInput(j)
    ensures ParseInput(j).Some? ==> InputStandsFor(j, ParseInput(j).value)
  {
    var o := MapValue(j);
    FieldsAgree(o, "role");
    FieldsAgree(o, "content");
    RecordsAgree(ItemsAt(o, "content"));
  }

  lemma {:induction false} InputsParse(items: seq<Json>)
    ensures ParseInputs(items).Some? <==> forall i :: 0 <= i < |items| ==> TypedInput(items[i])
    ensures ParseInputs(items).Some? ==> InputsStandFor(items, ParseInputs(items).value)
  {
    if items != [] {
      InputsParse(items[..|items| - 1]);
      InputParses(items[|items| - 1]);
    }
  }

  predicate ToolStandsFor(j: Json, t: InputTool) {
    t == InputTool(TextOf(Field(Some(j), "name")), SchemaOf(Field(Some(j), "parameters")))
  }

  predicate ToolsStandFor(items: seq<Json>, tools: seq<InputTool>) {
    |tools| == |items| && forall i :: 0 <= i < |items| ==> ToolStandsFor(items[i], tools[i])
  }

  lemma ToolParses(j: Json)
    ensures ParseTool(j).Some? <==> TypedTool(j)
    ensures ParseTool(j).Some? ==> ToolStandsFor(j, ParseTool(j).value)
  {
    var o := MapValue(j);
    FieldsAgree(o, "type");
    FieldsAgree(o, "name");
    FieldsAgree(o, "parameters");
  }

  lemma {:induction false} ToolsParse(items: seq<Json>)
    ensures ParseTools(items).Some? <==> forall i :: 0 <= i < |items| ==> TypedTool(items[i])
    ensures ParseTools(items).Some? ==> ToolsStandFor(items, ParseTools(items).value)
  {
    if items != [] {
      ToolsParse(items[..|items| - 1]);
      ToolParses(items[|items| - 1]);
    }
  }

  lemma OneMoreTool(items: seq<Json>, tools: seq<Tool>, at: seq<nat>, j: Json)
    requires ToolsAre(items, tools, at)
    ensures IsNamed(j) ==> ToolsAre(items + [j], tools + [NamedTool(j)], at + [|items|])
    ensures !IsNamed(j) ==> ToolsAre(items + [j], tools, at)
  {
    var all := items + [j];
    assert forall i :: 0 <= i < |at| ==> at[i] in at && at[i] < |items| && all[at[i]] == items[at[i]];
    assert forall k :: 0 <= k < |items| ==> all[k] == items[k];
  }

  lemma {:induction false} ToolsDecode(items: seq<Json>, tools: seq<InputTool>) returns (at: seq<nat>)
    requires ToolsStandFor(items, tools)
    ensures ToolsAre(items, DecodeTools(tools), at)
  {
    at := [];
    if items != [] {
      var n := |items| - 1;
      at := ToolsDecode(items[..n], tools[..n]);
      OneMoreTool(items[..n], DecodeTools(tools[..n]), at, items[n]);
      FrontAndLast(items);
      assert ToolStandsFor(items[n], tools[n]);
      if IsNamed(items[n]) {
        at := at + [n];
      } else {
        AppendEmpty(DecodeTools(tools[..n]));
      }
    }
  }

  lemma FormatParses(o: Object)
    ensures ParseFormat(o).Some? <==> ObjectOrMissing(o, "text") && ObjectOrMissing(ObjectAt(o, "text"), "format")
    ensures ParseFormat(o).Some? ==> ContractIs(o, DecodeContract(ParseFormat(o).value))
  {
    FieldsAgree(o, "text");
    FieldsAgree(ObjectAt(o, "text"), "format");
  }

  lemma MetadataParses(o: Object)
    ensures StringMapField(o, "metadata").Some? <==> TypedMetadata(o)
    ensures StringMapField(o, "metadata").Some? ==> MetadataIs(o, StringMapField(o, "metadata").value)
  {
    FieldsAgree(o, "metadata");
  }

  lemma OthersParse(o: Object)
    ensures StringField(o, "model") == if TextOrMissing(o, "model") then Some(StringAt(o, "model")) else None
    ensures BoolField(o, "stream") == if BoolOrMissing(o, "stream") then Some("stream" in o && o["stream"] == Bool(true)) else None
    ensures NumberField(o, "temperature") == if NumberOrMissing(o, "temperature") then Some(NumberAt(o, "temperature")) else None
    ensures NumberField(o, "top_p") == if NumberOrMissing(o, "top_p") then Some(NumberAt(o, "top_p")) else None
    ensures IntField(o, "max_output_tokens")
         == if IntegerOrMissing(o, "max_output_tokens") then Some(IntegerAt(o, "max_output_tokens")) else None
    ensures ListField(o, "input") == if ListOrMissing(o, "input") then Some(ItemsAt(o, "input")) else None
    ensures ListField(o, "tools") == if ListOrMissing(o, "tools") then Some(ItemsAt(o, "tools")) else None
  {
    FieldsAgree(o, "model");
    FieldsAgree(o, "stream");
    FieldsAgree(o, "temperature");
    FieldsAgree(o, "top_p");
    FieldsAgree(o, "max_output_tokens");
    FieldsAgree(o, "input");
    FieldsAgree(o, "tools");
  }

  lemma RequestParses(o: Object)
    ensures ParseRequest(Obj(o)).Some? <==> Typed(o)
    ensures Typed(o) ==>
              var req := ParseRequest(Obj(o)).value;
              && req.model == StringAt(o, "model")
              && (req.stream <==> "stream" in o && o["stream"] == Bool(true))
              && req.temperature == NumberAt(o, "temperature") && req.topP == NumberAt(o, "top_p")
              && req.maxOutputTokens == IntegerAt(o, "max_output_tokens")
              && InputsStandFor(ItemsAt(o, "input"), req.input)
              && ToolsStandFor(ItemsAt(o, "tools"), req.tools)
              && ContractIs(o, DecodeContract(req.format))
              && MetadataIs(o, req.metadata)
  {
    OthersParse(o);
    InputsParse(ItemsAt(o, "input"));
    ToolsParse(ItemsAt(o, "tools"));
    FormatParses(o);
    MetadataParses(o);
  }

  // Content

  lemma TextItemIs(o: Object)
    requires StringAt(o, "type") == "input_text"
    ensures IsImageLike(o) <==> "image_url" in o || "file_id" in o
  {
    InputTextIsPlain();
    PlainHasNoImage("input_text");
  }

  lemma ImageURLIs(o: Object)
    ensures ImageURLOf(o).Ok? <==> o.Keys <= {"type", "image_url"} && "image_url" in o && o["image_url"].Str?
    ensures ImageURLOf(o).Ok? ==> Field(Some(Obj(o)), "image_url") == Some(Str(ImageURLOf(o).value))
    ensures ImageURLOf(o).Err? ==>
              ImageURLOf(o).error
              == if || !(o.Keys <= {"type", "image_url"})
                    || ("image_url" in o && o["image_url"].Obj? && "file_id" in o["image_url"].fields)
                 then UnsupportedCapability else InvalidRequest
  {
  }

  lemma ImageItemDecodes(parse: UrlParser, role: string, o: Object)
    requires StringAt(o, "type") == "input_image"
    ensures var r := DecodeItem(parse, role, NormalizeRole(role), o);
            && (r.Ok? <==> ImageItem(parse, role, o))
            && (r.Ok? ==> BlockIs(o, r.value))
            && (r.Err? ==> r.error == ItemError(parse, role, o))
  {
    assert |"input_image"| != |"input_text"|;
    ImageURLIs(o);
    if ImageURLOf(o).Ok? {
      ImageURLs(parse, ImageURLOf(o).value);
    }
  }

  lemma TextItemDecodes(parse: UrlParser, role: string, o: Object)
    requires StringAt(o, "type") == "input_text"
    ensures var r := DecodeItem(parse, role, NormalizeRole(role), o);
            && (r.Ok? <==> TextItem(o))
            && (r.Ok? ==> BlockIs(o, r.value))
            && (r.Err? ==> r.error == InvalidRequest)
  {
    TextItemIs(o);
  }

  lemma ItemDecodes(parse: UrlParser, role: string, o: Object)
    ensures var r := DecodeItem(parse, role, NormalizeRole(role), o);
            && (r.Ok? <==> GoodItem(parse, role, o))
            && (r.Ok? ==> BlockIs(o, r.value))
            && (r.Err? ==> r.error == ItemError(parse, role, o))
  {
    assert |"input_image"| != |"input_text"|;
    if StringAt(o, "type") == "input_text" {
      TextItemDecodes(parse, role, o);
    } else if StringAt(o, "type") == "input_image" {
      ImageItemDecodes(parse, role, o);
    }
  }

  lemma StillFails(parse: UrlParser, role: string, front: seq<Object>, last: Object, error: DecodeError)
    requires ItemsFailWith(parse, role, front, error)
    ensures ItemsFailWith(parse, role, front + [last], error)
  {
    var all := front + [last];
    var i :| 0 <= i < |front| && !GoodItem(parse, role, front[i]) && error == ItemError(parse, role, front[i])
             && GoodItems(parse, role, front[..i]);
    assert all[i] == front[i] && all[..i] == front[..i];
  }

  lemma FailsAtLast(parse: UrlParser, role: string, front: seq<Object>, last: Object)
    requires GoodItems(parse, role, front) && !GoodItem(parse, role, last)
    ensures ItemsFailWith(parse, role, front + [last], ItemError(parse, role, last))
  {
    var all := front + [last];
    assert all[|front|] == last && all[..|front|] == front;
  }

  lemma OneMoreBlock(objects: seq<Object>, blocks: seq<ContentBlock>, o: Object, b: ContentBlock)
    requires BlocksAre(objects, blocks) && BlockIs(o, b)
    ensures BlocksAre(objects + [o], blocks + [b])
  {
  }

  lemma {:induction false} ItemsDecode(parse: UrlParser, role: string, objects: seq<Object>)
    ensures var r := DecodeItems(parse, role, NormalizeRole(role), objects);
            && (r.Ok? <==> GoodItems(parse, role, objects))
            && (r.Ok? ==> BlocksAre(objects, r.value))
            && (r.Err? ==> ItemsFailWith(parse, role, objects, r.error))
  {
    if objects != [] {
      var front, o := objects[..|objects| - 1], objects[|objects| - 1];
      ItemsDecode(parse, role, front);
      ItemDecodes(parse, role, o);
      FrontAndLast(objects);
      assert GoodItems(parse, role, objects) <==> GoodItems(parse, role, front) && GoodItem(parse, role, o);
      var blocks, last := DecodeItems(parse, role, NormalizeRole(role), front), DecodeItem(parse, role, NormalizeRole(role), o);
      if blocks.Err? {
        StillFails(parse, role, front, o, blocks.error);
      } else if last.Err? {
        FailsAtLast(parse, role, front, o);
      } else {
        OneMoreBlock(front, blocks.value, o, last.value);
      }
    }
  }

  lemma InputDecodes(parse: UrlParser, j: Json, i: Input)
    requires InputStandsFor(j, i)
    ensures var r := DecodeInput(parse, i);
            && (r.Ok? <==> GoodInput(parse, j))
            && (r.Ok? ==> TurnIs(j, r.value))
            && (r.Err? ==> InputFailsWith(parse, j, r.error))
  {
    RolesAgree(i.role);
    ItemsDecode(parse, i.role, i.content);
  }

  lemma InputsStillFail(parse: UrlParser, front: seq<Json>, last: Json, error: DecodeError)
    requires InputsFailWith(parse, front, error)
    ensures InputsFailWith(parse, front + [last], error)
  {
    var all := front + [last];
    var i :| && 0 <= i < |front| && !GoodInput(parse, front[i])
             && InputFailsWith(parse, front[i], error)
             && GoodInputs(parse, front[..i]);
    assert all[i] == front[i] && all[..i] == front[..i];
  }

  lemma InputsFailAtLast(parse: UrlParser, front: seq<Json>, last: Json, error: DecodeError)
    requires GoodInputs(parse, front) && !GoodInput(parse, last)
    requires InputFailsWith(parse, last, error)
    ensures InputsFailWith(parse, front + [last], error)
  {
    var all := front + [last];
    assert all[|front|] == last && all[..|front|] == front;
  }

  lemma OneMoreTurn(items: seq<Json>, turns: seq<Turn>, j: Json, t: Turn)
    requires TurnsAre(items, turns) && TurnIs(j, t)
    ensures TurnsAre(items + [j], turns + [t])
  {
  }

  /** What a result says about the inputs it is for. */
  ghost predicate Explains(parse: UrlParser, items: seq<Json>, r: Result<seq<Turn>>) {
    && (r.Ok? <==> GoodInputs(parse, items))
    && (r.Ok? ==> TurnsAre(items, r.value))
    && (r.Err? ==> InputsFailWith(parse, items, r.error))
  }

  lemma GoodInputsGrow(parse: UrlParser, front: seq<Json>, j: Json)
    ensures GoodInputs(parse, front + [j]) <==> GoodInputs(parse, front) && GoodInput(parse, j)
  {
    var all := front + [j];
    assert all[|front|] == j && forall i :: 0 <= i < |front| ==> all[i] == front[i];
  }

  lemma OneMoreResult(parse: UrlParser, front: seq<Json>, j: Json, turns: Result<seq<Turn>>, last: Result<Turn>)
    requires Explains(parse, front, turns)
    requires last.Ok? <==> GoodInput(parse, j)
    requires last.Ok? ==> TurnIs(j, last.value)
    requires last.Err? ==> InputFailsWith(parse, j, last.error)
    ensures Explains(parse, front + [j],
                     if turns.Err? then Err(turns.error)
                     else if last.Err? then Err(last.error)
                     else Ok(turns.value + [last.value]))
  {
    GoodInputsGrow(parse, front, j);
    if turns.Err? {
      InputsStillFail(parse, front, j, turns.error);
    } else if last.Err? {
      InputsFailAtLast(parse, front, j, last.error);
    } else {
      OneMoreTurn(front, turns.value, j, last.value);
    }
  }

  lemma {:induction false} InputsDecode(parse: UrlParser, items: seq<Json>, inputs: seq<Input>)
    requires InputsStandFor(items, inputs)
    ensures Explains(parse, items, DecodeInputs(parse, inputs))
  {
    if items != [] {
      var n := |items| - 1;
      InputsDecode(parse, items[..n], inputs[..n]);
      InputDecodes(parse, items[n], inputs[n]);
      OneMoreResult(parse, items[..n], items[n], DecodeInputs(parse, inputs[..n]), DecodeInput(parse, inputs[n]));
      FrontAndLast(items);
    }
  }

  // The whole request

  /** A body is accepted exactly when its keys have their types and its inputs are good; the error is that of the
      first bad item of the first bad input. */
  lemma ResponsesBodyAccepted(parse: UrlParser, o: Object)
    ensures var r := Decode(parse, Some(Obj(o)));
            if !Typed(o) then r == Err(InvalidRequest)
            else if !GoodInputs(parse, ItemsAt(o, "input")) then r.Err? && InputsFailWith(parse, ItemsAt(o, "input"), r.error)
            else r.Ok?
  {
    RequestParses(o);
    if Typed(o) {
      InputsDecode(parse, ItemsAt(o, "input"), ParseRequest(Obj(o)).value.input);
    }
  }

  /** Whatever body is accepted, every part of the canonical request is what the keys of the body say. */
  lemma ResponsesBodyMeans(parse: UrlParser, o: Object) returns (at: seq<nat>)
    requires Decode(parse, Some(Obj(o))).Ok?
    ensures Says(o, Decode(parse, Some(Obj(o))).value)
    ensures ToolsAre(ItemsAt(o, "tools"), Decode(parse, Some(Obj(o))).value.tools, at)
  {
    ResponsesBodyAccepted(parse, o);
    RequestParses(o);
    InputsDecode(parse, ItemsAt(o, "input"), ParseRequest(Obj(o)).value.input);
    at := ToolsDecode(ItemsAt(o, "tools"), ParseRequest(Obj(o)).value.tools);
  }

  /** A body that is null is an empty object; no other body that is not an object is accepted. */
  lemma OtherBodies(parse: UrlParser, body: Option<Json>)
    ensures body == Some(Null) ==> Decode(parse, body) == Decode(parse, Some(Obj(map[])))
    ensures body.None? || !IsRecord(body.value) ==> Decode(parse, body) == Err(InvalidRequest)
  {
  }
}

/** What a responses payload says to the upstream, by the same reading of its keys. */
module ResponsesPayload {
  import opened Config
  import opened Json
  import opened Canonical
  import opened RequestFields
  import opened ResponsesCodec
  import opened ResponsesRoundTrip
  import Meaning = ResponsesRequestMeaning

  /** Read by its keys, the payload of a well-formed request says that request, streamed, without contract and tools. */
  lemma ResponsesPayloadSays(parse: UrlParser, r: Request)
    requires WellFormed(parse, r)
    ensures Meaning.Says(Encode(r), r.(stream := true, contract := NoContract, tools := []))
  {
    forall key
      ensures RawField(Encode(r), key) == PayloadField(r, key)
    {
      PayloadFields(r, key);
    }
    PayloadRoundTrip(parse, Encode(r), r);
    var at := Meaning.ResponsesBodyMeans(parse, Encode(r));
  }

  predicate PlainBlock(j: Json, b: ContentBlock) {
    match b
    case TextBlock(text) => j == Obj(map["type" := Str("input_text"), "text" := Str(text)])
    case ImageBlock(url) => j == Obj(map["type" := Str("input_image"), "image_url" := Str(url)])
  }

  predicate PlainInput(j: Json, t: Turn) {
    && j.Obj? && j.fields.Keys == {"role", "content"}
    && j.fields["content"].Arr? && |j.fields["content"].items| == |t.content|
    && forall i :: 0 <= i < |t.content| ==> PlainBlock(j.fields["content"].items[i], t.content[i])
  }

  /** The inputs have no keys besides those that say something, at any level. */
  lemma ResponsesPayloadIsPlain(r: Request)
    ensures var inputs := ItemsAt(Encode(r), "input");
            |inputs| == |r.conversation| && forall i :: 0 <= i < |inputs| ==> PlainInput(inputs[i], r.conversation[i])
  {
    PayloadFields(r, "input");
    forall i | 0 <= i < |r.conversation|
      ensures PlainInput(EncodeTurn(r.conversation[i]), r.conversation[i])
    {
      InputIsPlain(r.conversation[i]);
    }
  }

  lemma InputIsPlain(t: Turn)
    ensures PlainInput(EncodeTurn(t), t)
  {
    assert EncodeTurn(t).fields.Keys == {"role", "content"};
    assert EncodeTurn(t).fields["content"] == Arr(EncodeBlocks(t.content));
  }
}

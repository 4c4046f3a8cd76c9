/** Public request bodies as a sender writes them: keys, types and what each says. */
module RequestFields {
  import opened Config
  import opened Json
  import opened Lines
  import opened Canonical

  predicate BoolOrMissing(o: Object, key: string) {
    Missing(o, key) || o[key].Bool?
  }

  predicate NumberOrMissing(o: Object, key: string) {
    Missing(o, key) || o[key].Num?
  }

  /** An integer literal of 64 bits. */
  predicate IsInteger(j: Json) {
    j.Num? && j.n.scale == 0 && -0x8000_0000_0000_0000 <= j.n.unscaled < 0x8000_0000_0000_0000
  }

  predicate IntegerOrMissing(o: Object, key: string) {
    Missing(o, key) || IsInteger(o[key])
  }

  predicate ListOrMissing(o: Object, key: string) {
    Missing(o, key) || o[key].Arr?
  }

  function NumberAt(o: Object, key: string): Option<Decimal> {
    if key in o && o[key].Num? then Some(o[key].n) else None
  }

  function IntegerAt(o: Object, key: string): Option<int> {
    if key in o && o[key].Num? then Some(o[key].n.unscaled) else None
  }

  function ItemsAt(o: Object, key: string): seq<Json> {
    if key in o && o[key].Arr? then o[key].items else []
  }

  function SchemaOf(j: Option<Json>): Option<Object> {
    match j
    case Some(Obj(schema)) => Some(schema)
    case _ => None
  }

  /** The typed fields are there exactly when the keys have their types, and hold what the keys hold. */
  lemma FieldsAgree(o: Object, key: string)
    ensures StringField(o, key) == if TextOrMissing(o, key) then Some(StringAt(o, key)) else None
    ensures BoolField(o, key) == if BoolOrMissing(o, key) then Some(key in o && o[key] == Bool(true)) else None
    ensures NumberField(o, key) == if NumberOrMissing(o, key) then Some(NumberAt(o, key)) else None
    ensures IntField(o, key) == if IntegerOrMissing(o, key) then Some(IntegerAt(o, key)) else None
    ensures ListField(o, key) == if ListOrMissing(o, key) then Some(ItemsAt(o, key)) else None
    ensures ObjectField(o, key) == if ObjectOrMissing(o, key) then Some(ObjectAt(o, key)) else None
    ensures SchemaField(o, key) == if ObjectOrMissing(o, key) then Some(SchemaOf(Field(Some(Obj(o)), key))) else None
  {
  }

  predicate IsRecord(j: Json) {
    j.Null? || j.Obj?
  }

  predicate AllRecords(items: seq<Json>) {
    forall i :: 0 <= i < |items| ==> IsRecord(items[i])
  }

  /** The objects in a list; null is an empty one. */
  function Records(items: seq<Json>): seq<Object> {
    seq(|items|, i requires 0 <= i < |items| => MapValue(items[i]))
  }

  lemma {:induction false} RecordsAgree(items: seq<Json>)
    ensures ObjectsOf(items) == if AllRecords(items) then Some(Records(items)) else None
  {
    if items == [] {
      assert Records(items) == [];
    } else {
      var n := |items| - 1;
      RecordsAgree(items[..n]);
      assert AllRecords(items) <==> AllRecords(items[..n]) && IsRecord(items[n]);
      assert Records(items) == Records(items[..n]) + [MapValue(items[n])];
    }
  }

  /** The words for roles; any other word means the user. */
  predicate RoleIs(word: string, role: Role) {
    match role
    case SystemRole => word == "system"
    case AssistantRole => word == "assistant"
    case ToolRole => word == "tool"
    case UserRole => word != "system" && word != "assistant" && word != "tool"
  }

  lemma RolesAgree(word: string)
    ensures RoleIs(word, NormalizeRole(word))
    ensures RoleName(NormalizeRole(word)) == if word in {"system", "assistant", "tool"} then word else "user"
  {
  }

  /** An absolute web address: after trimming not empty, parsed, of scheme http or https, and with a host. */
  predicate WebAddress(parse: UrlParser, raw: string) {
    var text := TrimSpace(raw);
    && text != ""
    && parse(text).Some?
    && (Lower(parse(text).value.scheme) == "http" || Lower(parse(text).value.scheme) == "https")
    && parse(text).value.host != ""
  }

  predicate DataAddress(parse: UrlParser, raw: string) {
    TrimSpace(raw) != "" && parse(TrimSpace(raw)).Some? && Lower(parse(TrimSpace(raw)).value.scheme) == "data"
  }

  /** Data URLs are unsupported; anything else that is not a web address is invalid. */
  lemma ImageURLs(parse: UrlParser, raw: string)
    ensures ImageURLError(parse, raw) == None <==> WebAddress(parse, raw)
    ensures ImageURLError(parse, raw) == Some(UnsupportedCapability) <==> DataAddress(parse, raw)
    ensures ImageURLError(parse, raw) in {None, Some(UnsupportedCapability), Some(InvalidRequest)}
  {
  }

  /** Lower-casing changes capital ASCII letters, one by one, and nothing else. */
  lemma {:induction false} LowerIs(s: string)
    ensures |Lower(s)| == |s|
    ensures forall i :: 0 <= i < |s| ==>
              Lower(s)[i] == if 'A' <= s[i] <= 'Z' then s[i] - 'A' + 'a' else s[i]
  {
    if s != "" {
      LowerIs(s[1..]);
      assert forall i :: 1 <= i < |s| ==> s[i] == s[1..][i - 1];
    }
  }
}

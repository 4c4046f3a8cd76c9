/** Canonical requests, and the checks on public request fields that both endpoints share. */
module Canonical {
  import opened Config
  import opened Json
  import opened Lines
  import opened Events

  datatype Result<T> = Ok(value: T) | Err(error: DecodeError)

  datatype DecodeError = InvalidRequest | UnsupportedCapability | InvalidToolChoice | InvalidStop

  datatype Role = SystemRole | UserRole | AssistantRole | ToolRole

  datatype ContentBlock = TextBlock(text: string) | ImageBlock(url: string)

  datatype Turn = Turn(role: Role, content: seq<ContentBlock>)

  /** A schema that is absent differs from an empty one. */
  datatype Tool = Tool(name: string, schema: Option<Object>)

  datatype Generation = Generation(
    temperature: Option<Decimal>,
    topP: Option<Decimal>,
    maxOutputTokens: Option<int>,
    stop: seq<string>)

  datatype ResponseContract = NoContract | JSONObjectContract | JSONSchemaContract(schema: Option<Object>)

  datatype Request = Request(
    kind: EndpointKind,
    model: string,
    conversation: seq<Turn>,
    generation: Generation,
    tools: seq<Tool>,
    toolChoice: string,
    contract: ResponseContract,
    stream: bool,
    metadata: map<string, string>)

  function NormalizeRole(role: string): Role {
    if role == "system" then SystemRole
    else if role == "assistant" then AssistantRole
    else if role == "tool" then ToolRole
    else UserRole
  }

  function RoleName(role: Role): string {
    match role
    case SystemRole => "system"
    case UserRole => "user"
    case AssistantRole => "assistant"
    case ToolRole => "tool"
  }

  // Typed fields

  function BoolField(o: Object, key: string): Option<bool> {
    match ValueAt(o, key)
    case Null => Some(false)
    case Bool(b) => Some(b)
    case _ => None
  }

  /** A pointer to a number: absent and null leave it unset. */
  function NumberField(o: Object, key: string): Option<Option<Decimal>> {
    match ValueAt(o, key)
    case Null => Some(None)
    case Num(n) => Some(Some(n))
    case _ => None
  }

  const INT_MIN: int := -0x8000_0000_0000_0000
  const INT_MAX: int := 0x7fff_ffff_ffff_ffff

  /** A pointer to a 64-bit integer: the literal must be one and fit. */
  function IntField(o: Object, key: string): Option<Option<int>> {
    match ValueAt(o, key)
    case Null => Some(None)
    case Num(n) => if n.scale == 0 && INT_MIN <= n.unscaled <= INT_MAX then Some(Some(n.unscaled)) else None
    case _ => None
  }

  function ListField(o: Object, key: string): Option<seq<Json>> {
    match ValueAt(o, key)
    case Null => Some([])
    case Arr(items) => Some(items)
    case _ => None
  }

  /** A map that remembers whether it was there at all. */
  function SchemaField(o: Object, key: string): Option<Option<Object>> {
    match ValueAt(o, key)
    case Null => Some(None)
    case Obj(m) => Some(Some(m))
    case _ => None
  }

  function SchemaValue(schema: Option<Object>): Json {
    if schema.Some? then Obj(schema.value) else Null
  }

  /** A field kept as it stands, null included. */
  function RawField(o: Object, key: string): Option<Json> {
    if key in o then Some(o[key]) else None
  }

  /** Null is the zero struct; anything but an object is an error. */
  function StructOf(j: Json): Option<Object> {
    match j
    case Null => Some(map[])
    case Obj(o) => Some(o)
    case _ => None
  }

  /** The elements of an array of maps. */
  function ObjectsOf(items: seq<Json>): Option<seq<Object>> {
    if items == [] then Some([])
    else
      match (ObjectsOf(items[..|items| - 1]), StructOf(items[|items| - 1]))
      case (Some(front), Some(o)) => Some(front + [o])
      case _ => None
  }

  // Image checks

  datatype URL = URL(scheme: string, host: string)

  /** The URL library, which may reject a text. */
  type UrlParser = string -> Option<URL>

  function Lower(s: string): string {
    if s == "" then ""
    else [if 'A' <= s[0] <= 'Z' then s[0] - 'A' + 'a' else s[0]] + Lower(s[1..])
  }

  predicate Contains(s: string, part: string) {
    exists i :: 0 <= i <= |s| && part <= s[i..]
  }

  /** Small letters without an m, and underscores. */
  predicate PlainChar(c: char) {
    c == '_' || ('a' <= c <= 'z' && c != 'm')
  }

  lemma {:induction false} LowerKeepsPlain(s: string)
    requires forall i :: 0 <= i < |s| ==> PlainChar(s[i])
    ensures Lower(s) == s
  {
    if s != "" {
      LowerKeepsPlain(s[1..]);
      assert s == [s[0]] + s[1..];
    }
  }

  lemma PlainDoesNotStartImage(s: string, i: nat)
    requires i <= |s| && forall k :: 0 <= k < |s| ==> PlainChar(s[k])
    ensures !("image" <= s[i..])
  {
    var rest := s[i..];
    assert "image"[1] == 'm';
    assert 1 < |rest| ==> rest[1] == s[i + 1] != 'm';
  }

  lemma PlainHasNoImage(s: string)
    requires forall k :: 0 <= k < |s| ==> PlainChar(s[k])
    ensures !Contains(Lower(s), "image")
  {
    LowerKeepsPlain(s);
    forall i | 0 <= i <= |s|
      ensures !("image" <= s[i..])
    {
      PlainDoesNotStartImage(s, i);
    }
  }

  /** An item of nothing but a plain type and a text is not image-like. */
  lemma PlainItemIsNotImageLike(item: Object, itemType: string)
    requires item.Keys == {"type", "text"} && item["type"] == Str(itemType)
    requires forall k :: 0 <= k < |itemType| ==> PlainChar(itemType[k])
    ensures !IsImageLike(item)
  {
    PlainHasNoImage(itemType);
  }

  /** None when the URL is acceptable. */
  function ImageURLError(parse: UrlParser, raw: string): Option<DecodeError> {
    var imageURL := TrimSpace(raw);
    if imageURL == "" then Some(InvalidRequest)
    else
      match parse(imageURL)
      case None => Some(InvalidRequest)
      case Some(url) =>
        var scheme := Lower(url.scheme);
        if scheme == "http" || scheme == "https" then if url.host == "" then Some(InvalidRequest) else None
        else if scheme == "data" then Some(UnsupportedCapability)
        else Some(InvalidRequest)
  }

  predicate ImageRoleOK(rawRole: string, role: Role) {
    rawRole == "user" && role == UserRole
  }

  predicate IsImageLike(item: Object) {
    || "image_url" in item
    || "file_id" in item
    || ("type" in item && item["type"].Str? && Contains(Lower(item["type"].s), "image"))
  }

  method ValidateAllowedObjectKeys(raw: Object, allowed: seq<string>) returns (ok: bool)
    ensures ok <==> forall key :: key in raw ==> key in allowed
  {
    var allowedSet: set<string> := {};
    for i := 0 to |allowed|
      invariant allowedSet == set k | k in allowed[..i]
    {
      allowedSet := allowedSet + {allowed[i]};
    }
    assert allowed[..|allowed|] == allowed;
    var remaining := raw.Keys;
    while remaining != {}
      invariant remaining <= raw.Keys
      invariant forall key :: key in raw && key !in remaining ==> key in allowed
      decreases |remaining|
    {
      var key :| key in remaining;
      if key !in allowedSet {
        return false;
      }
      remaining := remaining - {key};
    }
    return true;
  }

  predicate OnlyKeys(raw: Object, allowed: set<string>) {
    raw.Keys <= allowed
  }

  /** What every decoded conversation satisfies: images are on user turns and have acceptable URLs. */
  ghost predicate ImagesValid(parse: UrlParser, turn: Turn) {
    forall b :: b in turn.content && b.ImageBlock? ==> turn.role == UserRole && ImageURLError(parse, b.url) == None
  }
}

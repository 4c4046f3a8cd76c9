/** JSON values, the marshaller that turns them into text, and the lines of an event stream. */
module Json {
  import opened Config

  /** A number literal: unscaled * 10^-scale. It is an integer literal exactly when scale is 0. */
  datatype Decimal = Decimal(unscaled: int, scale: nat)

  datatype Json =
    | Null
    | Bool(b: bool)
    | Num(n: Decimal)
    | Str(s: string)
    | Arr(items: seq<Json>)
    | Obj(fields: map<string, Json>)

  type Object = map<string, Json>

  /** The string under a key, or "" when there is none. */
  function StringAt(o: Object, key: string): string {
    if key in o && o[key].Str? then o[key].s else ""
  }

  function MapValue(j: Json): Object {
    if j.Obj? then j.fields else map[]
  }

  /** The object under a key, or an empty one when there is none. */
  function ObjectAt(o: Object, key: string): Object {
    if key in o then MapValue(o[key]) else map[]
  }

  function ValueAt(o: Object, key: string): Json {
    if key in o then o[key] else Null
  }

  // Paths, as a reader of the text follows them

  function Field(j: Option<Json>, key: string): Option<Json> {
    match j
    case Some(Obj(o)) => if key in o then Some(o[key]) else None
    case _ => None
  }

  function Item(j: Option<Json>, i: nat): Option<Json> {
    match j
    case Some(Arr(items)) => if i < |items| then Some(items[i]) else None
    case _ => None
  }

  /** The text at the end of a path, or "" when there is none. */
  function TextOf(j: Option<Json>): string {
    match j
    case Some(Str(s)) => s
    case _ => ""
  }

  // Keys, as a sender fills them: leaving one out and sending null are the same

  predicate Missing(o: Object, key: string) {
    key !in o || o[key].Null?
  }

  predicate TextOrMissing(o: Object, key: string) {
    Missing(o, key) || o[key].Str?
  }

  predicate ObjectOrMissing(o: Object, key: string) {
    Missing(o, key) || o[key].Obj?
  }

  /** The JSON library: marshalling, and unmarshalling of a text that need not be JSON at all. */
  datatype Codec = Codec(marshal: Json -> string, unmarshal: string -> Option<Json>)

  /** What is taken from the library: the text of an object is read back, is one line and is in braces. */
  ghost predicate Lawful(codec: Codec) {
    forall o: Object :: ReadsBack(codec, o)
  }

  ghost predicate ReadsBack(codec: Codec, o: Object) {
    var text := codec.marshal(Obj(o));
    && codec.unmarshal(text) == Some(Obj(o))
    && '\n' !in text
    && 2 <= |text| && text[0] == '{' && text[|text| - 1] == '}'
  }

  /** Unmarshalling into a map: null gives an empty one, anything but an object is an error. */
  function UnmarshalMap(codec: Codec, text: string): Option<Object> {
    match codec.unmarshal(text)
    case Some(Obj(o)) => Some(o)
    case Some(Null) => Some(map[])
    case _ => None
  }

  // Typed fields, as the library fills the fields of a struct

  /** A string field: absent and null give "", any other type is an error. */
  function StringField(o: Object, key: string): Option<string> {
    match ValueAt(o, key)
    case Null => Some("")
    case Str(s) => Some(s)
    case _ => None
  }

  /** A map or struct field: absent and null give an empty one, any other type is an error. */
  function ObjectField(o: Object, key: string): Option<Object> {
    match ValueAt(o, key)
    case Null => Some(map[])
    case Obj(m) => Some(m)
    case _ => None
  }
}

module Lines {
  import opened Sequences

  /** Index of the first newline, or the length of the text. */
  function NewlineIndex(text: string): (i: nat)
    ensures i <= |text|
  {
    if text == "" || text[0] == '\n' then 0 else NewlineIndex(text[1..]) + 1
  }

  lemma {:induction false} NewlineIndexFinds(text: string)
    ensures var i := NewlineIndex(text);
            (forall j :: 0 <= j < i ==> text[j] != '\n') && (i < |text| ==> text[i] == '\n')
  {
    if text != "" && text[0] != '\n' {
      var rest := text[1..];
      NewlineIndexFinds(rest);
      assert forall j :: 1 <= j < |text| ==> text[j] == rest[j - 1];
    }
  }

  function DropCarriageReturn(line: string): string {
    if line != "" && line[|line| - 1] == '\r' then line[..|line| - 1] else line
  }

  /** The lines of a text; a last line needs no newline, and an empty rest is not a line. */
  function ScanLines(text: string): seq<string> {
    if text == "" then []
    else
      var i := NewlineIndex(text);
      if i == |text| then [DropCarriageReturn(text)]
      else [DropCarriageReturn(text[..i])] + ScanLines(text[i + 1..])
  }

  predicate IsSpace(c: char) {
    c in {'\t', '\n', '\U{0b}', '\U{0c}', '\r', ' ', '\U{85}', '\U{a0}', '\U{1680}', '\U{2028}', '\U{2029}',
          '\U{202f}', '\U{205f}', '\U{3000}'} || '\U{2000}' <= c <= '\U{200a}'
  }

  function TrimLeft(s: string): string {
    if s != "" && IsSpace(s[0]) then TrimLeft(s[1..]) else s
  }

  function TrimRight(s: string): string {
    if s != "" && IsSpace(s[|s| - 1]) then TrimRight(s[..|s| - 1]) else s
  }

  function TrimSpace(s: string): string {
    TrimRight(TrimLeft(s))
  }

  function WithoutPrefix(s: string, prefix: string): string
    requires prefix <= s
  {
    s[|prefix|..]
  }

  lemma NewlineIndexIs(text: string, i: nat)
    requires i < |text| && text[i] == '\n' && '\n' !in text[..i]
    ensures NewlineIndex(text) == i
  {
    NewlineIndexFinds(text);
    assert forall j :: 0 <= j < i ==> text[j] == text[..i][j] && text[j] != '\n';
  }

  lemma ScanFirst(text: string, i: nat)
    requires i < |text| && NewlineIndex(text) == i
    ensures ScanLines(text) == [DropCarriageReturn(text[..i])] + ScanLines(text[i + 1..])
  {
  }

  lemma NewlineBeforeEnd(text: string)
    requires text != "" && text[|text| - 1] == '\n'
    ensures var i := NewlineIndex(text); i < |text| && text[i] == '\n' && '\n' !in text[..i]
  {
    NewlineIndexFinds(text);
  }

  lemma ScanFirstOfTwo(a: string, b: string, i: nat)
    requires i < |a| && a[i] == '\n' && '\n' !in a[..i]
    ensures ScanLines(a + b) == [DropCarriageReturn(a[..i])] + ScanLines(a[i + 1..] + b)
  {
    var all := a + b;
    assert all[..i] == a[..i] && all[i + 1..] == a[i + 1..] + b;
    NewlineIndexIs(all, i);
    ScanFirst(all, i);
  }

  /** Text that ends its last line can be scanned apart from what follows. */
  lemma {:induction false} ScanAppend(a: string, b: string)
    requires a == "" || a[|a| - 1] == '\n'
    ensures ScanLines(a + b) == ScanLines(a) + ScanLines(b)
  {
    if a == "" {
      AppendEmpty(b);
      AppendEmpty(ScanLines(b));
    } else {
      NewlineBeforeEnd(a);
      var i := NewlineIndex(a);
      var first, rest := [DropCarriageReturn(a[..i])], a[i + 1..];
      assert rest == "" || rest[|rest| - 1] == '\n';
      ScanFirst(a, i);
      ScanFirstOfTwo(a, b, i);
      ScanAppend(rest, b);
      Associative(first, ScanLines(rest), ScanLines(b));
    }
  }

  lemma ScanEmptyLine()
    ensures ScanLines("\n") == [""]
  {
    var text := "\n";
    assert text[..0] == "" && text[1..] == "";
    NewlineIndexIs(text, 0);
    ScanFirst(text, 0);
    AppendEmpty([""]);
  }

  const FRAME_END := "\n\n"

  lemma FrameParts(line: string)
    ensures var text := line + FRAME_END;
            |line| < |text| && text[..|line|] == line && text[|line|] == '\n' && text[|line| + 1..] == "\n"
  {
  }

  lemma ScanLineAndEmptyLine(text: string, line: string)
    requires |line| < |text| && text[..|line|] == line && text[|line|] == '\n' && text[|line| + 1..] == "\n"
    requires '\n' !in line && DropCarriageReturn(line) == line
    ensures ScanLines(text) == [line] + [""]
  {
    NewlineIndexIs(text, |line|);
    ScanFirst(text, |line|);
    ScanEmptyLine();
  }

  lemma NoCarriageReturn(line: string)
    requires line != "" ==> line[|line| - 1] != '\r'
    ensures DropCarriageReturn(line) == line
  {
  }

  /** One frame of an event stream: a line and an empty line. */
  lemma ScanFrame(line: string)
    requires '\n' !in line && (line != "" ==> line[|line| - 1] != '\r')
    ensures ScanLines(line + FRAME_END) == [line] + [""]
  {
    FrameParts(line);
    NoCarriageReturn(line);
    ScanLineAndEmptyLine(line + FRAME_END, line);
  }

  // What scanning and trimming mean

  /** A line as it is sent: its text, which contains no line end, and whether a carriage return comes before the
      newline. */
  datatype SentLine = SentLine(text: string, carriageReturn: bool)

  predicate IsLineText(text: string) {
    '\n' !in text && (text != "" ==> text[|text| - 1] != '\r')
  }

  function Sent(line: SentLine): string {
    line.text + if line.carriageReturn then "\r\n" else "\n"
  }

  function AllSent(lines: seq<SentLine>): string {
    if lines == [] then "" else AllSent(lines[..|lines| - 1]) + Sent(lines[|lines| - 1])
  }

  function Texts(lines: seq<SentLine>): seq<string> {
    seq(|lines|, i requires 0 <= i < |lines| => lines[i].text)
  }

  lemma ScanSent(line: SentLine)
    requires IsLineText(line.text)
    ensures ScanLines(Sent(line)) == [line.text]
  {
    var sent := Sent(line);
    var i := |sent| - 1;
    assert sent[i] == '\n' && sent[i + 1..] == "";
    assert sent[..i] == if line.carriageReturn then line.text + "\r" else line.text;
    NewlineIndexIs(sent, i);
    ScanFirst(sent, i);
    assert DropCarriageReturn(sent[..i]) == line.text;
    AppendEmpty([line.text]);
  }

  lemma {:induction false} ScanAllSent(lines: seq<SentLine>)
    requires forall l :: l in lines ==> IsLineText(l.text)
    ensures ScanLines(AllSent(lines)) == Texts(lines)
    ensures AllSent(lines) == "" || AllSent(lines)[|AllSent(lines)| - 1] == '\n'
  {
    if lines == [] {
      assert Texts(lines) == [];
    } else {
      var front, last := lines[..|lines| - 1], lines[|lines| - 1];
      ScanAllSent(front);
      ScanAppend(AllSent(front), Sent(last));
      assert last in lines;
      ScanSent(last);
      assert Texts(lines) == Texts(front) + [last.text];
    }
  }

  lemma ScanUnended(text: string)
    requires IsLineText(text)
    ensures ScanLines(text) == if text == "" then [] else [text]
  {
    NewlineIndexFinds(text);
    forall k | 0 <= k < |text|
      ensures text[k] != '\n'
    {
      assert text[k] in text;
    }
  }

  /** Scanning gives back the lines that were sent, however they were ended, the last one even if it was not. */
  lemma ScanIsTheInverse(lines: seq<SentLine>, rest: string)
    requires IsLineText(rest) && forall l :: l in lines ==> IsLineText(l.text)
    ensures ScanLines(AllSent(lines) + rest) == Texts(lines) + if rest == "" then [] else [rest]
  {
    ScanAllSent(lines);
    ScanUnended(rest);
    ScanAppend(AllSent(lines), rest);
  }

  lemma {:induction false} TrimLeftIs(s: string) returns (i: nat)
    ensures i <= |s| && TrimLeft(s) == s[i..]
    ensures (forall k :: 0 <= k < i ==> IsSpace(s[k])) && (i < |s| ==> !IsSpace(s[i]))
  {
    if s != "" && IsSpace(s[0]) {
      i := TrimLeftIs(s[1..]);
      assert s[1..][i..] == s[i + 1..];
      assert forall k :: 0 < k < i + 1 ==> s[k] == s[1..][k - 1];
      i := i + 1;
    } else {
      i := 0;
    }
  }

  lemma {:induction false} TrimRightIs(s: string) returns (j: nat)
    ensures j <= |s| && TrimRight(s) == s[..j]
    ensures (forall k :: j <= k < |s| ==> IsSpace(s[k])) && (0 < j ==> !IsSpace(s[j - 1]))
  {
    if s != "" && IsSpace(s[|s| - 1]) {
      var front := s[..|s| - 1];
      j := TrimRightIs(front);
      assert front[..j] == s[..j];
      assert forall k :: 0 <= k < |front| ==> front[k] == s[k];
    } else {
      j := |s|;
    }
  }

  /** Trimming takes off spaces at both ends, all of them and nothing else. */
  lemma TrimSpaceIs(s: string) returns (i: nat, j: nat)
    ensures i <= j <= |s| && TrimSpace(s) == s[i..j]
    ensures forall k :: 0 <= k < i || j <= k < |s| ==> IsSpace(s[k])
    ensures i < j ==> !IsSpace(s[i]) && !IsSpace(s[j - 1])
  {
    i := TrimLeftIs(s);
    var rest := s[i..];
    var n := TrimRightIs(rest);
    j := i + n;
    assert rest[..n] == s[i..j];
    assert forall k :: i <= k < |s| ==> s[k] == rest[k - i];
  }

  lemma NothingToTrim(s: string)
    requires s != "" && !IsSpace(s[0]) && !IsSpace(s[|s| - 1])
    ensures TrimSpace(s) == s
  {
  }
}

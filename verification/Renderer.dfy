/**
 The one human renderer for CLI results. Values come from elsewhere, so every text is stripped of
 terminal and bidi controls before it is laid out; the only control left is the newline between lines.

 Characters are code points. Case folding, number text and JSON text are the platform's.
 */
module Renderer {
  import opened Wrappers

  // ---------- untrusted text ----------

  predicate TerminalControl(c: char) {
    var n := c as int;
    n <= 0x1f || 0x7f <= n <= 0x9f || n == 0x061c || n == 0x200e || n == 0x200f
    || 0x202a <= n <= 0x202e || 0x2066 <= n <= 0x2069
  }

  /** No control at all. */
  predicate Plain(text: string) {
    forall i :: 0 <= i < |text| ==> !TerminalControl(text[i])
  }

  /** No control but the newline. */
  predicate PlainLines(text: string) {
    forall i :: 0 <= i < |text| ==> TerminalControl(text[i]) ==> text[i] == '\n'
  }

  function HexDigit(n: nat): (c: char)
    requires n < 16
    ensures !TerminalControl(c)
  {
    if n < 10 then ('0' as int + n) as char else ('a' as int + n - 10) as char
  }

  /** `\u` and four hexadecimal digits. */
  function Escape(c: char): (text: string)
    requires TerminalControl(c)
    ensures Plain(text) && text != ""
  {
    var n := c as int;
    ['\\', 'u', HexDigit(n / 4096 % 16), HexDigit(n / 256 % 16), HexDigit(n / 16 % 16), HexDigit(n % 16)]
  }

  function TerminalText(text: string): (safe: string)
    ensures Plain(safe)
  {
    if text == "" then ""
    else (if TerminalControl(text[0]) then Escape(text[0]) else [text[0]]) + TerminalText(text[1..])
  }

  lemma {:induction false} PlainTextIsKept(text: string)
    requires Plain(text)
    ensures TerminalText(text) == text
  {
    if text != "" {
      assert Plain(text[1..]);
      PlainTextIsKept(text[1..]);
      assert text == [text[0]] + text[1..];
    }
  }

  /** Escaping is idempotent, and changes exactly the texts that hold a control. */
  lemma TerminalTextIsIdempotent(text: string)
    ensures TerminalText(TerminalText(text)) == TerminalText(text)
    ensures TerminalText(text) == text <==> Plain(text)
  {
    PlainTextIsKept(TerminalText(text));
    if Plain(text) {
      PlainTextIsKept(text);
    }
  }

  // ---------- values ----------

  datatype Json = Null | Bool(value: bool) | Num(digits: string) | Str(text: string) | Arr(items: seq<Json>) | Obj(fields: seq<Field>)

  datatype Field = Field(key: string, value: Json)

  /** What the platform supplies: case folding and the JSON text of a value. */
  datatype Platform = Platform(upper: string -> string, lower: string -> string, stringify: Json -> string)

  /** Folding to upper case makes no control characters. */
  ghost predicate Sane(p: Platform) {
    forall s :: Plain(s) ==> Plain(p.upper(s))
  }

  predicate Scalar(j: Json) {
    !j.Arr? && !j.Obj?
  }

  function BoolText(b: bool): string {
    if b then "true" else "false"
  }

  function FieldValue(j: Json): string
    requires Scalar(j)
  {
    match j
    case Null => "(none)"
    case Bool(b) => BoolText(b)
    case Num(digits) => digits
    case Str(text) => if text == "" then "(empty)" else TerminalText(text)
  }

  function CellValue(p: Platform, j: Json): string {
    match j
    case Null => ""
    case Str(text) => TerminalText(text)
    case Bool(b) => BoolText(b)
    case Num(digits) => digits
    case _ => TerminalText(p.stringify(j))
  }

  function Get(fields: seq<Field>, key: string): Option<Json> {
    if fields == [] then None
    else if fields[0].key == key then Some(fields[0].value)
    else Get(fields[1..], key)
  }

  predicate ListEnvelope(j: Json) {
    j.Obj?
    && Get(j.fields, "items").Some? && Get(j.fields, "items").value.Arr?
    && Get(j.fields, "readTruncated").Some? && Get(j.fields, "readTruncated").value.Bool?
    && Get(j.fields, "readLimit").Some? && Get(j.fields, "readLimit").value.Num?
  }

  // ---------- layout ----------

  function Join(parts: seq<string>, separator: string): string {
    if parts == [] then ""
    else if |parts| == 1 then parts[0]
    else parts[0] + separator + Join(parts[1..], separator)
  }

  function SplitLines(text: string): (lines: seq<string>)
    ensures lines != []
  {
    if text == "" then [""]
    else
      var rest := SplitLines(text[1..]);
      if text[0] == '\n' then [""] + rest else [[text[0]] + rest[0]] + rest[1..]
  }

  function IndentRest(lines: seq<string>): seq<string> {
    if lines == [] then []
    else [if lines[0] == "" then "" else "  " + lines[0]] + IndentRest(lines[1..])
  }

  function Indent(block: string, marker: string): string {
    var lines := SplitLines(block);
    Join([marker + lines[0]] + IndentRest(lines[1..]), "\n")
  }

  function Spaces(n: nat): string {
    seq(n, _ => ' ')
  }

  function PadEnd(text: string, width: nat): string {
    if |text| >= width then text else text + Spaces(width - |text|)
  }

  function TrimEnd(text: string): string {
    if text != "" && JsSpace(text[|text| - 1]) then TrimEnd(text[..|text| - 1]) else text
  }

  function Max(a: nat, b: nat): nat {
    if a < b then b else a
  }

  function CellAt(row: seq<string>, column: nat): string {
    if column < |row| then row[column] else ""
  }

  function Width(rows: seq<seq<string>>, column: nat): nat {
    if rows == [] then 0 else Max(|CellAt(rows[0], column)|, Width(rows[1..], column))
  }

  function PadCells(row: seq<string>, rows: seq<seq<string>>, columns: nat, column: nat): seq<string> {
    if row == [] then []
    else [PadEnd(row[0], if column < columns then Width(rows, column) else 0)] + PadCells(row[1..], rows, columns, column + 1)
  }

  function TableLine(row: seq<string>, rows: seq<seq<string>>, columns: nat): string {
    TrimEnd(Join(PadCells(row, rows, columns, 0), "  "))
  }

  function TableLines(part: seq<seq<string>>, rows: seq<seq<string>>, columns: nat): seq<string> {
    if part == [] then [] else [TableLine(part[0], rows, columns)] + TableLines(part[1..], rows, columns)
  }

  function SafeRow(row: seq<string>): seq<string> {
    if row == [] then [] else [TerminalText(row[0])] + SafeRow(row[1..])
  }

  function SafeRows(rows: seq<seq<string>>): seq<seq<string>> {
    if rows == [] then [] else [SafeRow(rows[0])] + SafeRows(rows[1..])
  }

  function FormatTable(headers: seq<string>, rows: seq<seq<string>>): string {
    var all := [headers] + SafeRows(rows);
    Join(TableLines(all, all, |headers|), "\n")
  }

  // ---------- labels ----------

  predicate Upper(c: char) { 'A' <= c <= 'Z' }

  predicate LowerOrDigit(c: char) { 'a' <= c <= 'z' || '0' <= c <= '9' }

  /** `[\s_-]`. */
  predicate Separator(c: char) {
    JsSpace(c) || c == '_' || c == '-'
  }

  /** A word starts at `i` inside `key`: lower then upper, or the last upper of a run before a lower. */
  predicate WordStarts(key: string, i: nat) {
    0 < i < |key| && Upper(key[i])
    && (LowerOrDigit(key[i - 1]) || (Upper(key[i - 1]) && i + 1 < |key| && 'a' <= key[i + 1] <= 'z'))
  }

  /** The words of a key from `i` on, the first of them continuing `word`. */
  function Words(key: string, i: nat, word: string): seq<string>
    requires i <= |key|
    decreases |key| - i
  {
    if i == |key| then (if word == "" then [] else [word])
    else if Separator(key[i]) then (if word == "" then [] else [word]) + Words(key, i + 1, "")
    else if WordStarts(key, i) then (if word == "" then [] else [word]) + Words(key, i + 1, [key[i]])
    else Words(key, i + 1, word + [key[i]])
  }

  const LABEL_WORDS: map<string, string> := map[
    "api" := "API", "bh" := "BH", "ci" := "CI", "cli" := "CLI", "cuped" := "CUPED", "id" := "ID", "ids" := "IDs",
    "ip" := "IP", "json" := "JSON", "kv" := "KV", "ms" := "(ms)", "pct" := "(%)", "rps" := "RPS", "sdk" := "SDK",
    "sdks" := "SDKs", "sha" := "SHA", "srm" := "SRM", "ttl" := "TTL", "url" := "URL", "urls" := "URLs", "uuid" := "UUID"]

  function LabelWord(p: Platform, word: string): string
    requires word != ""
  {
    if p.lower(word) in LABEL_WORDS then LABEL_WORDS[p.lower(word)]
    else p.upper([word[0]]) + word[1..]
  }

  function LabelWords(p: Platform, words: seq<string>): seq<string> {
    if words == [] then []
    else (if words[0] == "" then [] else [LabelWord(p, words[0])]) + LabelWords(p, words[1..])
  }

  function HumanizeLabel(p: Platform, key: string): string {
    Join(LabelWords(p, Words(key, 0, "")), " ")
  }

  // ---------- the renderer ----------

  predicate AllScalar(items: seq<Json>) {
    forall j :: j in items ==> Scalar(j)
  }

  predicate AllRecords(items: seq<Json>) {
    forall j :: j in items ==> j.Obj?
  }

  predicate Flat(j: Json) {
    j.Obj? && forall f :: f in j.fields ==> Scalar(f.value)
  }

  /** Column order is first-seen across the collection. */
  function Columns(items: seq<Json>, seen: seq<string>): seq<string> {
    if items == [] then seen
    else Columns(items[1..], if items[0].Obj? then NewKeys(items[0].fields, seen) else seen)
  }

  function NewKeys(fields: seq<Field>, seen: seq<string>): seq<string> {
    if fields == [] then seen
    else NewKeys(fields[1..], if fields[0].key in seen then seen else seen + [fields[0].key])
  }

  function Headers(p: Platform, columns: seq<string>): seq<string> {
    if columns == [] then [] else [p.upper(HumanizeLabel(p, columns[0]))] + Headers(p, columns[1..])
  }

  function Cells(p: Platform, fields: seq<Field>, columns: seq<string>): seq<string> {
    if columns == [] then []
    else
      var v := Get(fields, columns[0]);
      [if v.Some? then CellValue(p, v.value) else ""] + Cells(p, fields, columns[1..])
  }

  function CellRows(p: Platform, items: seq<Json>, columns: seq<string>): seq<seq<string>> {
    if items == [] then []
    else [Cells(p, if items[0].Obj? then items[0].fields else [], columns)] + CellRows(p, items[1..], columns)
  }

  function Bullets(p: Platform, items: seq<Json>): seq<string> {
    if items == [] then [] else ["- " + CellValue(p, items[0])] + Bullets(p, items[1..])
  }

  function CellTexts(p: Platform, items: seq<Json>): seq<string> {
    if items == [] then [] else [CellValue(p, items[0])] + CellTexts(p, items[1..])
  }

  /** `^[^\s,]+$`. */
  predicate InlineItem(text: string) {
    text != "" && forall i :: 0 <= i < |text| ==> text[i] != ',' && !JsSpace(text[i])
  }

  function TruncationNotice(limit: string, noun: string): string {
    "Truncated: more than " + limit + " " + noun + " exist; " + limit
      + " are shown. Narrow the " + "read before treating " + "this as the full set."
  }

  datatype Parts = Parts(lines: seq<string>, sections: seq<string>)

  function FormatCollection(p: Platform, items: seq<Json>, noun: string): string
    decreases items, 1
  {
    if items == [] then "No " + noun + " found."
    else if !AllRecords(items) then Join(Bullets(p, items), "\n")
    else if forall j :: j in items ==> Flat(j) then
      var columns := Columns(items, []);
      FormatTable(Headers(p, columns), CellRows(p, items, columns))
    else Join(Blocks(p, items), "\n\n")
  }

  function Blocks(p: Platform, items: seq<Json>): seq<string>
    decreases items, 0
  {
    if items == [] then []
    else (if items[0].Obj? then [Indent(FormatRecord(p, items[0].fields), "- ")] else []) + Blocks(p, items[1..])
  }

  function AppendArrayField(p: Platform, parts: Parts, text: string, items: seq<Json>): Parts
    decreases items, 2
  {
    if items == [] then parts.(lines := parts.lines + [text + ": (none)"])
    else if !AllScalar(items) then parts.(sections := parts.sections + [text + "\n" + FormatCollection(p, items, text)])
    else if forall t :: t in CellTexts(p, items) ==> InlineItem(t) then
      parts.(lines := parts.lines + [text + ": " + Join(CellTexts(p, items), ", ")])
    else parts.(sections := parts.sections + [text + "\n" + Join(Bullets(p, items), "\n")])
  }

  function AppendField(p: Platform, parts: Parts, key: string, value: Json): Parts
    decreases value, 3
  {
    var text := HumanizeLabel(p, key);
    match value
    case Arr(items) => AppendArrayField(p, parts, text, items)
    case Obj(fields) =>
      if ListEnvelope(value) then
        parts.(sections := parts.sections + [text + "\n" + FormatListEnvelope(p, fields, text)])
      else if fields == [] then parts.(lines := parts.lines + [text + ": (none)"])
      else parts.(sections := parts.sections + [text + "\n" + Indent(FormatRecord(p, fields), "  ")])
    case _ => parts.(lines := parts.lines + [text + ": " + FieldValue(value)])
  }

  function AppendFields(p: Platform, parts: Parts, fields: seq<Field>): Parts
    decreases fields, 4
  {
    if fields == [] then parts
    else AppendFields(p, AppendField(p, parts, fields[0].key, fields[0].value), fields[1..])
  }

  function NonEmpty(parts: seq<string>): seq<string> {
    if parts == [] then [] else (if parts[0] == "" then [] else [parts[0]]) + NonEmpty(parts[1..])
  }

  function FormatRecord(p: Platform, fields: seq<Field>): string
    decreases fields, 5
  {
    var parts := AppendFields(p, Parts([], []), fields);
    Join(NonEmpty([Join(parts.lines, "\n")] + parts.sections), "\n\n")
  }

  /** The items of an envelope, and the notice when more were there. */
  function FormatListEnvelope(p: Platform, fields: seq<Field>, noun: string): string
    requires ListEnvelope(Obj(fields))
    decreases fields, 6
  {
    GetIsSmaller(fields, "items");
    var body := FormatCollection(p, Get(fields, "items").value.items, noun);
    if Get(fields, "readTruncated").value.value then
      body + "\n\n" + TruncationNotice(Get(fields, "readLimit").value.digits, noun)
    else body
  }

  lemma {:induction false} GetIsSmaller(fields: seq<Field>, key: string)
    requires Get(fields, key).Some?
    ensures exists i :: 0 <= i < |fields| && fields[i].key == key && fields[i].value == Get(fields, key).value
  {
    if fields[0].key != key {
      GetIsSmaller(fields[1..], key);
      var i :| 0 <= i < |fields[1..]| && fields[1..][i].key == key && fields[1..][i].value == Get(fields[1..], key).value;
      assert fields[i + 1] == fields[1..][i];
    }
  }

  function FormatPayload(p: Platform, payload: Json, noun: string): string {
    match payload
    case Str(text) => TerminalText(text)
    case Arr(items) => FormatCollection(p, items, noun)
    case Obj(fields) => if ListEnvelope(payload) then FormatListEnvelope(p, fields, noun) else FormatRecord(p, fields)
    case _ => FieldValue(payload)
  }

  // ---------- pushing into the parts ----------

  /** The first-seen keys, pushed one by one. */
  method CollectionColumns(items: seq<Json>) returns (columns: seq<string>)
    requires AllRecords(items)
    ensures columns == Columns(items, [])
  {
    columns := [];
    for i := 0 to |items|
      invariant Columns(items, []) == Columns(items[i..], columns)
    {
      assert items[i] in items && items[i..][0] == items[i] && items[i..][1..] == items[i + 1..];
      var fields := items[i].fields;
      ghost var before := columns;
      for k := 0 to |fields|
        invariant NewKeys(fields, before) == NewKeys(fields[k..], columns)
      {
        assert fields[k..][0] == fields[k] && fields[k..][1..] == fields[k + 1..];
        if fields[k].key !in columns {
          columns := columns + [fields[k].key];
        }
      }
    }
  }

  class RecordParts {
    var lines: seq<string>
    var sections: seq<string>

    constructor ()
      ensures State() == Parts([], [])
    {
      lines, sections := [], [];
    }

    function State(): Parts
      reads this
    {
      Parts(lines, sections)
    }

    method PushArray(p: Platform, text: string, items: seq<Json>)
      modifies this
      ensures State() == AppendArrayField(p, old(State()), text, items)
    {
      if items == [] {
        lines := lines + [text + ": (none)"];
        return;
      }
      if !AllScalar(items) {
        sections := sections + [text + "\n" + FormatCollection(p, items, text)];
        return;
      }
      var rendered := CellTexts(p, items);
      if forall t :: t in rendered ==> InlineItem(t) {
        lines := lines + [text + ": " + Join(rendered, ", ")];
        return;
      }
      sections := sections + [text + "\n" + Join(Bullets(p, items), "\n")];
    }

    method Push(p: Platform, key: string, value: Json)
      modifies this
      ensures State() == AppendField(p, old(State()), key, value)
    {
      var text := HumanizeLabel(p, key);
      if Scalar(value) {
        lines := lines + [text + ": " + FieldValue(value)];
        return;
      }
      if value.Arr? {
        PushArray(p, text, value.items);
        return;
      }
      if ListEnvelope(value) {
        sections := sections + [text + "\n" + FormatListEnvelope(p, value.fields, text)];
        return;
      }
      if value.fields == [] {
        lines := lines + [text + ": (none)"];
        return;
      }
      sections := sections + [text + "\n" + Indent(FormatRecord(p, value.fields), "  ")];
    }
  }

  method FormatRecordInParts(p: Platform, fields: seq<Field>) returns (text: string)
    ensures text == FormatRecord(p, fields)
  {
    var parts := new RecordParts();
    for i := 0 to |fields|
      invariant fresh(parts)
      invariant AppendFields(p, Parts([], []), fields) == AppendFields(p, parts.State(), fields[i..])
    {
      assert fields[i..][0] == fields[i] && fields[i..][1..] == fields[i + 1..];
      parts.Push(p, fields[i].key, fields[i].value);
    }
    assert fields[|fields|..] == [];
    return Join(NonEmpty([Join(parts.lines, "\n")] + parts.sections), "\n\n");
  }
}

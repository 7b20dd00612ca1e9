/**
 Nothing a payload says can steer the terminal: whatever its texts hold, the only control in the
 rendered output is the newline, and a value adds no line of its own.
 */
module RendererControls {
  import opened Wrappers
  import opened Renderer

  // ---------- what the theorem asks of a payload ----------

  /** Keys and number texts carry no controls; strings may carry any. */
  predicate Tame(j: Json)
    decreases j
  {
    match j
    case Num(digits) => Plain(digits)
    case Arr(items) => forall i :: 0 <= i < |items| ==> Tame(items[i])
    case Obj(fields) => forall i :: 0 <= i < |fields| ==> Plain(fields[i].key) && Tame(fields[i].value)
    case _ => true
  }

  predicate AllPlain(parts: seq<string>) {
    forall t :: t in parts ==> Plain(t)
  }

  predicate AllPlainLines(parts: seq<string>) {
    forall t :: t in parts ==> PlainLines(t)
  }

  // ---------- layout adds no controls ----------

  lemma {:induction false} JoinIsPlainLines(parts: seq<string>, separator: string)
    requires AllPlainLines(parts) && PlainLines(separator)
    ensures PlainLines(Join(parts, separator))
  {
    if |parts| > 1 {
      assert AllPlainLines(parts[1..]);
      assert parts[0] in parts;
      JoinIsPlainLines(parts[1..], separator);
    } else if |parts| == 1 {
      assert parts[0] in parts;
    }
  }

  lemma {:induction false} JoinIsPlain(parts: seq<string>, separator: string)
    requires AllPlain(parts) && Plain(separator)
    ensures Plain(Join(parts, separator))
  {
    if |parts| > 1 {
      assert AllPlain(parts[1..]);
      assert parts[0] in parts;
      JoinIsPlain(parts[1..], separator);
    } else if |parts| == 1 {
      assert parts[0] in parts;
    }
  }

  lemma {:induction false} SplitIsPlain(text: string)
    requires PlainLines(text)
    ensures AllPlain(SplitLines(text))
  {
    if text != "" {
      assert PlainLines(text[1..]);
      SplitIsPlain(text[1..]);
      var rest := SplitLines(text[1..]);
      assert rest[0] in rest;
      assert forall t :: t in rest[1..] ==> t in rest;
    }
  }

  lemma {:induction false} IndentRestIsPlain(lines: seq<string>)
    requires AllPlain(lines)
    ensures AllPlain(IndentRest(lines))
  {
    if lines != [] {
      assert lines[0] in lines;
      assert AllPlain(lines[1..]);
      IndentRestIsPlain(lines[1..]);
    }
  }

  lemma IndentIsPlainLines(block: string, marker: string)
    requires PlainLines(block) && Plain(marker)
    ensures PlainLines(Indent(block, marker))
  {
    SplitIsPlain(block);
    var lines := SplitLines(block);
    assert lines[0] in lines;
    assert forall t :: t in lines[1..] ==> t in lines;
    IndentRestIsPlain(lines[1..]);
    JoinIsPlainLines([marker + lines[0]] + IndentRest(lines[1..]), "\n");
  }

  lemma {:induction false} TrimIsPlain(text: string)
    requires Plain(text)
    ensures Plain(TrimEnd(text))
    decreases |text|
  {
    if text != "" && JsSpace(text[|text| - 1]) {
      TrimIsPlain(text[..|text| - 1]);
    }
  }

  lemma {:induction false} PaddedCellsArePlain(row: seq<string>, rows: seq<seq<string>>, columns: nat, column: nat)
    requires AllPlain(row)
    ensures AllPlain(PadCells(row, rows, columns, column))
  {
    if row != [] {
      assert row[0] in row;
      assert AllPlain(row[1..]);
      PaddedCellsArePlain(row[1..], rows, columns, column + 1);
    }
  }

  lemma {:induction false} SafeRowIsPlain(row: seq<string>)
    ensures AllPlain(SafeRow(row))
  {
    if row != [] {
      SafeRowIsPlain(row[1..]);
    }
  }

  lemma {:induction false} SafeRowsArePlain(rows: seq<seq<string>>)
    ensures |SafeRows(rows)| == |rows|
    ensures forall r :: r in SafeRows(rows) ==> AllPlain(r)
  {
    if rows != [] {
      SafeRowIsPlain(rows[0]);
      SafeRowsArePlain(rows[1..]);
    }
  }

  lemma {:induction false} TableLinesArePlain(part: seq<seq<string>>, rows: seq<seq<string>>, columns: nat)
    requires forall r :: r in part ==> AllPlain(r)
    ensures AllPlain(TableLines(part, rows, columns))
    ensures |TableLines(part, rows, columns)| == |part|
  {
    if part != [] {
      assert part[0] in part;
      PaddedCellsArePlain(part[0], rows, columns, 0);
      JoinIsPlain(PadCells(part[0], rows, columns, 0), "  ");
      TrimIsPlain(Join(PadCells(part[0], rows, columns, 0), "  "));
      TableLinesArePlain(part[1..], rows, columns);
    }
  }

  // ---------- lines of a table ----------

  function Newlines(text: string): nat {
    if text == "" then 0 else (if text[0] == '\n' then 1 else 0) + Newlines(text[1..])
  }

  lemma {:induction false} NewlinesSplit(a: string, b: string)
    ensures Newlines(a + b) == Newlines(a) + Newlines(b)
    decreases |a|
  {
    if a == "" {
      assert a + b == b;
    } else {
      assert (a + b)[1..] == a[1..] + b;
      NewlinesSplit(a[1..], b);
    }
  }

  lemma {:induction false} PlainHasNoNewline(text: string)
    requires Plain(text)
    ensures Newlines(text) == 0
  {
    if text != "" {
      assert Plain(text[1..]);
      PlainHasNoNewline(text[1..]);
    }
  }

  lemma {:induction false} JoinedLines(lines: seq<string>)
    requires AllPlain(lines) && lines != []
    ensures Newlines(Join(lines, "\n")) == |lines| - 1
  {
    assert lines[0] in lines;
    PlainHasNoNewline(lines[0]);
    if |lines| > 1 {
      assert AllPlain(lines[1..]);
      JoinedLines(lines[1..]);
      NewlinesSplit(lines[0] + "\n", Join(lines[1..], "\n"));
      NewlinesSplit(lines[0], "\n");
      assert "\n"[1..] == "";
    }
  }

  /** A table has one line for its headers and one for each row, whatever the cells hold. */
  lemma TableHasALineARow(headers: seq<string>, rows: seq<seq<string>>)
    requires AllPlain(headers)
    ensures Newlines(FormatTable(headers, rows)) == |rows|
    ensures PlainLines(FormatTable(headers, rows))
  {
    var all := [headers] + SafeRows(rows);
    SafeRowsArePlain(rows);
    TableLinesArePlain(all, all, |headers|);
    JoinedLines(TableLines(all, all, |headers|));
    JoinIsPlainLines(TableLines(all, all, |headers|), "\n");
  }

  // ---------- labels ----------

  lemma LabelsArePlain(word: string)
    ensures word in LABEL_WORDS ==> Plain(LABEL_WORDS[word])
  {}

  lemma {:induction false} WordsArePlain(key: string, i: nat, word: string)
    requires i <= |key| && Plain(key) && Plain(word)
    ensures AllPlain(Words(key, i, word))
    decreases |key| - i
  {
    if i < |key| {
      if Separator(key[i]) {
        WordsArePlain(key, i + 1, "");
      } else if WordStarts(key, i) {
        WordsArePlain(key, i + 1, [key[i]]);
      } else {
        WordsArePlain(key, i + 1, word + [key[i]]);
      }
    }
  }

  lemma {:induction false} LabelWordsArePlain(p: Platform, words: seq<string>)
    requires Sane(p) && AllPlain(words)
    ensures AllPlain(LabelWords(p, words))
  {
    if words != [] {
      assert words[0] in words;
      assert AllPlain(words[1..]);
      LabelWordsArePlain(p, words[1..]);
      if words[0] != "" {
        LabelsArePlain(p.lower(words[0]));
        assert Plain([words[0][0]]);
        assert Plain(p.upper([words[0][0]]));
      }
    }
  }

  lemma LabelIsPlain(p: Platform, key: string)
    requires Sane(p) && Plain(key)
    ensures Plain(HumanizeLabel(p, key))
  {
    WordsArePlain(key, 0, "");
    LabelWordsArePlain(p, Words(key, 0, ""));
    JoinIsPlain(LabelWords(p, Words(key, 0, "")), " ");
  }

  // ---------- values ----------

  lemma ScalarIsPlain(j: Json)
    requires Scalar(j) && Tame(j)
    ensures Plain(FieldValue(j))
  {}

  lemma CellIsPlain(p: Platform, j: Json)
    requires Tame(j)
    ensures Plain(CellValue(p, j))
  {}

  predicate TameItems(items: seq<Json>) {
    forall i :: 0 <= i < |items| ==> Tame(items[i])
  }

  predicate TameFields(fields: seq<Field>) {
    forall i :: 0 <= i < |fields| ==> Plain(fields[i].key) && Tame(fields[i].value)
  }

  lemma {:induction false} CellTextsArePlain(p: Platform, items: seq<Json>)
    requires TameItems(items)
    ensures AllPlain(CellTexts(p, items)) && AllPlain(Bullets(p, items))
  {
    if items != [] {
      CellIsPlain(p, items[0]);
      assert TameItems(items[1..]);
      CellTextsArePlain(p, items[1..]);
    }
  }

  lemma {:induction false} NewKeysArePlain(fields: seq<Field>, seen: seq<string>)
    requires TameFields(fields) && AllPlain(seen)
    ensures AllPlain(NewKeys(fields, seen))
  {
    if fields != [] {
      assert TameFields(fields[1..]);
      NewKeysArePlain(fields[1..], if fields[0].key in seen then seen else seen + [fields[0].key]);
    }
  }

  lemma {:induction false} ColumnsArePlain(items: seq<Json>, seen: seq<string>)
    requires TameItems(items) && AllPlain(seen)
    ensures AllPlain(Columns(items, seen))
  {
    if items != [] {
      assert TameItems(items[1..]);
      if items[0].Obj? {
        assert TameFields(items[0].fields);
        NewKeysArePlain(items[0].fields, seen);
      }
      ColumnsArePlain(items[1..], if items[0].Obj? then NewKeys(items[0].fields, seen) else seen);
    }
  }

  lemma {:induction false} HeadersArePlain(p: Platform, columns: seq<string>)
    requires Sane(p) && AllPlain(columns)
    ensures AllPlain(Headers(p, columns))
  {
    if columns != [] {
      assert columns[0] in columns;
      assert AllPlain(columns[1..]);
      LabelIsPlain(p, columns[0]);
      assert Plain(p.upper(HumanizeLabel(p, columns[0])));
      HeadersArePlain(p, columns[1..]);
    }
  }

  // ---------- the whole tree ----------

  predicate PlainParts(parts: Parts) {
    AllPlainLines(parts.lines) && AllPlainLines(parts.sections)
  }

  lemma {:induction false} CollectionIsPlainLines(p: Platform, items: seq<Json>, noun: string)
    requires Sane(p) && TameItems(items) && Plain(noun)
    ensures PlainLines(FormatCollection(p, items, noun))
    decreases items, 1
  {
    if items != [] {
      if !AllRecords(items) {
        CellTextsArePlain(p, items);
        JoinIsPlainLines(Bullets(p, items), "\n");
      } else if forall j :: j in items ==> Flat(j) {
        ColumnsArePlain(items, []);
        HeadersArePlain(p, Columns(items, []));
        TableHasALineARow(Headers(p, Columns(items, [])), CellRows(p, items, Columns(items, [])));
      } else {
        BlocksArePlainLines(p, items);
        JoinIsPlainLines(Blocks(p, items), "\n\n");
      }
    }
  }

  lemma {:induction false} BlocksArePlainLines(p: Platform, items: seq<Json>)
    requires Sane(p) && TameItems(items)
    ensures AllPlainLines(Blocks(p, items))
    decreases items, 0
  {
    if items != [] {
      assert TameItems(items[1..]);
      BlocksArePlainLines(p, items[1..]);
      if items[0].Obj? {
        assert TameFields(items[0].fields);
        RecordIsPlainLines(p, items[0].fields);
        IndentIsPlainLines(FormatRecord(p, items[0].fields), "- ");
      }
    }
  }

  lemma {:induction false} ArrayFieldIsPlain(p: Platform, parts: Parts, text: string, items: seq<Json>)
    requires Sane(p) && PlainParts(parts) && Plain(text) && TameItems(items)
    ensures PlainParts(AppendArrayField(p, parts, text, items))
    decreases items, 2
  {
    CellTextsArePlain(p, items);
    if !AllScalar(items) {
      CollectionIsPlainLines(p, items, text);
    } else {
      JoinIsPlain(CellTexts(p, items), ", ");
      JoinIsPlainLines(Bullets(p, items), "\n");
    }
  }

  lemma {:induction false} FieldIsPlain(p: Platform, parts: Parts, key: string, value: Json)
    requires Sane(p) && PlainParts(parts) && Plain(key) && Tame(value)
    ensures PlainParts(AppendField(p, parts, key, value))
    decreases value, 3
  {
    LabelIsPlain(p, key);
    var text := HumanizeLabel(p, key);
    match value
    case Arr(items) =>
      ArrayFieldIsPlain(p, parts, text, items);
    case Obj(fields) =>
      assert TameFields(fields);
      if ListEnvelope(value) {
        EnvelopeIsPlainLines(p, fields, text);
      } else if fields != [] {
        RecordIsPlainLines(p, fields);
        IndentIsPlainLines(FormatRecord(p, fields), "  ");
      }
    case _ =>
      ScalarIsPlain(value);
  }

  lemma {:induction false} FieldsArePlain(p: Platform, parts: Parts, fields: seq<Field>)
    requires Sane(p) && PlainParts(parts) && TameFields(fields)
    ensures PlainParts(AppendFields(p, parts, fields))
    decreases fields, 4
  {
    if fields != [] {
      FieldIsPlain(p, parts, fields[0].key, fields[0].value);
      assert TameFields(fields[1..]);
      FieldsArePlain(p, AppendField(p, parts, fields[0].key, fields[0].value), fields[1..]);
    }
  }

  lemma {:induction false} NonEmptyIsPlainLines(parts: seq<string>)
    requires AllPlainLines(parts)
    ensures AllPlainLines(NonEmpty(parts))
  {
    if parts != [] {
      assert parts[0] in parts;
      assert AllPlainLines(parts[1..]);
      NonEmptyIsPlainLines(parts[1..]);
    }
  }

  lemma {:induction false} RecordIsPlainLines(p: Platform, fields: seq<Field>)
    requires Sane(p) && TameFields(fields)
    ensures PlainLines(FormatRecord(p, fields))
    decreases fields, 5
  {
    FieldsArePlain(p, Parts([], []), fields);
    var parts := AppendFields(p, Parts([], []), fields);
    JoinIsPlainLines(parts.lines, "\n");
    NonEmptyIsPlainLines([Join(parts.lines, "\n")] + parts.sections);
    JoinIsPlainLines(NonEmpty([Join(parts.lines, "\n")] + parts.sections), "\n\n");
  }

  lemma {:induction false} EnvelopeIsPlainLines(p: Platform, fields: seq<Field>, noun: string)
    requires Sane(p) && TameFields(fields) && Plain(noun) && ListEnvelope(Obj(fields))
    ensures PlainLines(FormatListEnvelope(p, fields, noun))
    decreases fields, 6
  {
    GetIsSmaller(fields, "items");
    GetIsSmaller(fields, "readLimit");
    var items := Get(fields, "items").value.items;
    assert TameItems(items);
    CollectionIsPlainLines(p, items, noun);
    assert Plain(Get(fields, "readLimit").value.digits);
    NoticeIsPlain(Get(fields, "readLimit").value.digits, noun);
  }

  lemma PlainConcat(a: string, b: string)
    requires Plain(a) && Plain(b)
    ensures Plain(a + b)
  {}

  lemma NoticeIsPlain(limit: string, noun: string)
    requires Plain(limit) && Plain(noun)
    ensures Plain(TruncationNotice(limit, noun))
  {
    var head := "Truncated: more than " + limit + " " + noun + " exist; " + limit;
    assert Plain("Truncated: more than ") && Plain(" exist; ");
    PlainConcat("Truncated: more than " + limit + " " + noun, " exist; ");
    PlainConcat("Truncated: more than " + limit + " " + noun + " exist; ", limit);
    assert Plain(" are shown. Narrow the ");
    PlainConcat(head, " are shown. Narrow the ");
    assert Plain("read before treating ");
    PlainConcat(head + " are shown. Narrow the ", "read before treating ");
    assert Plain("this as the full set.");
    PlainConcat(head + " are shown. Narrow the " + "read before treating ", "this as the full set.");
  }

  /**
   Every control or bidi character in the output is a newline, for every payload whose keys, like
   the noun, carry none; its strings may hold any.
   */
  lemma OutputHoldsOnlyNewlines(p: Platform, payload: Json, noun: string)
    requires Sane(p) && Tame(payload) && Plain(noun)
    ensures PlainLines(FormatPayload(p, payload, noun))
    ensures Scalar(payload) ==> Plain(FormatPayload(p, payload, noun))
  {
    match payload
    case Arr(items) => CollectionIsPlainLines(p, items, noun);
    case Obj(fields) =>
      assert TameFields(fields);
      if ListEnvelope(payload) {
        EnvelopeIsPlainLines(p, fields, noun);
      } else {
        RecordIsPlainLines(p, fields);
      }
    case _ =>
  }

  /** Keys are not escaped: a control in a key reaches the terminal. */
  lemma ControlKeyLeaks(p: Platform, c: char)
    requires TerminalControl(c) && !Separator(c) && p.upper("a") == "A" && p.lower(['a', c]) !in LABEL_WORDS
    ensures c in FormatPayload(p, Obj([Field(['a', c], Bool(true))]), "Results")
  {
    var key, fields := ['a', c], [Field(['a', c], Bool(true))];
    assert !WordStarts(key, 1);
    assert Words(key, 2, key) == [key];
    assert Words(key, 1, "a") == Words(key, 2, "a" + [c]);
    assert "a" + [c] == key;
    assert Words(key, 0, "") == [key] by {
      assert Words(key, 0, "") == Words(key, 1, "" + ['a']);
      assert "" + ['a'] == "a";
    }
    var name := LabelWord(p, key);
    assert name == "A" + [c];
    assert LabelWords(p, [key]) == [name] by {
      var one: seq<string> := [key];
      assert one[1..] == [];
    }
    assert HumanizeLabel(p, key) == name;
    var line := name + ": " + "true";
    assert AppendField(p, Parts([], []), key, Bool(true)) == Parts([line], []);
    assert fields[1..] == [];
    assert AppendFields(p, Parts([], []), fields) == Parts([line], []);
    assert [Join([line], "\n")] + [] == [line];
    var one: seq<string> := [line];
    assert one[1..] == [];
    assert NonEmpty(one) == one;
    assert FormatRecord(p, fields) == line;
    assert |key| != |"items"|;
    assert Get(fields, "items").None?;
    assert FormatPayload(p, Obj(fields), "Results") == line;
    assert line[1] == c;
  }
}

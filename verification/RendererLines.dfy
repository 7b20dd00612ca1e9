/**
 Where the lines of the output come from. The number of newlines is told from the payload's
 structure alone: no text in it, a string least of all, adds or removes a line. The one thing asked
 of texts is whether a list of scalars reads inline.
 */
module RendererLines {
  import opened Wrappers
  import opened Renderer
  import opened RendererControls

  // ---------- line breaks from the structure ----------

  /** The lines and sections of a record, and the breaks inside the sections. */
  datatype Outline = Outline(lines: nat, sections: nat, breaks: nat)

  function OneLine(o: Outline): Outline {
    o.(lines := o.lines + 1)
  }

  /** A section is its heading, a break and its body. */
  function OneSection(o: Outline, body: nat): Outline {
    Outline(o.lines, o.sections + 1, o.breaks + 1 + body)
  }

  /** Lines are one apart; the lines as a whole and the sections are two apart. */
  function Breaks(o: Outline): nat {
    var among := if o.lines > 0 then o.lines - 1 else 0;
    var parts := (if o.lines > 0 then 1 else 0) + o.sections;
    among + o.breaks + if parts > 0 then 2 * (parts - 1) else 0
  }

  /** Whether every scalar of a list is a single token, so that commas can separate them. */
  predicate ReadsInline(p: Platform, items: seq<Json>) {
    forall t :: t in CellTexts(p, items) ==> InlineItem(t)
  }

  function CollectionBreaks(p: Platform, items: seq<Json>): nat
    decreases items, 1
  {
    if items == [] then 0
    else if !AllRecords(items) then |items| - 1
    else if forall j :: j in items ==> Flat(j) then |items|
    else BlockBreaks(p, items) + 2 * (|items| - 1)
  }

  function BlockBreaks(p: Platform, items: seq<Json>): nat
    decreases items, 0
  {
    if items == [] then 0
    else (if items[0].Obj? then RecordBreaks(p, items[0].fields) else 0) + BlockBreaks(p, items[1..])
  }

  function ArrayOutline(p: Platform, o: Outline, items: seq<Json>): Outline
    decreases items, 2
  {
    if items == [] then OneLine(o)
    else if !AllScalar(items) then OneSection(o, CollectionBreaks(p, items))
    else if ReadsInline(p, items) then OneLine(o)
    else OneSection(o, |items| - 1)
  }

  function FieldOutline(p: Platform, o: Outline, value: Json): Outline
    decreases value, 3
  {
    match value
    case Arr(items) => ArrayOutline(p, o, items)
    case Obj(fields) =>
      if ListEnvelope(value) then OneSection(o, EnvelopeBreaks(p, fields))
      else if fields == [] then OneLine(o)
      else OneSection(o, RecordBreaks(p, fields))
    case _ => OneLine(o)
  }

  function FieldsOutline(p: Platform, o: Outline, fields: seq<Field>): Outline
    decreases fields, 4
  {
    if fields == [] then o else FieldsOutline(p, FieldOutline(p, o, fields[0].value), fields[1..])
  }

  function RecordBreaks(p: Platform, fields: seq<Field>): nat
    decreases fields, 5
  {
    Breaks(FieldsOutline(p, Outline(0, 0, 0), fields))
  }

  function EnvelopeBreaks(p: Platform, fields: seq<Field>): nat
    requires ListEnvelope(Obj(fields))
    decreases fields, 6
  {
    GetIsSmaller(fields, "items");
    CollectionBreaks(p, Get(fields, "items").value.items) + if Get(fields, "readTruncated").value.value then 2 else 0
  }

  function PayloadBreaks(p: Platform, payload: Json): nat {
    match payload
    case Arr(items) => CollectionBreaks(p, items)
    case Obj(fields) => if ListEnvelope(payload) then EnvelopeBreaks(p, fields) else RecordBreaks(p, fields)
    case _ => 0
  }

  // ---------- line breaks of the layout ----------

  function SumBreaks(parts: seq<string>): nat {
    if parts == [] then 0 else Newlines(parts[0]) + SumBreaks(parts[1..])
  }

  lemma {:induction false} SumBreaksAppend(parts: seq<string>, t: string)
    ensures SumBreaks(parts + [t]) == SumBreaks(parts) + Newlines(t)
    decreases |parts|
  {
    if parts == [] {
      assert ([] + [t])[1..] == [];
    } else {
      assert (parts + [t])[1..] == parts[1..] + [t];
      SumBreaksAppend(parts[1..], t);
    }
  }

  lemma {:induction false} JoinBreaks(parts: seq<string>, separator: string)
    ensures Newlines(Join(parts, separator)) == SumBreaks(parts) + if parts == [] then 0 else Newlines(separator) * (|parts| - 1)
  {
    if |parts| == 1 {
      assert parts[1..] == [];
    } else if |parts| > 1 {
      JoinBreaks(parts[1..], separator);
      NewlinesSplit(parts[0] + separator, Join(parts[1..], separator));
      NewlinesSplit(parts[0], separator);
    }
  }

  lemma {:induction false} PlainSum(parts: seq<string>)
    requires AllPlain(parts)
    ensures SumBreaks(parts) == 0
  {
    if parts != [] {
      assert parts[0] in parts;
      PlainHasNoNewline(parts[0]);
      assert AllPlain(parts[1..]);
      PlainSum(parts[1..]);
    }
  }

  lemma TwoNewlines()
    ensures Newlines("\n") == 1 && Newlines("\n\n") == 2
  {
    assert "\n"[1..] == "" && "\n\n"[1..] == "\n";
  }

  lemma {:induction false} SplitCounts(text: string)
    ensures |SplitLines(text)| == Newlines(text) + 1
  {
    if text != "" {
      SplitCounts(text[1..]);
    }
  }

  lemma {:induction false} IndentRestCounts(lines: seq<string>)
    ensures |IndentRest(lines)| == |lines|
  {
    if lines != [] {
      IndentRestCounts(lines[1..]);
    }
  }

  /** Indenting a block keeps its lines. */
  lemma IndentBreaks(block: string, marker: string)
    requires PlainLines(block) && Plain(marker)
    ensures Newlines(Indent(block, marker)) == Newlines(block)
  {
    SplitIsPlain(block);
    SplitCounts(block);
    var lines := SplitLines(block);
    assert lines[0] in lines;
    assert forall t :: t in lines[1..] ==> t in lines;
    IndentRestIsPlain(lines[1..]);
    IndentRestCounts(lines[1..]);
    JoinedLines([marker + lines[0]] + IndentRest(lines[1..]));
  }

  /** Non-empty parts are all joined. */
  lemma {:induction false} NonEmptyIsAll(parts: seq<string>)
    requires forall t :: t in parts ==> t != ""
    ensures NonEmpty(parts) == parts
  {
    if parts != [] {
      assert parts[0] in parts;
      assert forall t :: t in parts[1..] ==> t in parts;
      NonEmptyIsAll(parts[1..]);
      assert parts == [parts[0]] + parts[1..];
    }
  }

  lemma {:induction false} CellCounts(p: Platform, items: seq<Json>)
    ensures |CellTexts(p, items)| == |items| && |Bullets(p, items)| == |items|
  {
    if items != [] {
      CellCounts(p, items[1..]);
    }
  }

  lemma BulletBreaks(p: Platform, items: seq<Json>)
    requires TameItems(items) && items != []
    ensures Newlines(Join(Bullets(p, items), "\n")) == |items| - 1
  {
    CellTextsArePlain(p, items);
    CellCounts(p, items);
    JoinedLines(Bullets(p, items));
  }

  lemma {:induction false} CellRowCounts(p: Platform, items: seq<Json>, columns: seq<string>)
    ensures |CellRows(p, items, columns)| == |items|
  {
    if items != [] {
      CellRowCounts(p, items[1..], columns);
    }
  }

  // ---------- the parts of a record ----------

  /** The parts drawn so far have this outline. */
  ghost predicate Drawn(parts: Parts, o: Outline) {
    && |parts.lines| == o.lines && |parts.sections| == o.sections
    && AllPlain(parts.lines) && (forall t :: t in parts.lines ==> t != "")
    && AllPlainLines(parts.sections) && (forall t :: t in parts.sections ==> t != "")
    && SumBreaks(parts.sections) == o.breaks
  }

  lemma LineDrawn(parts: Parts, o: Outline, text: string, rest: string)
    requires Drawn(parts, o) && Plain(text) && Plain(rest)
    ensures Drawn(parts.(lines := parts.lines + [text + ": " + rest]), OneLine(o))
  {
    var line := text + ": " + rest;
    assert Plain(line) && line[|text|] == ':';
  }

  lemma SectionDrawn(parts: Parts, o: Outline, text: string, body: string)
    requires Drawn(parts, o) && Plain(text) && PlainLines(body)
    ensures Drawn(parts.(sections := parts.sections + [text + "\n" + body]), OneSection(o, Newlines(body)))
  {
    var section := text + "\n" + body;
    NewlinesSplit(text + "\n", body);
    NewlinesSplit(text, "\n");
    PlainHasNoNewline(text);
    TwoNewlines();
    SumBreaksAppend(parts.sections, section);
    assert PlainLines(text + "\n");
    assert section[|text|] == '\n';
  }

  /** Joining the drawn parts gives the breaks of their outline. */
  lemma DrawnBreaks(parts: Parts, o: Outline)
    requires Drawn(parts, o)
    ensures Newlines(Join(NonEmpty([Join(parts.lines, "\n")] + parts.sections), "\n\n")) == Breaks(o)
  {
    var head := Join(parts.lines, "\n");
    var all := [head] + parts.sections;
    TwoNewlines();
    JoinBreaks(parts.lines, "\n");
    PlainSum(parts.lines);
    NonEmptyIsAll(parts.sections);
    assert all[1..] == parts.sections;
    if parts.lines == [] {
      assert NonEmpty(all) == [] + parts.sections == parts.sections;
      JoinBreaks(parts.sections, "\n\n");
    } else {
      assert parts.lines[0] in parts.lines;
      assert head != "";
      assert NonEmpty(all) == all;
      JoinBreaks(all, "\n\n");
    }
  }

  // ---------- the whole tree ----------

  lemma {:induction false} CollectionHasItsBreaks(p: Platform, items: seq<Json>, noun: string)
    requires Sane(p) && TameItems(items) && Plain(noun)
    ensures Newlines(FormatCollection(p, items, noun)) == CollectionBreaks(p, items)
    decreases items, 1
  {
    if items == [] {
      assert Plain("No ") && Plain(" found.");
      PlainHasNoNewline("No " + noun + " found.");
    } else if !AllRecords(items) {
      BulletBreaks(p, items);
    } else if forall j :: j in items ==> Flat(j) {
      ColumnsArePlain(items, []);
      HeadersArePlain(p, Columns(items, []));
      TableHasALineARow(Headers(p, Columns(items, [])), CellRows(p, items, Columns(items, [])));
      CellRowCounts(p, items, Columns(items, []));
    } else {
      BlocksHaveTheirBreaks(p, items);
      TwoNewlines();
      JoinBreaks(Blocks(p, items), "\n\n");
    }
  }

  lemma {:induction false} BlocksHaveTheirBreaks(p: Platform, items: seq<Json>)
    requires Sane(p) && TameItems(items) && AllRecords(items)
    ensures |Blocks(p, items)| == |items| && SumBreaks(Blocks(p, items)) == BlockBreaks(p, items)
    decreases items, 0
  {
    if items != [] {
      assert TameItems(items[1..]);
      assert items[0] in items;
      assert forall j :: j in items[1..] ==> j in items;
      BlocksHaveTheirBreaks(p, items[1..]);
      assert TameFields(items[0].fields);
      RecordHasItsBreaks(p, items[0].fields);
      RecordIsPlainLines(p, items[0].fields);
      IndentBreaks(FormatRecord(p, items[0].fields), "- ");
      assert Blocks(p, items)[1..] == Blocks(p, items[1..]);
    }
  }

  lemma {:induction false} ArrayIsDrawn(p: Platform, parts: Parts, o: Outline, text: string, items: seq<Json>)
    requires Sane(p) && Drawn(parts, o) && Plain(text) && TameItems(items)
    ensures Drawn(AppendArrayField(p, parts, text, items), ArrayOutline(p, o, items))
    decreases items, 2
  {
    if items == [] {
      LineDrawn(parts, o, text, "(none)");
      assert text + ": (none)" == text + ": " + "(none)";
    } else if !AllScalar(items) {
      CollectionIsPlainLines(p, items, text);
      CollectionHasItsBreaks(p, items, text);
      SectionDrawn(parts, o, text, FormatCollection(p, items, text));
    } else {
      CellTextsArePlain(p, items);
      JoinIsPlain(CellTexts(p, items), ", ");
      LineDrawn(parts, o, text, Join(CellTexts(p, items), ", "));
      BulletBreaks(p, items);
      JoinIsPlainLines(Bullets(p, items), "\n");
      SectionDrawn(parts, o, text, Join(Bullets(p, items), "\n"));
    }
  }

  lemma {:induction false} FieldIsDrawn(p: Platform, parts: Parts, o: Outline, key: string, value: Json)
    requires Sane(p) && Drawn(parts, o) && Plain(key) && Tame(value)
    ensures Drawn(AppendField(p, parts, key, value), FieldOutline(p, o, value))
    decreases value, 3
  {
    LabelIsPlain(p, key);
    var text := HumanizeLabel(p, key);
    match value
    case Arr(items) =>
      ArrayIsDrawn(p, parts, o, text, items);
    case Obj(fields) =>
      assert TameFields(fields);
      ObjectIsDrawn(p, parts, o, text, fields);
      assert text + ": (none)" == text + ": " + "(none)";
    case _ =>
      ScalarIsPlain(value);
      LineDrawn(parts, o, text, FieldValue(value));
  }

  lemma {:induction false} ObjectIsDrawn(p: Platform, parts: Parts, o: Outline, text: string, fields: seq<Field>)
    requires Sane(p) && Drawn(parts, o) && Plain(text) && TameFields(fields)
    ensures ListEnvelope(Obj(fields)) ==>
      Drawn(parts.(sections := parts.sections + [text + "\n" + FormatListEnvelope(p, fields, text)]),
            OneSection(o, EnvelopeBreaks(p, fields)))
    ensures !ListEnvelope(Obj(fields)) && fields == [] ==>
      Drawn(parts.(lines := parts.lines + [text + ": " + "(none)"]), OneLine(o))
    ensures !ListEnvelope(Obj(fields)) && fields != [] ==>
      Drawn(parts.(sections := parts.sections + [text + "\n" + Indent(FormatRecord(p, fields), "  ")]),
            OneSection(o, RecordBreaks(p, fields)))
    decreases fields, 7
  {
    if ListEnvelope(Obj(fields)) {
      EnvelopeIsPlainLines(p, fields, text);
      EnvelopeHasItsBreaks(p, fields, text);
      SectionDrawn(parts, o, text, FormatListEnvelope(p, fields, text));
    } else if fields == [] {
      LineDrawn(parts, o, text, "(none)");
    } else {
      RecordIsPlainLines(p, fields);
      RecordHasItsBreaks(p, fields);
      IndentBreaks(FormatRecord(p, fields), "  ");
      IndentIsPlainLines(FormatRecord(p, fields), "  ");
      SectionDrawn(parts, o, text, Indent(FormatRecord(p, fields), "  "));
    }
  }

  lemma {:induction false} FieldsAreDrawn(p: Platform, parts: Parts, o: Outline, fields: seq<Field>)
    requires Sane(p) && Drawn(parts, o) && TameFields(fields)
    ensures Drawn(AppendFields(p, parts, fields), FieldsOutline(p, o, fields))
    decreases fields, 4
  {
    if fields != [] {
      FieldIsDrawn(p, parts, o, fields[0].key, fields[0].value);
      assert TameFields(fields[1..]);
      FieldsAreDrawn(p, AppendField(p, parts, fields[0].key, fields[0].value), FieldOutline(p, o, fields[0].value), fields[1..]);
    }
  }

  lemma {:induction false} RecordHasItsBreaks(p: Platform, fields: seq<Field>)
    requires Sane(p) && TameFields(fields)
    ensures Newlines(FormatRecord(p, fields)) == RecordBreaks(p, fields)
    decreases fields, 5
  {
    FieldsAreDrawn(p, Parts([], []), Outline(0, 0, 0), fields);
    DrawnBreaks(AppendFields(p, Parts([], []), fields), FieldsOutline(p, Outline(0, 0, 0), fields));
  }

  lemma {:induction false} EnvelopeHasItsBreaks(p: Platform, fields: seq<Field>, noun: string)
    requires Sane(p) && TameFields(fields) && Plain(noun) && ListEnvelope(Obj(fields))
    ensures Newlines(FormatListEnvelope(p, fields, noun)) == EnvelopeBreaks(p, fields)
    decreases fields, 6
  {
    GetIsSmaller(fields, "items");
    GetIsSmaller(fields, "readLimit");
    var items := Get(fields, "items").value.items;
    assert TameItems(items);
    CollectionHasItsBreaks(p, items, noun);
    var body, notice := FormatCollection(p, items, noun), TruncationNotice(Get(fields, "readLimit").value.digits, noun);
    assert Plain(Get(fields, "readLimit").value.digits);
    NoticeIsPlain(Get(fields, "readLimit").value.digits, noun);
    PlainHasNoNewline(notice);
    TwoNewlines();
    NewlinesSplit(body + "\n\n", notice);
    NewlinesSplit(body, "\n\n");
  }

  /**
   Every newline of the output is one the renderer put there: their number is the one the payload's
   structure asks for, whatever its strings hold.
   */
  lemma OutputHasItsBreaks(p: Platform, payload: Json, noun: string)
    requires Sane(p) && Tame(payload) && Plain(noun)
    ensures Newlines(FormatPayload(p, payload, noun)) == PayloadBreaks(p, payload)
    ensures PlainLines(FormatPayload(p, payload, noun))
  {
    OutputHoldsOnlyNewlines(p, payload, noun);
    match payload
    case Arr(items) =>
      CollectionHasItsBreaks(p, items, noun);
    case Obj(fields) =>
      assert TameFields(fields);
      if ListEnvelope(payload) {
        EnvelopeHasItsBreaks(p, fields, noun);
      } else {
        RecordHasItsBreaks(p, fields);
      }
    case _ =>
      PlainHasNoNewline(FormatPayload(p, payload, noun));
  }
}

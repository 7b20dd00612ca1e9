/**
 What a reader finds in the rendered text: every cell of a table stands in its own column and shows
 its item's own field, a record shows every field once, and a label keeps the letters of its key.
 */
module RendererReadings {
  import opened Wrappers
  import opened Renderer

  // ---------- cells ----------

  /** What a cell shows of a field: nothing for null or a missing field, a text escaped, anything else in its own words. */
  predicate Shows(p: Platform, cell: string, field: Option<Json>) {
    match field
    case None => cell == ""
    case Some(Null) => cell == ""
    case Some(Str(text)) => cell == TerminalText(text)
    case Some(Bool(b)) => cell == if b then "true" else "false"
    case Some(Num(digits)) => cell == digits
    case Some(j) => cell == TerminalText(p.stringify(j))
  }

  lemma {:induction false} CellShowsItsColumn(p: Platform, fields: seq<Field>, columns: seq<string>, k: nat)
    requires k < |columns|
    ensures |Cells(p, fields, columns)| == |columns|
    ensures Shows(p, Cells(p, fields, columns)[k], Get(fields, columns[k]))
    decreases |columns|
  {
    if |columns| > 1 {
      CellShowsItsColumn(p, fields, columns[1..], if k == 0 then 0 else k - 1);
    }
  }

  /** In a table the cell of item `i` under column `k` shows that item's own field of that name. */
  lemma {:induction false} CellIsItsItemsField(p: Platform, items: seq<Json>, columns: seq<string>, i: nat, k: nat)
    requires i < |items| && items[i].Obj? && k < |columns|
    ensures |CellRows(p, items, columns)| == |items| && |CellRows(p, items, columns)[i]| == |columns|
    ensures Shows(p, CellRows(p, items, columns)[i][k], Get(items[i].fields, columns[k]))
    decreases |items|
  {
    if i == 0 {
      CellShowsItsColumn(p, items[0].fields, columns, k);
      RowsForItems(p, items, columns);
    } else {
      CellIsItsItemsField(p, items[1..], columns, i - 1, k);
    }
  }

  lemma {:induction false} RowsForItems(p: Platform, items: seq<Json>, columns: seq<string>)
    ensures |CellRows(p, items, columns)| == |items|
  {
    if items != [] {
      RowsForItems(p, items[1..], columns);
    }
  }

  // ---------- columns ----------

  /** Where column `k` starts: after the widths before it and a gap of two for each. */
  function Start(rows: seq<seq<string>>, k: nat): nat {
    if k == 0 then 0 else Start(rows, k - 1) + Width(rows, k - 1) + 2
  }

  lemma {:induction false} WidthHolds(rows: seq<seq<string>>, column: nat, i: nat)
    requires i < |rows|
    ensures |CellAt(rows[i], column)| <= Width(rows, column)
    decreases |rows|
  {
    if i > 0 {
      WidthHolds(rows[1..], column, i - 1);
    }
  }

  predicate Stands(line: string, at: int, cell: string) {
    0 <= at <= |line| && cell <= line[at..]
  }

  lemma PaddingKeeps(cell: string, width: nat)
    requires |cell| <= width
    ensures |PadEnd(cell, width)| == width && cell <= PadEnd(cell, width)
  {}

  lemma FirstStands(parts: seq<string>, cell: string)
    requires parts != [] && cell <= parts[0]
    ensures Stands(Join(parts, "  "), 0, cell)
  {
    JoinStarts(parts, "  ");
  }

  lemma LaterStands(head: string, rest: seq<string>, at: int, cell: string)
    requires rest != [] && Stands(Join(rest, "  "), at, cell)
    ensures Stands(Join([head] + rest, "  "), |head| + 2 + at, cell)
  {
    var tail := Join(rest, "  ");
    assert ([head] + rest)[1..] == rest;
    assert Join([head] + rest, "  ") == head + "  " + tail;
    assert (head + "  " + tail)[|head| + 2..][at..] == tail[at..];
    assert (head + "  " + tail)[|head| + 2 + at..] == tail[at..];
  }

  /** No cell is wider than its column. */
  predicate Fits(row: seq<string>, rows: seq<seq<string>>, column: nat) {
    forall j :: 0 <= j < |row| ==> |row[j]| <= Width(rows, column + j)
  }

  lemma FitsRest(row: seq<string>, rows: seq<seq<string>>, column: nat)
    requires row != [] && Fits(row, rows, column)
    ensures |row[0]| <= Width(rows, column) && Fits(row[1..], rows, column + 1)
  {
    assert |row[0]| <= Width(rows, column + 0);
    forall j | 0 <= j < |row[1..]| ensures |row[1..][j]| <= Width(rows, column + 1 + j) {
      assert |row[j + 1]| <= Width(rows, column + (j + 1));
    }
  }

  lemma PaddedRow(row: seq<string>, rows: seq<seq<string>>, columns: nat, column: nat)
    requires row != [] && column < columns
    ensures PadCells(row, rows, columns, column)
         == [PadEnd(row[0], Width(rows, column))] + PadCells(row[1..], rows, columns, column + 1)
  {}

  /** In the padded cells from `column` on, joined, cell `k` starts where its column does. */
  predicate CellStands(row: seq<string>, rows: seq<seq<string>>, columns: nat, column: nat, k: nat)
    requires k < |row| && column + |row| <= columns
  {
    Stands(Join(PadCells(row, rows, columns, column), "  "), Start(rows, column + k) - Start(rows, column), row[k])
  }

  lemma {:induction false} PaddedCellStands(row: seq<string>, rows: seq<seq<string>>, columns: nat, column: nat, k: nat)
    requires k < |row| && column + |row| <= columns && Fits(row, rows, column)
    ensures CellStands(row, rows, columns, column, k)
    decreases |row|
  {
    FitsRest(row, rows, column);
    if k == 0 {
      FirstCellStands(row, rows, columns, column);
    } else {
      PaddedCellStands(row[1..], rows, columns, column + 1, k - 1);
      LaterCellStands(row, rows, columns, column, k);
    }
  }

  lemma FirstCellStands(row: seq<string>, rows: seq<seq<string>>, columns: nat, column: nat)
    requires row != [] && column + |row| <= columns && |row[0]| <= Width(rows, column)
    ensures CellStands(row, rows, columns, column, 0)
  {
    PaddingKeeps(row[0], Width(rows, column));
    PaddedRow(row, rows, columns, column);
    FirstStands(PadCells(row, rows, columns, column), row[0]);
  }

  lemma LaterCellStands(row: seq<string>, rows: seq<seq<string>>, columns: nat, column: nat, k: nat)
    requires 0 < k < |row| && column + |row| <= columns && |row[0]| <= Width(rows, column)
    requires CellStands(row[1..], rows, columns, column + 1, k - 1)
    ensures CellStands(row, rows, columns, column, k)
  {
    var there := Start(rows, column + k);
    assert row[1..][k - 1] == row[k] && column + 1 + (k - 1) == column + k;
    LaterTextStands(row, rows, columns, column, there - Start(rows, column + 1), row[k]);
    NextStart(rows, column);
    assert Width(rows, column) + 2 + (there - Start(rows, column + 1)) == there - Start(rows, column);
  }

  lemma LaterTextStands(row: seq<string>, rows: seq<seq<string>>, columns: nat, column: nat, at: int, cell: string)
    requires 1 < |row| && column < columns && |row[0]| <= Width(rows, column)
    requires Stands(Join(PadCells(row[1..], rows, columns, column + 1), "  "), at, cell)
    ensures Stands(Join(PadCells(row, rows, columns, column), "  "), Width(rows, column) + 2 + at, cell)
  {
    PaddingKeeps(row[0], Width(rows, column));
    PaddedRow(row, rows, columns, column);
    PadCellsLength(row[1..], rows, columns, column + 1);
    LaterStands(PadEnd(row[0], Width(rows, column)), PadCells(row[1..], rows, columns, column + 1), at, cell);
  }

  lemma NextStart(rows: seq<seq<string>>, column: nat)
    ensures Start(rows, column + 1) == Start(rows, column) + Width(rows, column) + 2
  {}

  lemma JoinStarts(parts: seq<string>, separator: string)
    requires parts != []
    ensures parts[0] <= Join(parts, separator)
  {}

  lemma {:induction false} PadCellsLength(row: seq<string>, rows: seq<seq<string>>, columns: nat, column: nat)
    ensures |PadCells(row, rows, columns, column)| == |row|
  {
    if row != [] {
      PadCellsLength(row[1..], rows, columns, column + 1);
    }
  }

  lemma {:induction false} TrimmedIsPrefix(text: string)
    ensures TrimEnd(text) <= text && forall i :: |TrimEnd(text)| <= i < |text| ==> JsSpace(text[i])
  {
    if text != "" && JsSpace(text[|text| - 1]) {
      TrimmedIsPrefix(text[..|text| - 1]);
    }
  }

  /**
   In a table whose rows have a cell for each header, every line has each cell where its column starts,
   the same place in every line; only white space is cut off at the end.
   */
  lemma CellStandsInItsColumn(rows: seq<seq<string>>, columns: nat, i: nat, k: nat)
    requires i < |rows| && |rows[i]| == columns && k < columns
    ensures var line := Join(PadCells(rows[i], rows, columns, 0), "  ");
      && Stands(line, Start(rows, k), rows[i][k])
      && TableLine(rows[i], rows, columns) <= line
      && forall j :: |TableLine(rows[i], rows, columns)| <= j < |line| ==> JsSpace(line[j])
  {
    RowFits(rows, i);
    PaddedCellStands(rows[i], rows, columns, 0, k);
    LineIsTrimmed(rows[i], rows, columns);
  }

  lemma LineIsTrimmed(row: seq<string>, rows: seq<seq<string>>, columns: nat)
    ensures var line := Join(PadCells(row, rows, columns, 0), "  ");
      && TableLine(row, rows, columns) <= line
      && forall j :: |TableLine(row, rows, columns)| <= j < |line| ==> JsSpace(line[j])
  {
    TrimmedIsPrefix(Join(PadCells(row, rows, columns, 0), "  "));
  }

  lemma RowFits(rows: seq<seq<string>>, i: nat)
    requires i < |rows|
    ensures Fits(rows[i], rows, 0)
  {
    forall j | 0 <= j < |rows[i]| ensures |rows[i][j]| <= Width(rows, 0 + j) {
      WidthHolds(rows, j, i);
    }
  }

  lemma {:induction false} LineOfRow(part: seq<seq<string>>, rows: seq<seq<string>>, columns: nat, i: nat)
    requires i < |part|
    ensures |TableLines(part, rows, columns)| == |part| && TableLines(part, rows, columns)[i] == TableLine(part[i], rows, columns)
    decreases |part|
  {
    if |part| == 1 {
      assert TableLines(part[1..], rows, columns) == [];
    } else {
      LineOfRow(part[1..], rows, columns, if i == 0 then 0 else i - 1);
    }
  }

  lemma {:induction false} SafeRowIs(row: seq<string>, k: nat)
    requires k < |row|
    ensures |SafeRow(row)| == |row| && SafeRow(row)[k] == TerminalText(row[k])
    decreases |row|
  {
    if |row| == 1 {
      assert SafeRow(row[1..]) == [];
    } else {
      SafeRowIs(row[1..], if k == 0 then 0 else k - 1);
    }
  }

  lemma {:induction false} SafeRowsAre(rows: seq<seq<string>>, i: nat)
    requires i < |rows|
    ensures |SafeRows(rows)| == |rows| && SafeRows(rows)[i] == SafeRow(rows[i])
    decreases |rows|
  {
    if |rows| == 1 {
      assert SafeRows(rows[1..]) == [];
    } else {
      SafeRowsAre(rows[1..], if i == 0 then 0 else i - 1);
    }
  }

  lemma {:induction false} HeadersLength(p: Platform, columns: seq<string>)
    ensures |Headers(p, columns)| == |columns|
  {
    if columns != [] {
      HeadersLength(p, columns[1..]);
    }
  }

  /** The rows of the table of a flat collection: its headers, then a row of escaped cells for each item. */
  function RowsOf(p: Platform, items: seq<Json>): seq<seq<string>> {
    [Headers(p, Columns(items, []))] + SafeRows(CellRows(p, items, Columns(items, [])))
  }

  /**
   A flat collection is a table of one line for its headers and one for each item, in order; and the
   line of item `i` has, where column `k` starts, that item's own field of that name.
   */
  lemma ItemStandsInTheTable(p: Platform, items: seq<Json>, noun: string, i: nat, k: nat) returns (lines: seq<string>, cell: string)
    requires i < |items| && AllRecords(items) && (forall j :: j in items ==> Flat(j)) && k < |Columns(items, [])|
    ensures FormatCollection(p, items, noun) == Join(lines, "\n") && |lines| == |RowsOf(p, items)| == |items| + 1
    ensures Shows(p, cell, Get(items[i].fields, Columns(items, [])[k]))
    ensures var padded := Join(PadCells(RowsOf(p, items)[i + 1], RowsOf(p, items), |Columns(items, [])|, 0), "  ");
      Stands(padded, Start(RowsOf(p, items), k), TerminalText(cell)) && lines[i + 1] <= padded
  {
    var columns, all := Columns(items, []), RowsOf(p, items);
    assert items[i] in items;
    cell := CellUnder(p, items, columns, i, k);
    FlatCollectionIsATable(p, items, noun);
    lines := LineStands(all, |columns|, i + 1, k);
  }

  lemma FlatCollectionIsATable(p: Platform, items: seq<Json>, noun: string)
    requires items != [] && AllRecords(items) && (forall j :: j in items ==> Flat(j)) && Columns(items, []) != []
    ensures var all := RowsOf(p, items);
      FormatCollection(p, items, noun) == Join(TableLines(all, all, |Columns(items, [])|), "\n")
  {
    HeadersLength(p, Columns(items, []));
  }

  /** The line of row `i` in the table of all `rows`. */
  lemma LineStands(rows: seq<seq<string>>, columns: nat, i: nat, k: nat) returns (lines: seq<string>)
    requires i < |rows| && |rows[i]| == columns && k < columns
    ensures lines == TableLines(rows, rows, columns) && |lines| == |rows|
    ensures var padded := Join(PadCells(rows[i], rows, columns, 0), "  ");
      Stands(padded, Start(rows, k), rows[i][k]) && lines[i] <= padded
  {
    lines := TableLines(rows, rows, columns);
    LineOfRow(rows, rows, columns, i);
    CellStandsInItsColumn(rows, columns, i, k);
  }

  lemma CellUnder(p: Platform, items: seq<Json>, columns: seq<string>, i: nat, k: nat) returns (cell: string)
    requires i < |items| && items[i].Obj? && k < |columns|
    ensures Shows(p, cell, Get(items[i].fields, columns[k]))
    ensures var rows := SafeRows(CellRows(p, items, columns));
      |rows| == |items| && |rows[i]| == |columns| && rows[i][k] == TerminalText(cell)
  {
    CellIsItsItemsField(p, items, columns, i, k);
    var row := CellRows(p, items, columns)[i];
    cell := row[k];
    SafeRowsAre(CellRows(p, items, columns), i);
    SafeRowIs(row, k);
  }

  // ---------- records ----------

  /** A scalar as a labelled line shows it. */
  predicate LineShows(p: Platform, line: string, f: Field) {
    match f.value
    case Null => line == HumanizeLabel(p, f.key) + ": (none)"
    case Str(text) => line == HumanizeLabel(p, f.key) + ": " + if text == "" then "(empty)" else TerminalText(text)
    case Bool(b) => line == HumanizeLabel(p, f.key) + ": " + if b then "true" else "false"
    case Num(digits) => line == HumanizeLabel(p, f.key) + ": " + digits
    case _ => false
  }

  /** A field adds one line or one section; a scalar adds the line that shows it, last. */
  lemma FieldIsAdded(p: Platform, parts: Parts, f: Field)
    ensures var after := AppendField(p, parts, f.key, f.value);
      && parts.lines <= after.lines && parts.sections <= after.sections
      && |after.lines| + |after.sections| == |parts.lines| + |parts.sections| + 1
      && (Scalar(f.value) ==> |after.lines| == |parts.lines| + 1 && LineShows(p, after.lines[|parts.lines|], f))
  {}

  /** A record shows every field once: as many lines and sections as fields, and a line for each scalar. */
  lemma {:induction false} RecordShowsEveryField(p: Platform, parts: Parts, fields: seq<Field>)
    ensures var after := AppendFields(p, parts, fields);
      && parts.lines <= after.lines && parts.sections <= after.sections
      && |after.lines| + |after.sections| == |parts.lines| + |parts.sections| + |fields|
      && forall i :: 0 <= i < |fields| && Scalar(fields[i].value) ==>
           exists n :: |parts.lines| <= n < |after.lines| && LineShows(p, after.lines[n], fields[i])
    decreases |fields|
  {
    if fields != [] {
      var next := AppendField(p, parts, fields[0].key, fields[0].value);
      FieldIsAdded(p, parts, fields[0]);
      RecordShowsEveryField(p, next, fields[1..]);
      var after := AppendFields(p, parts, fields);
      forall i | 0 <= i < |fields| && Scalar(fields[i].value)
        ensures exists n :: |parts.lines| <= n < |after.lines| && LineShows(p, after.lines[n], fields[i])
      {
        if i == 0 {
          assert after.lines[|parts.lines|] == next.lines[|parts.lines|];
          assert LineShows(p, after.lines[|parts.lines|], fields[0]);
        } else {
          assert fields[1..][i - 1] == fields[i];
        }
      }
    }
  }

  // ---------- lists ----------

  /** Each item of a list is one bullet, or one text of an inline list, and shows that item. */
  lemma {:induction false} ListShowsItsItems(p: Platform, items: seq<Json>, k: nat)
    requires k < |items|
    ensures |CellTexts(p, items)| == |Bullets(p, items)| == |items|
    ensures Shows(p, CellTexts(p, items)[k], Some(items[k])) && Bullets(p, items)[k] == "- " + CellTexts(p, items)[k]
    decreases |items|
  {
    if |items| == 1 {
      assert CellTexts(p, items[1..]) == [] && Bullets(p, items[1..]) == [];
    } else {
      ListShowsItsItems(p, items[1..], if k == 0 then 0 else k - 1);
    }
  }

  /** A list of single words goes on the line of its label, other scalars under it one a line; an empty value is said to be none. */
  lemma ListFieldIsAdded(p: Platform, parts: Parts, key: string, items: seq<Json>)
    requires AllScalar(items)
    ensures var after := AppendField(p, parts, key, Arr(items));
      var shown := HumanizeLabel(p, key);
      if items == [] then after == parts.(lines := parts.lines + [shown + ": (none)"])
      else if forall t :: t in CellTexts(p, items) ==> InlineItem(t) then
        after == parts.(lines := parts.lines + [shown + ": " + Join(CellTexts(p, items), ", ")])
      else after == parts.(sections := parts.sections + [shown + "\n" + Join(Bullets(p, items), "\n")])
  {}

  lemma {:induction false} HeaderIsItsColumn(p: Platform, columns: seq<string>, k: nat)
    requires k < |columns|
    ensures |Headers(p, columns)| == |columns| && Headers(p, columns)[k] == p.upper(HumanizeLabel(p, columns[k]))
    decreases |columns|
  {
    if |columns| == 1 {
      assert Headers(p, columns[1..]) == [];
    } else {
      HeaderIsItsColumn(p, columns[1..], if k == 0 then 0 else k - 1);
    }
  }

  /** An empty list says so by its noun; a truncated one says after its items how many are shown, and no other does. */
  lemma EnvelopeSays(p: Platform, fields: seq<Field>, noun: string)
    requires ListEnvelope(Obj(fields))
    ensures var items, limit := Get(fields, "items").value.items, Get(fields, "readLimit").value.digits;
      var body := FormatCollection(p, items, noun);
      && (items == [] ==> body == "No " + noun + " found.")
      && FormatListEnvelope(p, fields, noun) ==
           if Get(fields, "readTruncated") == Some(Bool(true)) then body + "\n\n" + TruncationNotice(limit, noun) else body
  {}

  /** The notice names the rows and says twice how many are shown. */
  lemma NoticeSays(limit: string, noun: string)
    ensures "Truncated: more than " + limit + " " + noun + " exist; " + limit + " are shown." <= TruncationNotice(limit, noun)
  {
    var head := "Truncated: more than " + limit + " " + noun + " exist; " + limit;
    assert " are shown. Narrow the " == " are shown." + " Narrow the ";
    assert TruncationNotice(limit, noun) == head + " are shown." + (" Narrow the " + "read before treating " + "this as the full set.");
  }

  // ---------- labels ----------

  function Glued(words: seq<string>): string {
    if words == [] then "" else words[0] + Glued(words[1..])
  }

  function Letters(key: string, i: nat): string
    requires i <= |key|
    decreases |key| - i
  {
    if i == |key| then "" else (if Separator(key[i]) then "" else [key[i]]) + Letters(key, i + 1)
  }

  /** Splitting a key into words drops its separators and nothing else, and no word is empty. */
  lemma {:induction false} WordsKeepLetters(key: string, i: nat, word: string)
    requires i <= |key|
    ensures Glued(Words(key, i, word)) == word + Letters(key, i)
    ensures "" !in Words(key, i, word)
    decreases |key| - i
  {
    if i == |key| {
      GluedFirst(word, []);
      assert (if word == "" then [] else [word]) + [] == Words(key, i, word);
    } else if Separator(key[i]) {
      WordsKeepLetters(key, i + 1, "");
      GluedFirst(word, Words(key, i + 1, ""));
    } else {
      var c, rest := [key[i]], Letters(key, i + 1);
      Regrouped(word, c, rest);
      if WordStarts(key, i) {
        WordsKeepLetters(key, i + 1, c);
        GluedFirst(word, Words(key, i + 1, c));
      } else {
        WordsKeepLetters(key, i + 1, word + c);
      }
    }
  }

  lemma Regrouped(a: string, b: string, c: string)
    ensures (a + b) + c == a + (b + c)
  {}

  lemma GluedFirst(word: string, rest: seq<string>)
    ensures Glued((if word == "" then [] else [word]) + rest) == word + Glued(rest)
  {
    if word == "" {
      assert [] + rest == rest;
    } else {
      assert ([word] + rest)[1..] == rest;
    }
  }

  /** The platform folds these letters and words as every platform does. */
  predicate FoldsAscii(p: Platform) {
    && p.upper("d") == "D" && p.upper("V") == "V" && p.upper("p") == "P" && p.upper("v") == "V"
    && p.lower("default") == "default" && p.lower("Variant") == "variant" && p.lower("Id") == "id"
    && p.lower("p") == "p" && p.lower("value") == "value"
  }

  /** Every word written in a way of its own has two to five letters, and only one has five. */
  lemma SpecialWordsAreShort(word: string)
    requires word in LABEL_WORDS
    ensures 2 <= |word| <= 5 && (|word| == 5 ==> word[0] == 'c')
  {}

  lemma {:induction false} RunOfLetters(key: string, i: nat, j: nat, word: string)
    requires i <= j <= |key|
    requires forall k :: i <= k < j ==> !Separator(key[k]) && !WordStarts(key, k)
    ensures Words(key, i, word) == Words(key, j, word + key[i..j])
    decreases j - i
  {
    if i < j {
      RunOfLetters(key, i + 1, j, word + [key[i]]);
      assert word + [key[i]] + key[i + 1..j] == word + key[i..j];
    } else {
      assert word + key[i..j] == word;
    }
  }

  lemma CamelWords()
    ensures Words("defaultVariantId", 0, "") == ["default", "Variant", "Id"]
  {
    var k := "defaultVariantId";
    RunOfLetters(k, 0, 7, "");
    assert "" + k[0..7] == "default";
    LastCamelWords();
    assert WordStarts(k, 7) && [k[7]] == "V";
    assert Words(k, 7, "default") == ["default"] + Words(k, 8, "V");
  }

  lemma LastCamelWords()
    ensures Words("defaultVariantId", 8, "V") == ["Variant", "Id"]
  {
    var k := "defaultVariantId";
    RunOfLetters(k, 8, 14, "V");
    assert "V" + k[8..14] == "Variant";
    LastCamelWord();
    assert WordStarts(k, 14) && [k[14]] == "I";
    assert Words(k, 14, "Variant") == ["Variant"] + Words(k, 15, "I");
  }

  lemma LastCamelWord()
    ensures Words("defaultVariantId", 15, "I") == ["Id"]
  {
    var k := "defaultVariantId";
    RunOfLetters(k, 15, 16, "I");
    assert "I" + k[15..16] == "Id";
  }

  lemma SnakeWords()
    ensures Words("p_value", 0, "") == ["p", "value"]
  {
    var k := "p_value";
    RunOfLetters(k, 0, 1, "");
    RunOfLetters(k, 2, 7, "");
    assert "" + k[0..1] == "p" && "" + k[2..7] == "value" && k[1] == '_';
    assert Words(k, 1, "p") == ["p"] + Words(k, 2, "");
  }

  lemma OrdinaryWord(p: Platform, word: string, first: string)
    requires word != "" && p.upper([word[0]]) == first
    requires |p.lower(word)| == 1 || |p.lower(word)| > 5 || (|p.lower(word)| == 5 && p.lower(word)[0] != 'c')
    ensures LabelWord(p, word) == first + word[1..]
  {
    if p.lower(word) in LABEL_WORDS {
      SpecialWordsAreShort(p.lower(word));
    }
  }

  lemma {:induction false} LabelWordsOf(p: Platform, words: seq<string>)
    requires "" !in words && words != []
    ensures LabelWords(p, words) == [LabelWord(p, words[0])] + LabelWords(p, words[1..])
  {
    assert words[0] in words;
  }

  /** A camel-case key and a snake-case key, as the labels are documented. */
  lemma LabelsAsDocumented(p: Platform)
    requires FoldsAscii(p)
    ensures HumanizeLabel(p, "defaultVariantId") == "Default Variant ID"
    ensures HumanizeLabel(p, "p_value") == "P Value"
  {
    CamelLabel(p);
    SnakeLabel(p);
  }

  lemma CamelLabel(p: Platform)
    requires FoldsAscii(p)
    ensures HumanizeLabel(p, "defaultVariantId") == "Default Variant ID"
  {
    CamelWords();
    OrdinaryWord(p, "default", "D");
    OrdinaryWord(p, "Variant", "V");
    assert LabelWord(p, "Id") == "ID";
    LabelWordsOfThree(p, "default", "Variant", "Id");
    assert "D" + "default"[1..] == "Default" && "V" + "Variant"[1..] == "Variant";
    CamelJoined();
  }

  lemma CamelJoined()
    ensures Join(["Default", "Variant", "ID"], " ") == "Default Variant ID"
  {
    JoinThree("Default", "Variant", "ID");
    assert "Default" + " " + ("Variant" + " " + "ID") == "Default Variant ID";
  }

  lemma LabelWordsOfThree(p: Platform, a: string, b: string, c: string)
    requires a != "" && b != "" && c != ""
    ensures LabelWords(p, [a, b, c]) == [LabelWord(p, a), LabelWord(p, b), LabelWord(p, c)]
  {
    var words := [a, b, c];
    assert words[1..] == [b, c] && [b, c][1..] == [c] && [c][1..] == [];
    LabelWordsOf(p, words);
    LabelWordsOf(p, [b, c]);
    LabelWordsOf(p, [c]);
  }

  lemma SnakeLabel(p: Platform)
    requires FoldsAscii(p)
    ensures HumanizeLabel(p, "p_value") == "P Value"
  {
    SnakeWords();
    var words := ["p", "value"];
    OrdinaryWord(p, "p", "P");
    OrdinaryWord(p, "value", "V");
    LabelWordsOf(p, words);
    LabelWordsOf(p, words[1..]);
    assert words[1..][1..] == [] && words[1..] == ["value"];
    assert "P" + "p"[1..] == "P" && "V" + "value"[1..] == "Value";
    assert LabelWords(p, words) == ["P", "Value"];
    assert ["P", "Value"][1..] == ["Value"];
    assert Join(["Value"], " ") == "Value";
    assert Join(["P", "Value"], " ") == "P" + " " + "Value";
    assert "P" + " " + "Value" == "P Value";
  }

  lemma JoinThree(a: string, b: string, c: string)
    ensures Join([a, b, c], " ") == a + " " + (b + " " + c)
  {
    assert [a, b, c][1..] == [b, c] && [b, c][1..] == [c];
    assert Join([c], " ") == c;
    assert Join([b, c], " ") == b + " " + c;
  }
}

// The quality report over docling outputs (`scripts/evaluate_docling.py`):
// counts of text items, tables and cells per file, and the heuristics that
// flag a file as poorly extracted.

module EvaluateDocling {
  import opened Base
  import opened Strings

  /** A JSON value where the script expects a string: a string, or anything else. */
  datatype Value = Str(s: string) | NonString

  /** A row of a table: a list of cells, or some other JSON value. */
  datatype Row = ListRow(cells: seq<Value>) | NotList

  /** A table with its `rows`; an absent or empty `rows` is the empty list. */
  datatype DocTable = DocTable(rows: seq<Row>)

  /** A parsed docling file: its `text_items` and `tables`, each the empty list when absent or empty. */
  datatype Data = Data(textItems: seq<Value>, tables: seq<DocTable>)

  // ------------------------------------------------------------------ counting

  /** The three cell counters of the script. */
  datatype Counts = Counts(total: nat, nonempty: nat, chars: nat)

  const Zero := Counts(0, 0, 0)

  function Plus(a: Counts, b: Counts): (r: Counts)
    ensures b == Zero ==> r == a
  {
    Counts(a.total + b.total, a.nonempty + b.nonempty, a.chars + b.chars)
  }

  /** One cell: counted, and when it is a string with text, counted as non-empty with its stripped length. */
  function CellCounts(c: Value): Counts
  {
    if c.Str? && Strip(c.s) != [] then Counts(1, 1, |Strip(c.s)|) else Counts(1, 0, 0)
  }

  function SumCells(cells: seq<Value>): Counts
    decreases |cells|
  {
    if cells == [] then Zero else Plus(SumCells(cells[..|cells| - 1]), CellCounts(cells[|cells| - 1]))
  }

  /** A row: its cells when it is a list, nothing otherwise. */
  function RowCounts(r: Row): Counts
  {
    if r.ListRow? then SumCells(r.cells) else Zero
  }

  function SumRows(rows: seq<Row>): Counts
    decreases |rows|
  {
    if rows == [] then Zero else Plus(SumRows(rows[..|rows| - 1]), RowCounts(rows[|rows| - 1]))
  }

  function SumTables(tables: seq<DocTable>): Counts
    decreases |tables|
  {
    if tables == [] then Zero else Plus(SumTables(tables[..|tables| - 1]), SumRows(tables[|tables| - 1].rows))
  }

  /** `sum(len(t.strip()) for t in text_items if isinstance(t, str))` */
  function TextChars(items: seq<Value>): nat
    decreases |items|
  {
    if items == [] then 0
    else
      var t := items[|items| - 1];
      TextChars(items[..|items| - 1]) + if t.Str? then |Strip(t.s)| else 0
  }

  lemma SumCellsNext(cells: seq<Value>, k: nat)
    requires k < |cells|
    ensures SumCells(cells[..k + 1]) == Plus(SumCells(cells[..k]), CellCounts(cells[k]))
  {
    assert cells[..k + 1][..k] == cells[..k];
  }

  lemma SumRowsNext(rows: seq<Row>, j: nat)
    requires j < |rows|
    ensures SumRows(rows[..j + 1]) == Plus(SumRows(rows[..j]), RowCounts(rows[j]))
  {
    assert rows[..j + 1][..j] == rows[..j];
  }

  lemma SumTablesNext(tables: seq<DocTable>, i: nat)
    requires i < |tables|
    ensures SumTables(tables[..i + 1]) == Plus(SumTables(tables[..i]), SumRows(tables[i].rows))
  {
    assert tables[..i + 1][..i] == tables[..i];
  }

  /** The innermost loop: every cell of one list row. */
  method CountRow(cells: seq<Value>) returns (c: Counts)
    ensures c == SumCells(cells)
  {
    var totalCells: nat, nonemptyCells: nat, cellChars: nat := 0, 0, 0;
    for k := 0 to |cells|
      invariant Counts(totalCells, nonemptyCells, cellChars) == SumCells(cells[..k])
    {
      SumCellsNext(cells, k);
      var cell := cells[k];
      totalCells := totalCells + 1;
      if cell.Str? && Strip(cell.s) != [] {
        nonemptyCells := nonemptyCells + 1;
        cellChars := cellChars + |Strip(cell.s)|;
      }
    }
    assert cells[..|cells|] == cells;
    c := Counts(totalCells, nonemptyCells, cellChars);
  }

  /** The loop over the rows of one table, skipping rows that are not lists. */
  method CountTable(rows: seq<Row>) returns (c: Counts)
    ensures c == SumRows(rows)
  {
    c := Zero;
    for j := 0 to |rows|
      invariant c == SumRows(rows[..j])
    {
      SumRowsNext(rows, j);
      var row := rows[j];
      if !row.ListRow? {
        continue;
      }
      var inRow := CountRow(row.cells);
      c := Plus(c, inRow);
    }
    assert rows[..|rows|] == rows;
  }

  /** The cell loops: every cell of every list row of every table. */
  method CountCells(tables: seq<DocTable>) returns (totalCells: nat, nonemptyCells: nat, cellChars: nat)
    ensures Counts(totalCells, nonemptyCells, cellChars) == SumTables(tables)
  {
    var c := Zero;
    for i := 0 to |tables|
      invariant c == SumTables(tables[..i])
    {
      SumTablesNext(tables, i);
      var inTable := CountTable(tables[i].rows);
      c := Plus(c, inTable);
    }
    assert tables[..|tables|] == tables;
    totalCells, nonemptyCells, cellChars := c.total, c.nonempty, c.chars;
  }

  // ------------------------------------------------------- what the counts obey

  /** At most as many non-empty cells as cells, and at least one character per non-empty cell. */
  predicate Sane(c: Counts)
  {
    c.nonempty <= c.total && c.nonempty <= c.chars
  }

  lemma {:induction false} SumCellsSane(cells: seq<Value>)
    ensures Sane(SumCells(cells))
    decreases |cells|
  {
    if cells != [] {
      SumCellsSane(cells[..|cells| - 1]);
    }
  }

  lemma {:induction false} SumRowsSane(rows: seq<Row>)
    ensures Sane(SumRows(rows))
    decreases |rows|
  {
    if rows != [] {
      SumRowsSane(rows[..|rows| - 1]);
      var r := rows[|rows| - 1];
      if r.ListRow? {
        SumCellsSane(r.cells);
      }
    }
  }

  /** Over all tables, `nonempty_cells <= total_cells` and `cell_chars >= nonempty_cells`. */
  lemma {:induction false} CountsBounds(tables: seq<DocTable>)
    ensures SumTables(tables).nonempty <= SumTables(tables).total
    ensures SumTables(tables).nonempty <= SumTables(tables).chars
    decreases |tables|
  {
    if tables != [] {
      CountsBounds(tables[..|tables| - 1]);
      SumRowsSane(tables[|tables| - 1].rows);
    }
  }

  predicate IsList(r: Row) { r.ListRow? }

  /** Rows that are not lists add nothing: the counts are those of the list rows alone. */
  lemma {:induction false} NonListRowsIgnored(rows: seq<Row>)
    ensures SumRows(rows) == SumRows(Filter(rows, IsList))
    decreases |rows|
  {
    if rows != [] {
      var init := rows[..|rows| - 1];
      var last := rows[|rows| - 1];
      var kept := Filter(init, IsList);
      assert Filter(rows, IsList) == kept + if IsList(last) then [last] else [];
      NonListRowsIgnored(init);
      if IsList(last) {
        var f := kept + [last];
        assert f[..|f| - 1] == kept;
        assert SumRows(f) == Plus(SumRows(kept), RowCounts(last));
      } else {
        assert Filter(rows, IsList) == kept;
      }
    }
  }

  predicate IsStr(v: Value) { v.Str? }

  /** Text characters come from string items alone. */
  lemma {:induction false} TextCharsOfStrings(items: seq<Value>)
    ensures TextChars(items) == TextChars(Filter(items, IsStr))
    decreases |items|
  {
    if items != [] {
      var init := items[..|items| - 1];
      var last := items[|items| - 1];
      var kept := Filter(init, IsStr);
      assert Filter(items, IsStr) == kept + if IsStr(last) then [last] else [];
      TextCharsOfStrings(init);
      if IsStr(last) {
        var f := kept + [last];
        assert f[..|f| - 1] == kept;
        assert TextChars(f) == TextChars(kept) + |Strip(last.s)|;
      } else {
        assert Filter(items, IsStr) == kept;
      }
    }
  }

  // ------------------------------------------------------------------ verdict

  /** The figures one file's entry records. */
  datatype Info = Info(numTextItems: nat, textChars: nat, numTables: nat, totalCells: nat, nonemptyCells: nat, cellChars: nat)

  function InfoOf(d: Data): Info
  {
    var c := SumTables(d.tables);
    Info(|d.textItems|, TextChars(d.textItems), |d.tables|, c.total, c.nonempty, c.chars)
  }

  const NoTextNoTables := "no_text_no_tables"
  const VeryLittle := "very_little_text_and_table_cells"
  const TablesEmpty := "tables_present_but_empty"

  predicate NoContent(info: Info) { info.numTextItems == 0 && info.numTables == 0 }

  predicate LittleContent(info: Info) { info.textChars < 50 && info.nonemptyCells < 3 }

  predicate EmptyTables(info: Info) { info.numTables > 0 && info.nonemptyCells == 0 }

  /** The reasons, in the order the heuristics are tried. */
  function Reasons(info: Info): seq<string>
  {
    (if NoContent(info) then [NoTextNoTables] else []) +
    (if LittleContent(info) then [VeryLittle] else []) +
    (if EmptyTables(info) then [TablesEmpty] else [])
  }

  /** The quality heuristics: `poor` and the `reasons` list. */
  method Assess(info: Info) returns (poor: bool, reasons: seq<string>)
    ensures reasons == Reasons(info)
    ensures poor <==> reasons != []
  {
    poor := false;
    reasons := [];
    if info.numTextItems == 0 && info.numTables == 0 {
      poor := true;
      reasons := reasons + [NoTextNoTables];
    }
    if info.textChars < 50 && info.nonemptyCells < 3 {
      poor := true;
      reasons := reasons + [VeryLittle];
    }
    if info.numTables > 0 && info.nonemptyCells == 0 {
      poor := true;
      reasons := reasons + [TablesEmpty];
    }
  }

  /** Where a name sits in the fixed order of the heuristics. */
  function Rank(reason: string): nat
  {
    if reason == NoTextNoTables then 0 else if reason == VeryLittle then 1 else 2
  }

  /**
   * Each reason is listed exactly when its heuristic fires, at most once, and
   * in the fixed order `no_text_no_tables`, `very_little_text_and_table_cells`,
   * `tables_present_but_empty`.
   */
  lemma ReasonsSpec(info: Info)
    ensures NoTextNoTables in Reasons(info) <==> NoContent(info)
    ensures VeryLittle in Reasons(info) <==> LittleContent(info)
    ensures TablesEmpty in Reasons(info) <==> EmptyTables(info)
    ensures forall i, j :: 0 <= i < j < |Reasons(info)| ==> Rank(Reasons(info)[i]) < Rank(Reasons(info)[j])
  {
    assert NoTextNoTables[0] == 'n' && VeryLittle[0] == 'v' && TablesEmpty[0] == 't';
    assert NoTextNoTables != VeryLittle && VeryLittle != TablesEmpty && NoTextNoTables != TablesEmpty;
  }

  /** Tables with no non-empty cell always make the file poor, for that reason. */
  lemma TablesWithoutTextArePoor(d: Data)
    requires d.tables != [] && SumTables(d.tables).nonempty == 0
    ensures TablesEmpty in Reasons(InfoOf(d))
    ensures Reasons(InfoOf(d)) != []
  {
    ReasonsSpec(InfoOf(d));
  }

  // ---------------------------------------------------------------- one file

  /**
   * How reading a file went: it could not be read, it was not JSON, or it
   * gave the data; `head` is the text of its first fifty lines.
   */
  datatype Loaded = ReadFailed(message: string) | JsonFailed(message: string) | Parsed(head: string, data: Data)

  const SnippetLength := 1000

  /** One entry of the report: the error, or the snippet, the figures and the verdict. */
  datatype Entry = Failed(error: string) | Rated(snippet: string, info: Info, poor: bool, reasons: seq<string>)

  /** One pass of the file loop. */
  method EvaluateFile(loaded: Loaded) returns (entry: Entry)
    ensures loaded.ReadFailed? ==> entry == Failed(loaded.message)
    ensures loaded.JsonFailed? ==> entry == Failed("json:" + loaded.message)
    ensures loaded.Parsed? ==> entry.Rated? && entry.snippet == SliceTo(loaded.head, SnippetLength)
    ensures loaded.Parsed? ==> entry.Rated? && entry.info == InfoOf(loaded.data)
    ensures loaded.Parsed? ==> entry.Rated? && entry.reasons == Reasons(InfoOf(loaded.data)) && (entry.poor <==> entry.reasons != [])
  {
    match loaded {
      case ReadFailed(message) =>
        return Failed(message);
      case JsonFailed(message) =>
        return Failed("json:" + message);
      case Parsed(head, data) =>
        var snippet := SliceTo(head, SnippetLength);
        var total, nonempty, chars := CountCells(data.tables);
        var info := Info(|data.textItems|, TextChars(data.textItems), |data.tables|, total, nonempty, chars);
        var poor, reasons := Assess(info);
        return Rated(snippet, info, poor, reasons);
    }
  }
}

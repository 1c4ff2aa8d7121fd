// Structure-aware chunking of parsed label tables into ordered, typed chunks
// (packages/graph/src/graph/chunker.py).

module Chunker {
  import opened Base
  import opened Strings

  /** One table row: each cell already rendered with `str(cell)`. */
  type Row = seq<string>

  datatype Section =
    | ProductIdentity | Claims | ResistanceWarning | DirectionsForUse | WeedTable
    | WithholdingPeriod | Compatibility | Safety | Storage | Metadata | General

  function SectionName(s: Section): string
  {
    match s
    case ProductIdentity => "product_identity"
    case Claims => "claims"
    case ResistanceWarning => "resistance_warning"
    case DirectionsForUse => "directions_for_use"
    case WeedTable => "weed_table"
    case WithholdingPeriod => "withholding_period"
    case Compatibility => "compatibility"
    case Safety => "safety"
    case Storage => "storage"
    case Metadata => "metadata"
    case General => "general"
  }

  /** The sections that have a pattern, in the order the patterns are tried. */
  const PatternOrder: seq<Section> :=
    [ProductIdentity, Claims, ResistanceWarning, DirectionsForUse, WeedTable,
     WithholdingPeriod, Compatibility, Safety, Storage]

  datatype ChunkType = TableChunk | MetadataChunk | DirectionsChunk | WeedTableChunk

  /** The `bbox` entry of a table: missing, JSON `null`, or an object with an optional page. */
  datatype BBox = NoBBox | NullBBox | BBox(page: Option<int>)

  /** A table as the Docling parser emits it; `markdown` is empty when there is none. */
  datatype Table = Table(
    id: Option<string>,
    markdown: string,
    rows: seq<Row>,
    rowCount: Option<int>,
    columnCount: Option<int>,
    bbox: BBox)

  datatype Chunk = Chunk(
    chunkId: string,
    text: string,
    chunkType: ChunkType,
    sequenceOrder: nat,
    sourceFile: string,
    productNumber: string,
    parentSection: Option<Section>,
    tableId: string,
    rowCount: Option<int>,
    columnCount: Option<int>,
    headers: seq<string>,
    pageNumber: Option<int>)

  // ------------------------------------------------------------- contextualize

  /** The bracketed tags that apply to a chunk, in the order they are prepended. */
  function ContextTags(c: Chunk): seq<string>
  {
    (if c.productNumber != [] then ["[Product: " + c.productNumber + "]"] else [])
    + (if c.parentSection.Some? then ["[Section: " + SectionName(c.parentSection.value) + "]"] else [])
    + (if c.chunkType == WeedTableChunk then ["[Weed Control Table]"]
       else if c.chunkType == DirectionsChunk then ["[Directions for Use]"]
       else [])
  }

  /** The text that is embedded: the tags and then the raw text, separated by single spaces. */
  function Contextualize(c: Chunk): (r: string)
    ensures ContextTags(c) == [] ==> r == c.text
    ensures ContextTags(c) != [] ==> r == Join(" ", ContextTags(c)) + " " + c.text
    ensures EndsWith(r, c.text)
    ensures c.productNumber != [] ==> StartsWith(r, "[Product: " + c.productNumber + "]")
  {
    var tags := ContextTags(c);
    if tags == [] then
      assert tags + [c.text] == [c.text];
      Join(" ", tags + [c.text])
    else
      JoinAppend(" ", tags, c.text);
      JoinStartsWithFirst(" ", tags);
      Join(" ", tags + [c.text])
  }

  lemma JoinStartsWithFirst(sep: string, parts: seq<string>)
    requires 0 < |parts|
    ensures StartsWith(Join(sep, parts), parts[0])
  {
  }

  // ---------------------------------------------------------- classification

  function RowsJoinedBySpace(rows: seq<Row>): string
  {
    Join(" ", seq(|rows|, i requires 0 <= i < |rows| => Join(" ", rows[i])))
  }

  /** The text the section patterns are searched in: the markdown, or else the cells joined by spaces. */
  function ClassificationText(t: Table): string
  {
    if t.markdown != [] then t.markdown else RowsJoinedBySpace(t.rows)
  }

  /** `table.get("column_count", 0)` */
  function ColumnCount(t: Table): int
  {
    if t.columnCount.Some? then t.columnCount.value else 0
  }

  /** Index of the first section in `order` whose pattern matches, or -1. */
  function FirstMatchIndex(order: seq<Section>, text: string, matches: (Section, string) -> bool): (k: int)
    ensures -1 <= k < |order|
    ensures k == -1 ==> forall j :: 0 <= j < |order| ==> !matches(order[j], text)
    ensures k != -1 ==> matches(order[k], text) && forall j :: 0 <= j < k ==> !matches(order[j], text)
    decreases |order|
  {
    if |order| == 0 then -1
    else if matches(order[0], text) then 0
    else
      var k := FirstMatchIndex(order[1..], text, matches);
      if k == -1 then -1 else k + 1
  }

  /** A matching entry with no match before it is the one found. */
  lemma FirstMatchIsFirst(order: seq<Section>, text: string, matches: (Section, string) -> bool)
    ensures forall k :: 0 <= k < |order| && matches(order[k], text) && (forall j :: 0 <= j < k ==> !matches(order[j], text))
                        ==> FirstMatchIndex(order, text, matches) == k
  {
  }

  /**
   * The section a table belongs to.  The patterns are abstract: `matches(s, text)` says
   * whether the case-insensitive pattern of section `s` occurs in `text`.
   */
  function ClassifySection(t: Table, matches: (Section, string) -> bool): (r: Section)
    ensures var text := ClassificationText(t);
      forall k :: 0 <= k < |PatternOrder| && matches(PatternOrder[k], text)
        && (forall j :: 0 <= j < k ==> !matches(PatternOrder[j], text))
        ==> r == PatternOrder[k]
    ensures var text := ClassificationText(t);
      (forall k :: 0 <= k < |PatternOrder| ==> !matches(PatternOrder[k], text)) ==>
        r == (if 4 <= ColumnCount(t) then DirectionsForUse
              else if ColumnCount(t) == 2 then Metadata
              else General)
  {
    FirstMatchIsFirst(PatternOrder, ClassificationText(t), matches);
    var k := FirstMatchIndex(PatternOrder, ClassificationText(t), matches);
    if k != -1 then PatternOrder[k]
    else if 4 <= ColumnCount(t) then DirectionsForUse
    else if ColumnCount(t) == 2 then Metadata
    else General
  }

  // ---------------------------------------------------------- weed-table test

  /** First index at or after `j` that is not whitespace (the regex `\s*`). */
  function SkipSpaces(s: string, j: nat): (k: nat)
    requires j <= |s|
    ensures j <= k <= |s|
    ensures k == |s| || !IsSpace(s[k])
    ensures forall i :: j <= i < k ==> IsSpace(s[i])
    decreases |s| - j
  {
    if j < |s| && IsSpace(s[j]) then SkipSpaces(s, j + 1) else j
  }

  /** `(mL|g|L)/ha`, ignoring case, starts at position `j`. */
  predicate UnitPerHectareAt(s: string, j: nat)
    requires j <= |s|
  {
    var rest := Lower(s[j..]);
    StartsWith(rest, "ml/ha") || StartsWith(rest, "g/ha") || StartsWith(rest, "l/ha")
  }

  /** A digit at `i` is followed, after optional whitespace, by a per-hectare unit. */
  predicate RateAt(s: string, i: int)
  {
    0 <= i < |s| && IsDigit(s[i]) && UnitPerHectareAt(s, SkipSpaces(s, i + 1))
  }

  /** `re.search(r"\d+\s*(mL|g|L)/ha", s, re.I)` succeeds. */
  predicate HasRatePattern(s: string)
  {
    exists i :: 0 <= i < |s| && RateAt(s, i)
  }

  const WeedIndicators: seq<string> := ["weed", "grass", "thistle", "dock", "clover", "ryegrass"]

  predicate NamesWeed(cell: string)
  {
    exists k :: 0 <= k < |WeedIndicators| && Contains(Lower(cell), WeedIndicators[k])
  }

  /** A non-empty row whose first cell names a weed or one of whose cells holds a rate. */
  predicate SignalsWeeds(row: Row)
  {
    row != [] && (NamesWeed(row[0]) || exists j :: 0 <= j < |row| && HasRatePattern(row[j]))
  }

  /** The row scan with early return. */
  function AnySignalsWeeds(rows: seq<Row>): (r: bool)
    ensures r <==> exists i :: 0 <= i < |rows| && SignalsWeeds(rows[i])
    decreases |rows|
  {
    if |rows| == 0 then false
    else if SignalsWeeds(rows[0]) then true
    else
      var r := AnySignalsWeeds(rows[1..]);
      assert forall i :: 1 <= i < |rows| ==> rows[i] == rows[1..][i - 1];
      r
  }

  function IsWeedTable(t: Table): (r: bool)
    ensures |t.rows| < 3 ==> !r
    ensures r <==> 3 <= |t.rows| && exists i :: 0 <= i < Min(5, |t.rows|) && SignalsWeeds(t.rows[i])
  {
    if |t.rows| < 3 then false
    else
      var first := t.rows[..Min(5, |t.rows|)];
      assert forall i :: 0 <= i < |first| ==> first[i] == t.rows[i];
      AnySignalsWeeds(first)
  }

  lemma RateExample()
    ensures HasRatePattern("200mL/ha")
    ensures HasRatePattern("Apply 1.5 L/ha")
  {
    var s := "200mL/ha";
    assert SkipSpaces(s, 3) == 3;
    assert Lower(s[3..]) == "ml/ha";
    assert RateAt(s, 2);
    var u := "Apply 1.5 L/ha";
    assert SkipSpaces(u, 9) == 10;
    assert Lower(u[10..]) == "l/ha";
    assert RateAt(u, 8);
  }

  // ------------------------------------------------------------- chunk parts

  /** Type precedence: weed table, then directions, then metadata, then plain table. */
  function KindFor(t: Table, section: Section): (k: ChunkType)
    ensures IsWeedTable(t) <==> k == WeedTableChunk
    ensures k == DirectionsChunk <==> !IsWeedTable(t) && section == DirectionsForUse
    ensures k == MetadataChunk <==>
              (!IsWeedTable(t) && section != DirectionsForUse && (section == Metadata || ColumnCount(t) <= 2))
  {
    if IsWeedTable(t) then WeedTableChunk
    else if section == DirectionsForUse then DirectionsChunk
    else if section == Metadata || ColumnCount(t) <= 2 then MetadataChunk
    else TableChunk
  }

  /** The first row is a header row for tables of three or more columns. */
  function HeadersOf(t: Table): seq<string>
  {
    if |t.rows| > 0 && 3 <= ColumnCount(t) then t.rows[0] else []
  }

  function RowLine(row: Row): string { Join(" | ", row) }

  function RowsText(rows: seq<Row>): string
  {
    Join("\n", seq(|rows|, i requires 0 <= i < |rows| => RowLine(rows[i])))
  }

  /** The markdown, or else one line per row with cells joined by ` | `. */
  function ChunkText(t: Table): string
  {
    if t.markdown != [] then t.markdown else RowsText(t.rows)
  }

  function TableIdFor(t: Table, sequence: nat): string
  {
    if t.id.Some? then t.id.value else "table-" + NatToString(sequence)
  }

  function PageOf(b: BBox): Option<int>
  {
    if b.BBox? then b.page else None
  }

  /** `max(1, len(data_rows) // ((estimated_tokens // max_chunk_tokens) + 1))` */
  function RowsPerChunk(dataRows: nat, tokens: nat, maxTokens: nat): (r: nat)
    requires 0 < maxTokens
    ensures 1 <= r
  {
    Max(1, dataRows / (tokens / maxTokens + 1))
  }

  /** Consecutive groups of `size` rows; only the last may be shorter. */
  function RowGroups(rows: seq<Row>, size: nat): seq<seq<Row>>
    requires 0 < size
    decreases |rows|
  {
    if |rows| == 0 then []
    else [rows[..Min(size, |rows|)]] + RowGroups(rows[Min(size, |rows|)..], size)
  }

  function Flatten(groups: seq<seq<Row>>): seq<Row>
  {
    if |groups| == 0 then [] else groups[0] + Flatten(groups[1..])
  }

  /** The groups, put back together, are the rows in their order: nothing lost, nothing repeated. */
  lemma {:induction false} RowGroupsPartition(rows: seq<Row>, size: nat)
    requires 0 < size
    ensures Flatten(RowGroups(rows, size)) == rows
    ensures forall k :: 0 <= k < |RowGroups(rows, size)| ==> 0 < |RowGroups(rows, size)[k]| <= size
    ensures forall k :: 0 <= k < |RowGroups(rows, size)| - 1 ==> |RowGroups(rows, size)[k]| == size
    decreases |rows|
  {
    if |rows| != 0 {
      var m := Min(size, |rows|);
      var g := RowGroups(rows, size);
      var tail := RowGroups(rows[m..], size);
      RowGroupsPartition(rows[m..], size);
      assert g == [rows[..m]] + tail;
      assert g[1..] == tail;
      assert rows == rows[..m] + rows[m..];
      if m < size {
        assert rows[m..] == [];
      }
      forall k | 0 <= k < |g|
        ensures 0 < |g[k]| <= size
        ensures k < |g| - 1 ==> |g[k]| == size
      {
        if k > 0 {
          assert g[k] == tail[k - 1];
        }
      }
    }
  }

  function RowCountTotal(groups: seq<seq<Row>>): nat
  {
    if |groups| == 0 then 0 else |groups[0]| + RowCountTotal(groups[1..])
  }

  lemma {:induction false} FlattenLength(groups: seq<seq<Row>>)
    ensures |Flatten(groups)| == RowCountTotal(groups)
    decreases |groups|
  {
    if |groups| != 0 {
      FlattenLength(groups[1..]);
    }
  }

  /** The sub-chunks' row counts add up to the number of data rows. */
  lemma RowGroupCountsSum(rows: seq<Row>, size: nat)
    requires 0 < size
    ensures RowCountTotal(RowGroups(rows, size)) == |rows|
  {
    RowGroupsPartition(rows, size);
    FlattenLength(RowGroups(rows, size));
  }

  // ------------------------------------------------------------------- driver

  /** What the chunker needs besides the tables; the md5 digest (first 8 hex digits) is abstract. */
  datatype Config = Config(
    productNumber: string,
    sourceFile: string,
    maxTokens: nat,
    matches: (Section, string) -> bool,
    hash: string -> string)

  /** `json_path.stem.replace("ELBL", "").replace(".docling", "")` */
  function ProductNumberOf(fileName: string): string
  {
    ReplaceAll(ReplaceAll(Stem(fileName), "ELBL", ""), ".docling", "")
  }

  function ConfigFor(fileName: string, maxTokens: nat, matches: (Section, string) -> bool,
                     hash: string -> string): Config
  {
    Config(ProductNumberOf(fileName), fileName, maxTokens, matches, hash)
  }

  /** What is fixed for every chunk of one table. */
  datatype Plan = Plan(
    tableId: string,
    kind: ChunkType,
    section: Option<Section>,
    headers: seq<string>,
    hash: string,
    firstSequence: nat)

  function SubText(headers: seq<string>, rows: seq<Row>): string
  {
    if headers != [] then Join(" | ", headers) + "\n" + RowsText(rows) else RowsText(rows)
  }

  /** Part `k` of a split table, holding `rows` and numbered `sequence`. */
  function SubChunk(cfg: Config, t: Table, p: Plan, k: nat, sequence: nat, rows: seq<Row>): Chunk
  {
    Chunk(cfg.productNumber + "-" + p.tableId + "-part" + NatToString(k) + "-" + p.hash,
          SubText(p.headers, rows), p.kind, sequence, cfg.sourceFile,
          cfg.productNumber, p.section, p.tableId, Some(|rows|), t.columnCount,
          p.headers, PageOf(t.bbox))
  }

  function SingleChunk(cfg: Config, t: Table, p: Plan): Chunk
  {
    Chunk(cfg.productNumber + "-" + p.tableId + "-" + p.hash, ChunkText(t), p.kind,
          p.firstSequence, cfg.sourceFile, cfg.productNumber, p.section, p.tableId,
          t.rowCount, t.columnCount, p.headers, PageOf(t.bbox))
  }

  /** The chunks emitted so far, the next sequence number, the carried section, and whether the generator raised. */
  datatype RunState = RunState(out: seq<Chunk>, sequence: nat, section: Option<Section>, failed: bool)

  predicate IsBlankTable(t: Table) { t.markdown == [] && t.rows == [] }

  predicate IsSplit(cfg: Config, t: Table)
  {
    cfg.maxTokens < WordCount(ChunkText(t)) && 3 < |t.rows|
  }

  function DataRows(t: Table): seq<Row>
  {
    if HeadersOf(t) != [] then t.rows[1..] else t.rows
  }

  function PlanFor(cfg: Config, st: RunState, t: Table, current: Option<Section>): Plan
  {
    var tableId := TableIdFor(t, st.sequence);
    Plan(tableId, KindFor(t, ClassifySection(t, cfg.matches)), current, HeadersOf(t),
         cfg.hash(cfg.productNumber + "-" + tableId + "-" + NatToString(st.sequence)), st.sequence)
  }

  /** `rows_per_chunk` for a table that is split. */
  function SplitSize(cfg: Config, t: Table): (r: nat)
    requires 0 < cfg.maxTokens
    ensures 1 <= r
  {
    RowsPerChunk(|DataRows(t)|, WordCount(ChunkText(t)), cfg.maxTokens)
  }

  /** One sub-chunk per group of `size` consecutive rows of `data`. */
  function SplitChunks(cfg: Config, t: Table, p: Plan, data: seq<Row>, size: nat): (subs: seq<Chunk>)
    requires 0 < size
    ensures |subs| == |RowGroups(data, size)|
    ensures forall k :: 0 <= k < |subs| ==>
      subs[k].sequenceOrder == p.firstSequence + k && subs[k].productNumber == cfg.productNumber
      && subs[k].sourceFile == cfg.sourceFile && subs[k].parentSection == p.section
      && subs[k].rowCount == Some(|RowGroups(data, size)[k]|)
  {
    var groups := RowGroups(data, size);
    seq(|groups|, k requires 0 <= k < |groups| => SubChunk(cfg, t, p, k, p.firstSequence + k, groups[k]))
  }

  /** `current_section` after a non-blank table: its label unless that label is `general`. */
  function CarriedAfter(cfg: Config, st: RunState, t: Table): Option<Section>
  {
    var section := ClassifySection(t, cfg.matches);
    if section != General then Some(section) else st.section
  }

  /** The chunks a table that reaches the yield emits: its sub-chunks when split, else one chunk. */
  function Emitted(cfg: Config, st: RunState, t: Table): (e: seq<Chunk>)
    requires 0 < cfg.maxTokens
    ensures forall k :: 0 <= k < |e| ==>
      e[k].sequenceOrder == st.sequence + k && e[k].productNumber == cfg.productNumber
      && e[k].sourceFile == cfg.sourceFile && e[k].parentSection == CarriedAfter(cfg, st, t)
  {
    var p := PlanFor(cfg, st, t, CarriedAfter(cfg, st, t));
    if IsSplit(cfg, t) then SplitChunks(cfg, t, p, DataRows(t), SplitSize(cfg, t)) else [SingleChunk(cfg, t, p)]
  }

  /** The effect of one table on the generator's state. */
  function Step(cfg: Config, st: RunState, t: Table): RunState
    requires 0 < cfg.maxTokens
  {
    if st.failed || IsBlankTable(t) then st
    else if |Strip(ChunkText(t))| < 20 then st.(section := CarriedAfter(cfg, st, t))
    else if t.bbox == NullBBox then st.(section := CarriedAfter(cfg, st, t), failed := true)
    else
      var emitted := Emitted(cfg, st, t);
      RunState(st.out + emitted, st.sequence + |emitted|, CarriedAfter(cfg, st, t), false)
  }

  function Run(cfg: Config, tables: seq<Table>): RunState
    requires 0 < cfg.maxTokens
    decreases |tables|
  {
    if |tables| == 0 then RunState([], 0, None, false)
    else Step(cfg, Run(cfg, tables[..|tables| - 1]), tables[|tables| - 1])
  }

  /** The chunk list, or `None` when the generator raises (a `bbox` that is JSON `null`). */
  function ChunkAll(cfg: Config, tables: seq<Table>): Option<seq<Chunk>>
    requires 0 < cfg.maxTokens
  {
    var st := Run(cfg, tables);
    if st.failed then None else Some(st.out)
  }

  // ------------------------------------------------------------ run properties

  /** Chunks are numbered 0, 1, 2, ... and all carry the file's product number and name. */
  predicate Numbered(cfg: Config, st: RunState)
  {
    st.sequence == |st.out|
    && (forall i :: 0 <= i < |st.out| ==> st.out[i].sequenceOrder == i)
    && (forall i :: 0 <= i < |st.out| ==>
          st.out[i].productNumber == cfg.productNumber && st.out[i].sourceFile == cfg.sourceFile)
  }

  /** Appending chunks numbered on from `st.sequence` keeps the numbering. */
  lemma AppendKeepsNumbering(cfg: Config, st: RunState, emitted: seq<Chunk>, section: Option<Section>)
    requires Numbered(cfg, st)
    requires forall k :: 0 <= k < |emitted| ==>
      emitted[k].sequenceOrder == st.sequence + k && emitted[k].productNumber == cfg.productNumber
      && emitted[k].sourceFile == cfg.sourceFile
    ensures Numbered(cfg, RunState(st.out + emitted, st.sequence + |emitted|, section, false))
  {
    var out := st.out + emitted;
    assert forall i :: |st.out| <= i < |out| ==> out[i] == emitted[i - |st.out|];
  }

  lemma StepKeepsNumbering(cfg: Config, st: RunState, t: Table)
    requires 0 < cfg.maxTokens && Numbered(cfg, st)
    ensures Numbered(cfg, Step(cfg, st, t))
  {
    if !(st.failed || IsBlankTable(t) || |Strip(ChunkText(t))| < 20 || t.bbox == NullBBox) {
      AppendKeepsNumbering(cfg, st, Emitted(cfg, st, t), CarriedAfter(cfg, st, t));
    }
  }

  lemma {:induction false} RunNumbered(cfg: Config, tables: seq<Table>)
    requires 0 < cfg.maxTokens
    ensures Numbered(cfg, Run(cfg, tables))
    decreases |tables|
  {
    if |tables| != 0 {
      RunNumbered(cfg, tables[..|tables| - 1]);
      StepKeepsNumbering(cfg, Run(cfg, tables[..|tables| - 1]), tables[|tables| - 1]);
    }
  }

  /** A table with no content, or whose text strips to under 20 characters, yields no chunk and uses no sequence number. */
  lemma SkippedTableEmitsNothing(cfg: Config, st: RunState, t: Table)
    requires 0 < cfg.maxTokens
    requires IsBlankTable(t) || |Strip(ChunkText(t))| < 20
    ensures Step(cfg, st, t).out == st.out
    ensures Step(cfg, st, t).sequence == st.sequence
    ensures Step(cfg, st, t).failed == st.failed
  {
  }

  /** Once the generator has raised, later tables change nothing. */
  lemma {:induction false} FailureSticks(cfg: Config, tables: seq<Table>, n: nat)
    requires 0 < cfg.maxTokens && n <= |tables|
    requires Run(cfg, tables[..n]).failed
    ensures Run(cfg, tables).failed
    decreases |tables| - n
  {
    if n < |tables| {
      assert tables[..n + 1][..n] == tables[..n];
      FailureSticks(cfg, tables, n + 1);
    } else {
      assert tables[..n] == tables;
    }
  }

  /**
   * The carried section, defined without the generator: the classification of the last
   * non-blank table that is not `general`.
   */
  function LastNamedSection(cfg: Config, tables: seq<Table>): Option<Section>
    decreases |tables|
  {
    if |tables| == 0 then None
    else
      var t := tables[|tables| - 1];
      if !IsBlankTable(t) && ClassifySection(t, cfg.matches) != General
      then Some(ClassifySection(t, cfg.matches))
      else LastNamedSection(cfg, tables[..|tables| - 1])
  }

  lemma FailedPrefixFails(cfg: Config, st: RunState, t: Table)
    requires 0 < cfg.maxTokens
    ensures st.failed ==> Step(cfg, st, t).failed
  {
  }

  /** A `general` table inherits the label of the last table that had one. */
  lemma {:induction false} CarriedSection(cfg: Config, tables: seq<Table>)
    requires 0 < cfg.maxTokens && !Run(cfg, tables).failed
    ensures Run(cfg, tables).section == LastNamedSection(cfg, tables)
    decreases |tables|
  {
    if |tables| != 0 {
      var prefix := tables[..|tables| - 1];
      FailedPrefixFails(cfg, Run(cfg, prefix), tables[|tables| - 1]);
      CarriedSection(cfg, prefix);
    }
  }

  /** Sub-chunks of one split table hold its rows in order, `size` to a part except the last. */
  lemma SplitRows(cfg: Config, t: Table, p: Plan, data: seq<Row>, size: nat)
    requires 0 < size
    ensures var subs := SplitChunks(cfg, t, p, data, size);
      var groups := RowGroups(data, size);
      |subs| == |groups| && Flatten(groups) == data
      && (forall k :: 0 <= k < |subs| ==> subs[k].rowCount == Some(|groups[k]|) && 0 < |groups[k]|)
      && (forall k :: 0 <= k < |subs| - 1 ==> subs[k].rowCount == Some(size))
  {
    RowGroupsPartition(data, size);
  }

  /** Every sub-chunk of a table with headers starts with the header line. */
  lemma SplitHeaders(cfg: Config, t: Table, p: Plan, data: seq<Row>, size: nat)
    requires 0 < size && p.headers != []
    ensures var subs := SplitChunks(cfg, t, p, data, size);
      forall k :: 0 <= k < |subs| ==> StartsWith(subs[k].text, Join(" | ", p.headers) + "\n")
  {
  }

  /** Sub-chunks of one split table have pairwise distinct ids. */
  lemma SplitIdsDistinct(cfg: Config, t: Table, p: Plan, data: seq<Row>, size: nat)
    requires 0 < size
    ensures var subs := SplitChunks(cfg, t, p, data, size);
      forall k, j :: 0 <= k < j < |subs| ==> subs[k].chunkId != subs[j].chunkId
  {
    var subs := SplitChunks(cfg, t, p, data, size);
    forall k, j | 0 <= k < j < |subs|
      ensures subs[k].chunkId != subs[j].chunkId
    {
      PartIdsDiffer(cfg.productNumber + "-" + p.tableId + "-part", p.hash, k, j);
    }
  }

  /** Two part numbers give two different ids. */
  lemma PartIdsDiffer(prefix: string, hash: string, k: nat, j: nat)
    requires k != j
    ensures prefix + NatToString(k) + "-" + hash != prefix + NatToString(j) + "-" + hash
  {
    var a := NatToString(k);
    var b := NatToString(j);
    NatToStringInjective(k, j);
    var x := prefix + a + "-" + hash;
    var y := prefix + b + "-" + hash;
    if |a| == |b| {
      var d :| 0 <= d < |a| && a[d] != b[d];
      assert x[|prefix| + d] == a[d] && y[|prefix| + d] == b[d];
    } else if |a| < |b| {
      assert x[|prefix| + |a|] == '-' && y[|prefix| + |a|] == b[|a|];
    } else {
      assert y[|prefix| + |b|] == '-' && x[|prefix| + |b|] == a[|b|];
    }
  }

  // ------------------------------------------------------------------- method

  lemma MulDiv(k: nat, size: nat)
    requires 0 < size
    ensures (k * size) / size == k
  {
    var q := (k * size) / size;
    assert size * (k - q) == (k * size) % size;
    MulSmall(size, k - q);
  }

  lemma MulSmall(a: int, b: int)
    requires 0 < a && 0 <= a * b < a
    ensures b == 0
  {
  }

  /** The loop counter `i` steps through multiples of `perChunk`, so `i // perChunk` is the part number. */
  lemma PartIndex(k: nat, perChunk: nat, i: nat)
    requires 0 < perChunk && i == k * perChunk
    ensures i / perChunk == k
    ensures i + perChunk == (k + 1) * perChunk
  {
    MulDiv(k, perChunk);
  }

  /** The sub-chunks of the rows still to split, numbered from part `k`. */
  function PartsFrom(cfg: Config, t: Table, p: Plan, rest: seq<Row>, size: nat, k: nat): seq<Chunk>
    requires 0 < size
    decreases |rest|
  {
    if |rest| == 0 then []
    else [SubChunk(cfg, t, p, k, p.firstSequence + k, rest[..Min(size, |rest|)])]
         + PartsFrom(cfg, t, p, rest[Min(size, |rest|)..], size, k + 1)
  }

  /** Splitting from part `k` gives sub-chunk `k + j` for group `j`. */
  lemma {:induction false} PartsFromGroups(cfg: Config, t: Table, p: Plan, rest: seq<Row>, size: nat, k: nat)
    requires 0 < size
    ensures |PartsFrom(cfg, t, p, rest, size, k)| == |RowGroups(rest, size)|
    ensures forall j :: 0 <= j < |RowGroups(rest, size)| ==>
      PartsFrom(cfg, t, p, rest, size, k)[j] == SubChunk(cfg, t, p, k + j, p.firstSequence + k + j, RowGroups(rest, size)[j])
    decreases |rest|
  {
    if |rest| != 0 {
      PartsFromGroups(cfg, t, p, rest[Min(size, |rest|)..], size, k + 1);
    }
  }

  /** The rows after the slice a turn takes are the rest of the data from the next slice on. */
  lemma RestAfter(data: seq<Row>, size: nat, i: nat, rest: seq<Row>)
    requires i < |data| && rest == data[i..]
    ensures rest[..Min(size, |rest|)] == data[i..Min(i + size, |data|)]
    ensures rest[Min(size, |rest|)..] == data[Min(i + size, |data|)..]
  {
    assert i + Min(size, |rest|) == Min(i + size, |data|);
  }

  /** One turn of the row-group loop: the rows after the slice taken are the rest of the data. */
  lemma SplitTurn(cfg: Config, t: Table, plan: Plan, data: seq<Row>, perChunk: nat,
                  subs: seq<Chunk>, rest: seq<Row>, k: nat, i: nat, sub: Chunk)
    requires 0 < perChunk && i < |data| && rest == data[i..]
    requires sub == SubChunk(cfg, t, plan, k, plan.firstSequence + k, data[i..Min(i + perChunk, |data|)])
    requires subs + PartsFrom(cfg, t, plan, rest, perChunk, k) == PartsFrom(cfg, t, plan, data, perChunk, 0)
    ensures (subs + [sub]) + PartsFrom(cfg, t, plan, data[Min(i + perChunk, |data|)..], perChunk, k + 1)
         == PartsFrom(cfg, t, plan, data, perChunk, 0)
  {
    RestAfter(data, perChunk, i, rest);
    assert PartsFrom(cfg, t, plan, rest, perChunk, k)
        == [sub] + PartsFrom(cfg, t, plan, data[Min(i + perChunk, |data|)..], perChunk, k + 1);
  }

  /** The inner loop of `chunk_docling_json`: one sub-chunk per group of `perChunk` data rows. */
  method SplitTable(cfg: Config, t: Table, plan: Plan, data: seq<Row>, perChunk: nat) returns (subs: seq<Chunk>)
    requires 0 < perChunk
    ensures subs == SplitChunks(cfg, t, plan, data, perChunk)
  {
    ghost var rest := data;
    ghost var k: nat := 0;
    subs := [];
    var sequence := plan.firstSequence;
    var i: nat := 0;
    while i < |data|
      invariant i == k * perChunk && sequence == plan.firstSequence + k
      invariant rest == data[Min(i, |data|)..]
      invariant subs + PartsFrom(cfg, t, plan, rest, perChunk, k) == PartsFrom(cfg, t, plan, data, perChunk, 0)
    {
      PartIndex(k, perChunk, i);
      var subRows := data[i..Min(i + perChunk, |data|)];
      var part := i / perChunk;
      var sub := SubChunk(cfg, t, plan, part, sequence, subRows);
      SplitTurn(cfg, t, plan, data, perChunk, subs, rest, k, i, sub);
      subs := subs + [sub];
      rest := data[Min(i + perChunk, |data|)..];
      sequence := sequence + 1;
      i := i + perChunk;
      k := k + 1;
    }
    assert rest == [];
    PartsFromAll(cfg, t, plan, data, perChunk);
  }

  /** Splitting from part 0 is the sub-chunk list. */
  lemma PartsFromAll(cfg: Config, t: Table, p: Plan, data: seq<Row>, size: nat)
    requires 0 < size
    ensures PartsFrom(cfg, t, p, data, size, 0) == SplitChunks(cfg, t, p, data, size)
  {
    PartsFromGroups(cfg, t, p, data, size, 0);
  }

  /**
   * A table whose text strips to under 20 characters only updates the carried section; one
   * with a null bounding box also stops the generator.
   */
  lemma StepStops(cfg: Config, st: RunState, t: Table)
    requires 0 < cfg.maxTokens && !st.failed && !IsBlankTable(t)
    requires |Strip(ChunkText(t))| < 20 || t.bbox == NullBBox
    ensures Step(cfg, st, t) == st.(section := CarriedAfter(cfg, st, t), failed := 20 <= |Strip(ChunkText(t))|)
  {
  }

  /** A table that reaches the yield appends what it emits and numbers on from there. */
  lemma StepEmits(cfg: Config, st: RunState, t: Table)
    requires 0 < cfg.maxTokens && !st.failed && !IsBlankTable(t)
    requires 20 <= |Strip(ChunkText(t))| && t.bbox != NullBBox
    ensures Step(cfg, st, t) == RunState(st.out + Emitted(cfg, st, t), st.sequence + |Emitted(cfg, st, t)|, CarriedAfter(cfg, st, t), false)
  {
  }

  lemma EmittedSplit(cfg: Config, st: RunState, t: Table)
    requires 0 < cfg.maxTokens && IsSplit(cfg, t)
    ensures Emitted(cfg, st, t) == SplitChunks(cfg, t, PlanFor(cfg, st, t, CarriedAfter(cfg, st, t)), DataRows(t), SplitSize(cfg, t))
  {
  }

  lemma EmittedSingle(cfg: Config, st: RunState, t: Table)
    requires 0 < cfg.maxTokens && !IsSplit(cfg, t)
    ensures Emitted(cfg, st, t) == [SingleChunk(cfg, t, PlanFor(cfg, st, t, CarriedAfter(cfg, st, t)))]
  {
  }

  /** The chunks a table that reaches the yield emits: its row groups when it is split, else one chunk. */
  method EmitTable(cfg: Config, ghost st: RunState, t: Table, plan: Plan, text: string) returns (emitted: seq<Chunk>)
    requires 0 < cfg.maxTokens && text == ChunkText(t) && plan == PlanFor(cfg, st, t, CarriedAfter(cfg, st, t))
    ensures emitted == Emitted(cfg, st, t)
  {
    var tokens := WordCount(text);
    if cfg.maxTokens < tokens && 3 < |t.rows| {
      var data := if plan.headers != [] then t.rows[1..] else t.rows;
      var perChunk := RowsPerChunk(|data|, tokens, cfg.maxTokens);
      emitted := SplitTable(cfg, t, plan, data, perChunk);
      EmittedSplit(cfg, st, t);
    } else {
      emitted := [Chunk(cfg.productNumber + "-" + plan.tableId + "-" + plan.hash, text, plan.kind, plan.firstSequence,
                        cfg.sourceFile, cfg.productNumber, plan.section, plan.tableId,
                        t.rowCount, t.columnCount, plan.headers, PageOf(t.bbox))];
      EmittedSingle(cfg, st, t);
    }
  }

  /**
   * The body of the generator loop of `chunk_docling_json` for one table: the chunks it
   * yields, the next sequence number and section, and whether reading its page raised.
   */
  method ChunkTable(cfg: Config, out: seq<Chunk>, sequence: nat, currentSection: Option<Section>, t: Table)
    returns (out': seq<Chunk>, sequence': nat, currentSection': Option<Section>, raised: bool)
    requires 0 < cfg.maxTokens
    ensures RunState(out', sequence', currentSection', raised)
      == Step(cfg, RunState(out, sequence, currentSection, false), t)
  {
    var before := RunState(out, sequence, currentSection, false);
    out', sequence', currentSection', raised := out, sequence, currentSection, false;
    if t.markdown == [] && t.rows == [] {
      return;
    }
    var section := ClassifySection(t, cfg.matches);
    if section != General {
      currentSection' := Some(section);
    }
    assert currentSection' == CarriedAfter(cfg, before, t);
    var text := ChunkText(t);
    if |Strip(text)| < 20 || t.bbox == NullBBox {
      // A short table is skipped; otherwise `table.get("bbox", {}).get("page")` raises on a
      // JSON null before anything is yielded.
      raised := 20 <= |Strip(text)|;
      StepStops(cfg, before, t);
      return;
    }
    out', sequence' := EmitStep(cfg, before, t, section, currentSection', text);
  }

  /** The yield of one table that is long enough and has a page: the chunks appended and the next sequence number. */
  method EmitStep(cfg: Config, st: RunState, t: Table, section: Section, carried: Option<Section>, text: string)
    returns (out': seq<Chunk>, sequence': nat)
    requires 0 < cfg.maxTokens && !st.failed && !IsBlankTable(t)
    requires section == ClassifySection(t, cfg.matches) && carried == CarriedAfter(cfg, st, t) && text == ChunkText(t)
    requires 20 <= |Strip(text)| && t.bbox != NullBBox
    ensures RunState(out', sequence', carried, false) == Step(cfg, st, t)
  {
    var tableId := TableIdFor(t, st.sequence);
    var kind := KindFor(t, section);
    var headers := HeadersOf(t);
    var hash := cfg.hash(cfg.productNumber + "-" + tableId + "-" + NatToString(st.sequence));
    var plan := Plan(tableId, kind, carried, headers, hash, st.sequence);
    assert plan == PlanFor(cfg, st, t, carried);
    var emitted := EmitTable(cfg, st, t, plan, text);
    StepEmits(cfg, st, t);
    out' := st.out + emitted;
    sequence' := st.sequence + |emitted|;
  }

  /** The generator loop of `chunk_docling_json`, over an already-parsed table list. */
  method ChunkDoclingJson(cfg: Config, tables: seq<Table>) returns (r: Option<seq<Chunk>>)
    requires 0 < cfg.maxTokens
    ensures r == ChunkAll(cfg, tables)
    ensures r.Some? ==> forall i :: 0 <= i < |r.value| ==> r.value[i].sequenceOrder == i
  {
    var sequence: nat := 0;
    var currentSection: Option<Section> := None;
    var out: seq<Chunk> := [];
    var n := 0;
    while n < |tables|
      invariant 0 <= n <= |tables|
      invariant Run(cfg, tables[..n]) == RunState(out, sequence, currentSection, false)
    {
      assert tables[..n + 1][..n] == tables[..n];
      var raised;
      out, sequence, currentSection, raised := ChunkTable(cfg, out, sequence, currentSection, tables[n]);
      if raised {
        FailureSticks(cfg, tables, n + 1);
        return None;
      }
      n := n + 1;
    }
    assert tables[..n] == tables;
    RunNumbered(cfg, tables);
    r := Some(out);
  }
}

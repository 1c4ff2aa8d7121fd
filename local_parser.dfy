// The local label parser: tables rendered as markdown, the extracted text
// cleaned up, the product name found in the first lines, the frontmatter
// written ahead of the text, and the failed list of a directory run. The PDF
// library is a parameter: the page texts and the table grids it extracted.

module LocalParser {
  import opened Base
  import opened Strings
  import LabelParser

  // ------------------------------------------------------------------- tables

  /** A table cell as the PDF library extracts it: missing, or text. */
  type CellValue = Option<string>

  /** A table with its header row and its body rows. */
  datatype Table = Table(headers: seq<CellValue>, rows: seq<seq<CellValue>>)

  /** `str(h).strip() if h else ""` */
  function HeaderText(h: CellValue): string
  {
    if h.Some? && h.value != [] then Strip(h.value) else []
  }

  /** `str(cell).strip().replace('\n', ' ') if cell else ""` */
  function CellText(c: CellValue): string
  {
    if c.Some? && c.value != [] then ReplaceAll(Strip(c.value), "\n", " ") else []
  }

  /** One markdown table line over the given cells. */
  function RowLine(cells: seq<string>): string
  {
    "| " + Join(" | ", cells) + " |\n"
  }

  /** `["---"] * n` */
  function Dashes(n: nat): (r: seq<string>)
    ensures |r| == n && forall k :: 0 <= k < n ==> r[k] == "---"
  {
    seq(n, k => "---")
  }

  function BodyLine(row: seq<CellValue>): string
  {
    RowLine(Map(row, CellText))
  }

  /** The header line, the separator line and one line per body row. */
  function TableLines(t: Table): seq<string>
  {
    [RowLine(Map(t.headers, HeaderText)), RowLine(Dashes(|t.headers|))] + Map(t.rows, BodyLine)
  }

  /** What `table_to_markdown` returns. */
  function TableMarkdown(t: Table): string
  {
    if t.headers == [] || t.rows == [] then [] else Concat(TableLines(t))
  }

  /** A table line: it starts with `| ` and ends with ` |` and a line break. */
  predicate FullLine(line: string)
  {
    StartsWith(line, "| ") && EndsWith(line, " |\n")
  }

  /** No line break before the last character. */
  predicate Unbroken(line: string)
  {
    line != [] && '\n' !in line[..|line| - 1]
  }

  /** Every line starts with `| ` and ends with ` |`, a line break, and there is no line break before that. */
  lemma RowLineShape(cells: seq<string>)
    ensures FullLine(RowLine(cells))
    ensures (forall k :: 0 <= k < |cells| ==> '\n' !in cells[k]) ==> Unbroken(RowLine(cells))
  {
    var line := RowLine(cells);
    var inner := "| " + Join(" | ", cells) + " |";
    assert line == inner + "\n";
    assert line[..|line| - 1] == inner;
    assert line == "| " + (Join(" | ", cells) + " |\n");
    if forall k :: 0 <= k < |cells| ==> '\n' !in cells[k] {
      JoinAvoids(" | ", cells, '\n');
      assert '\n' !in "| " && '\n' !in " |";
    }
  }

  /** A body cell holds no line break: a missing or empty cell is empty, and any other is stripped with its breaks made spaces. */
  lemma CellTextSpec(c: CellValue)
    ensures '\n' !in CellText(c)
    ensures c == None || c == Some([]) ==> CellText(c) == []
    ensures c.Some? && '\n' !in Strip(c.value) ==> CellText(c) == Strip(c.value)
  {
    if c.Some? && c.value != [] {
      ReplaceCharGone(Strip(c.value), '\n', " ");
      if '\n' !in Strip(c.value) {
        ReplaceCharAbsent(Strip(c.value), '\n', " ");
      }
    }
  }

  /** A table without headers or without rows renders as nothing, and any other as something. */
  lemma TableMarkdownEmpty(t: Table)
    ensures TableMarkdown(t) == [] <==> t.headers == [] || t.rows == []
  {
    if t.headers != [] && t.rows != [] {
      var lines := TableLines(t);
      ConcatCovers(lines, 0);
      RowLineShape(Map(t.headers, HeaderText));
    }
  }

  /**
   * A table renders as its header line, a separator with one `---` per header
   * and one line per row, 2 + |rows| lines in all.
   */
  lemma TableLinesSpec(t: Table)
    ensures |TableLines(t)| == 2 + |t.rows|
    ensures TableLines(t)[0] == RowLine(Map(t.headers, HeaderText))
    ensures TableLines(t)[1] == RowLine(Dashes(|t.headers|))
    ensures forall k :: 2 <= k < |TableLines(t)| ==> TableLines(t)[k] == RowLine(Map(t.rows[k - 2], CellText))
  {
    var lines := TableLines(t);
    var body := Map(t.rows, BodyLine);
    assert lines[2..] == body;
    forall k | 2 <= k < |lines|
      ensures lines[k] == BodyLine(t.rows[k - 2])
    {
      assert lines[k] == body[k - 2];
    }
  }

  /** A body line is a full line with no break before its end. */
  lemma BodyLineShape(row: seq<CellValue>)
    ensures FullLine(BodyLine(row)) && Unbroken(BodyLine(row))
  {
    var cells := Map(row, CellText);
    forall j | 0 <= j < |cells|
      ensures '\n' !in cells[j]
    {
      CellTextSpec(row[j]);
    }
    RowLineShape(cells);
  }

  /** Each line of a rendered table is a full line: `| ` to ` |` and a break. */
  lemma TableLinesFull(t: Table)
    ensures forall k :: 0 <= k < |TableLines(t)| ==> FullLine(TableLines(t)[k])
  {
    var lines := TableLines(t);
    TableLinesSpec(t);
    forall k | 0 <= k < |lines|
      ensures FullLine(lines[k])
    {
      if k == 0 {
        RowLineShape(Map(t.headers, HeaderText));
      } else if k == 1 {
        RowLineShape(Dashes(|t.headers|));
      } else {
        BodyLineShape(t.rows[k - 2]);
      }
    }
  }

  /** No line of a rendered table breaks before its end, except the header line where a header holds a break. */
  lemma TableLinesUnbroken(t: Table)
    ensures forall k :: 1 <= k < |TableLines(t)| ==> Unbroken(TableLines(t)[k])
    ensures (forall k :: 0 <= k < |t.headers| ==> '\n' !in HeaderText(t.headers[k])) ==> Unbroken(TableLines(t)[0])
  {
    var lines := TableLines(t);
    TableLinesSpec(t);
    forall k | 1 <= k < |lines|
      ensures Unbroken(lines[k])
    {
      if k == 1 {
        RowLineShape(Dashes(|t.headers|));
      } else {
        BodyLineShape(t.rows[k - 2]);
      }
    }
    RowLineShape(Map(t.headers, HeaderText));
  }

  /** `table_to_markdown`: the header and separator lines, then one `+=` per row. */
  method TableToMarkdown(t: Table) returns (md: string)
    ensures md == TableMarkdown(t)
  {
    if t.headers == [] || t.rows == [] {
      return [];
    }
    var headers := Map(t.headers, HeaderText);
    md := RowLine(headers);
    md := md + RowLine(Dashes(|headers|));
    var top := [RowLine(headers), RowLine(Dashes(|headers|))];
    ConcatPair(top);
    for i := 0 to |t.rows|
      invariant md == Concat(top + Map(t.rows[..i], BodyLine))
    {
      BodyStep(top, t.rows, i);
      md := md + BodyLine(t.rows[i]);
    }
    assert t.rows[..|t.rows|] == t.rows;
  }

  lemma ConcatPair(top: seq<string>)
    requires |top| == 2
    ensures Concat(top) == top[0] + top[1]
  {
    ConcatNext([], top[0]);
    ConcatNext([top[0]], top[1]);
    assert [] + [top[0]] == [top[0]] && [top[0]] + [top[1]] == top;
  }

  /** One more body row adds its line at the end. */
  lemma BodyStep(top: seq<string>, rows: seq<seq<CellValue>>, i: nat)
    requires i < |rows|
    ensures Concat(top + Map(rows[..i + 1], BodyLine)) == Concat(top + Map(rows[..i], BodyLine)) + BodyLine(rows[i])
  {
    var line := BodyLine(rows[i]);
    assert rows[..i + 1][..i] == rows[..i];
    assert top + Map(rows[..i + 1], BodyLine) == (top + Map(rows[..i], BodyLine)) + [line];
    ConcatNext(top + Map(rows[..i], BodyLine), line);
  }

  /** `{'headers': extracted[0], 'rows': extracted[1:]}` */
  function ToTable(grid: seq<seq<CellValue>>): Table
  {
    if grid == [] then Table([], []) else Table(grid[0], grid[1..])
  }

  /** `extracted and len(extracted) > 1` */
  predicate HasBody(grid: seq<seq<CellValue>>) { |grid| > 1 }

  /** What `extract_tables_from_page` keeps of the extracted grids: those of two rows or more, the first row as headers. */
  function PageTables(grids: seq<seq<seq<CellValue>>>): seq<Table>
  {
    Map(Filter(grids, HasBody), ToTable)
  }

  /** Every kept table has rows, every grid of two rows or more is kept, and there are no more tables than grids. */
  lemma PageTablesSpec(grids: seq<seq<seq<CellValue>>>)
    ensures |PageTables(grids)| <= |grids|
    ensures forall k :: 0 <= k < |PageTables(grids)| ==> PageTables(grids)[k].rows != []
    ensures forall g :: g in grids && HasBody(g) ==> ToTable(g) in PageTables(grids)
  {
    var kept := Filter(grids, HasBody);
    FilterSpec(grids, HasBody);
    forall k | 0 <= k < |kept|
      ensures PageTables(grids)[k].rows != []
    {
      assert kept[k] in kept;
    }
    forall g | g in grids && HasBody(g)
      ensures ToTable(g) in PageTables(grids)
    {
      var k :| 0 <= k < |kept| && kept[k] == g;
      assert PageTables(grids)[k] == ToTable(g);
    }
  }

  /** `extract_tables_from_page`, over the grids extracted before any exception. */
  method ExtractTablesFromPage(grids: seq<seq<seq<CellValue>>>) returns (tables: seq<Table>)
    ensures tables == PageTables(grids)
  {
    tables := [];
    for i := 0 to |grids|
      invariant tables == Map(Filter(grids[..i], HasBody), ToTable)
    {
      FilterMapNext(grids, i, HasBody, ToTable);
      var extracted := grids[i];
      if |extracted| > 1 {
        tables := tables + [Table(extracted[0], extracted[1..])];
      }
    }
    assert grids[..|grids|] == grids;
  }

  // --------------------------------------------------------------- clean text

  /** Three line breaks in a row at the start. */
  predicate StartsTriple(s: string) { |s| >= 3 && s[0] == '\n' && s[1] == '\n' && s[2] == '\n' }

  predicate StartsPair(s: string) { |s| >= 2 && s[0] == '\n' && s[1] == '\n' }

  /** No run of three or more line breaks anywhere. */
  predicate NoTriple(s: string) { forall i :: 0 <= i < |s| ==> !StartsTriple(s[i..]) }

  /** `re.sub(r'\n{3,}', '\n\n', text)` */
  function CollapseNewlines(s: string): string
    decreases |s|
  {
    if s == [] then []
    else if StartsTriple(s) then "\n\n" + CollapseNewlines(DropNewlines(s))
    else [s[0]] + CollapseNewlines(s[1..])
  }

  /** `re.sub(r'(\w)-\n(\w)', r'\1\2', text)`: matches do not overlap, so the second word character is not reused. */
  function Dehyphen(s: string): string
    decreases |s|
  {
    if |s| >= 4 && IsWordChar(s[0]) && s[1] == '-' && s[2] == '\n' && IsWordChar(s[3]) then [s[0], s[3]] + Dehyphen(s[4..])
    else if s == [] then []
    else [s[0]] + Dehyphen(s[1..])
  }

  /** What `clean_text` returns. */
  function CleanText(s: string): string
  {
    Strip(Dehyphen(CollapseNewlines(s)))
  }

  /** The text without its line breaks and hyphens: what the clean-up never changes. */
  function Glyphs(s: string): string
    decreases |s|
  {
    if s == [] then [] else (if s[0] == '\n' || s[0] == '-' then [] else [s[0]]) + Glyphs(s[1..])
  }

  /** A character in front adds to the triples only where it starts one. */
  lemma NoTripleCons(c: char, r: string)
    ensures NoTriple([c] + r) <==> NoTriple(r) && !StartsTriple([c] + r)
  {
    var s := [c] + r;
    forall i | 0 <= i < |r|
      ensures s[i + 1..] == r[i..]
    {
    }
    assert s[0..] == s;
    if NoTriple(s) {
      forall i | 0 <= i < |r|
        ensures !StartsTriple(r[i..])
      {
        assert !StartsTriple(s[i + 1..]);
      }
    }
    if NoTriple(r) && !StartsTriple(s) {
      forall i | 0 <= i < |s|
        ensures !StartsTriple(s[i..])
      {
        if i > 0 {
          assert s[i..] == r[i - 1..];
        }
      }
    }
  }

  /** Line breaks dropped from the front are not glyphs. */
  lemma {:induction false} GlyphsDropNewlines(s: string)
    ensures Glyphs(DropNewlines(s)) == Glyphs(s)
    decreases |s|
  {
    if s != [] && s[0] == '\n' {
      GlyphsDropNewlines(s[1..]);
    }
  }

  /** Collapsing keeps the first character and whether the text opens with two line breaks. */
  lemma {:induction false} CollapseFront(s: string)
    ensures s != [] ==> CollapseNewlines(s) != [] && CollapseNewlines(s)[0] == s[0]
    ensures StartsPair(CollapseNewlines(s)) <==> StartsPair(s)
    decreases |s|
  {
    if s != [] && !StartsTriple(s) {
      CollapseFront(s[1..]);
      var r := CollapseNewlines(s);
      assert r == [s[0]] + CollapseNewlines(s[1..]);
      if |s| >= 2 {
        assert r[1] == s[1];
      } else {
        assert r == [s[0]];
      }
    }
  }

  /**
   * Collapsing leaves no run of three line breaks and changes nothing but line
   * breaks.
   */
  lemma {:induction false} CollapseSpec(s: string)
    ensures NoTriple(CollapseNewlines(s))
    ensures Glyphs(CollapseNewlines(s)) == Glyphs(s)
    decreases |s|
  {
    if s != [] {
      if StartsTriple(s) {
        var rest := DropNewlines(s);
        CollapseSpec(rest);
        CollapseFront(rest);
        GlyphsDropNewlines(s);
        var x := CollapseNewlines(rest);
        NoTripleCons('\n', x);
        NoTripleCons('\n', "\n" + x);
        assert "\n\n" + x == ['\n'] + (['\n'] + x);
      } else {
        CollapseSpec(s[1..]);
        CollapseFront(s[1..]);
        NoTripleCons(s[0], CollapseNewlines(s[1..]));
      }
    }
  }

  /** Joining hyphenated words keeps the first character and whether the text opens with two line breaks. */
  lemma DehyphenFront(s: string)
    requires s != []
    ensures Dehyphen(s) != [] && Dehyphen(s)[0] == s[0]
    ensures StartsPair(Dehyphen(s)) <==> StartsPair(s)
  {
    var r := Dehyphen(s);
    if !(|s| >= 4 && IsWordChar(s[0]) && s[1] == '-' && s[2] == '\n' && IsWordChar(s[3])) {
      assert r == [s[0]] + Dehyphen(s[1..]);
      if |s| >= 2 {
        var t := s[1..];
        if |t| >= 4 && IsWordChar(t[0]) && t[1] == '-' && t[2] == '\n' && IsWordChar(t[3]) {
          assert Dehyphen(t) == [t[0], t[3]] + Dehyphen(t[4..]);
        } else {
          assert Dehyphen(t) == [t[0]] + Dehyphen(t[1..]);
        }
        assert r[1] == s[1];
      } else {
        assert s[1..] == [];
        assert r == [s[0]];
      }
    }
  }

  /** The glyphs of a text with one more character in front. */
  lemma GlyphsCons(c: char, t: string)
    ensures Glyphs([c] + t) == (if c == '\n' || c == '-' then [] else [c]) + Glyphs(t)
  {
    assert ([c] + t)[1..] == t;
  }

  /** Joining hyphenated words changes nothing but hyphens and line breaks. */
  lemma {:induction false} DehyphenGlyphs(s: string)
    ensures Glyphs(Dehyphen(s)) == Glyphs(s)
    decreases |s|
  {
    if |s| >= 4 && IsWordChar(s[0]) && s[1] == '-' && s[2] == '\n' && IsWordChar(s[3]) {
      var t := s[4..];
      DehyphenGlyphs(t);
      var x := Dehyphen(t);
      assert s == [s[0]] + ([s[1]] + ([s[2]] + ([s[3]] + t)));
      GlyphsCons(s[3], t);
      GlyphsCons(s[2], [s[3]] + t);
      GlyphsCons(s[1], [s[2]] + ([s[3]] + t));
      GlyphsCons(s[0], [s[1]] + ([s[2]] + ([s[3]] + t)));
      assert Dehyphen(s) == [s[0]] + ([s[3]] + x);
      GlyphsCons(s[3], x);
      GlyphsCons(s[0], [s[3]] + x);
    } else if s != [] {
      DehyphenGlyphs(s[1..]);
      assert Dehyphen(s) == [s[0]] + Dehyphen(s[1..]);
      assert s == [s[0]] + s[1..];
      GlyphsCons(s[0], s[1..]);
      GlyphsCons(s[0], Dehyphen(s[1..]));
    }
  }

  /** Joining hyphenated words introduces no run of three line breaks. */
  lemma {:induction false} DehyphenNoTriple(s: string)
    requires NoTriple(s)
    ensures NoTriple(Dehyphen(s))
    decreases |s|
  {
    if |s| >= 4 && IsWordChar(s[0]) && s[1] == '-' && s[2] == '\n' && IsWordChar(s[3]) {
      assert forall i :: 0 <= i < |s[4..]| ==> s[4..][i..] == s[i + 4..];
      DehyphenNoTriple(s[4..]);
      var x := Dehyphen(s[4..]);
      NoTripleCons(s[3], x);
      NoTripleCons(s[0], [s[3]] + x);
      assert [s[0], s[3]] + x == [s[0]] + ([s[3]] + x);
    } else if s != [] {
      NoTripleCons(s[0], s[1..]);
      assert [s[0]] + s[1..] == s;
      DehyphenNoTriple(s[1..]);
      var x := Dehyphen(s[1..]);
      assert Dehyphen(s) == [s[0]] + x;
      if s[1..] != [] {
        DehyphenFront(s[1..]);
      }
      NoTripleCons(s[0], x);
    }
  }

  /** A slice of a text without triple line breaks has none either. */
  lemma NoTripleSlice(s: string, a: nat, b: nat)
    requires a <= b <= |s| && NoTriple(s)
    ensures NoTriple(s[a..b])
  {
    forall i | 0 <= i < b - a
      ensures !StartsTriple(s[a..b][i..])
    {
      assert !StartsTriple(s[a + i..]);
      if |s[a..b][i..]| >= 3 {
        assert s[a..b][i..][..3] == s[a + i..][..3];
      }
    }
  }

  /**
   * The cleaned text has no run of three line breaks and no whitespace at
   * either end, and it is the strip of a text with the same glyphs as the
   * input.
   */
  lemma CleanTextSpec(s: string)
    ensures NoTriple(CleanText(s))
    ensures CleanText(s) == [] || (!IsSpace(CleanText(s)[0]) && !IsSpace(CleanText(s)[|CleanText(s)| - 1]))
    ensures Glyphs(Dehyphen(CollapseNewlines(s))) == Glyphs(s)
  {
    var m := Dehyphen(CollapseNewlines(s));
    CollapseSpec(s);
    DehyphenNoTriple(CollapseNewlines(s));
    DehyphenGlyphs(CollapseNewlines(s));
    StripIsTrimmedMiddle(m);
    var a, b :| 0 <= a <= b <= |m| && Strip(m) == m[a..b];
    NoTripleSlice(m, a, b);
    StripEnds(m);
  }

  // -------------------------------------------------------------- product name

  /** The markers that rule a line out as the product name. */
  predicate HasMarker(line: string)
  {
    var lower := Lower(line);
    Contains(lower, "product name:") || Contains(lower, "apvma") || Contains(lower, "label name:")
  }

  /** A stripped line that reads as the product name: non-empty, unmarked, longer than five characters, all upper case. */
  predicate IsHeadline(line: string)
  {
    line != [] && !HasMarker(line) && |line| > 5 && IsUpperString(line)
  }

  predicate IsHeadlineLine(line: string) { IsHeadline(Strip(line)) }

  /** The product name the first ten lines give, if any. */
  function Headline(text: string): Option<string>
  {
    var lines := SliceTo(Split(text, '\n'), 10);
    var k := FirstSatisfying(lines, IsHeadlineLine);
    if k.Some? then Some(Strip(lines[k.value])) else None
  }

  /** The scan of the first ten lines in `extract_metadata_from_first_page`, stopping at the first headline. */
  method ScanHeadline(text: string) returns (name: Option<string>)
    ensures name == Headline(text)
  {
    var lines := Split(text, '\n');
    var first := SliceTo(lines, 10);
    name := None;
    var i := 0;
    while i < |first|
      invariant 0 <= i <= |first|
      invariant FirstSatisfying(first[..i], IsHeadlineLine) == None
    {
      FirstSatisfyingNext(first, i, IsHeadlineLine);
      var line := Strip(first[i]);
      if line != [] && !HasMarker(line) {
        if |line| > 5 && IsUpperString(line) {
          FirstSatisfyingPrefix(first, i, IsHeadlineLine);
          name := Some(line);
          return;
        }
      }
      i := i + 1;
    }
    assert first[..i] == first;
  }

  /** The product name: a `Label Name:` match, stripped, wins over the headline. */
  function ProductName(text: string, labelName: Option<string>): Option<string>
  {
    if labelName.Some? then Some(Strip(labelName.value)) else Headline(text)
  }

  /**
   * With no `Label Name:` match, the product name is the stripped form of the
   * first of the first ten lines that is a headline, and there is none when no
   * such line exists.
   */
  lemma ProductNameSpec(text: string, labelName: Option<string>)
    ensures labelName.Some? ==> ProductName(text, labelName) == Some(Strip(labelName.value))
    ensures labelName.None? && ProductName(text, labelName).Some? ==>
      exists k :: 0 <= k < 10 && k < |Split(text, '\n')| &&
        ProductName(text, labelName) == Some(Strip(Split(text, '\n')[k])) &&
        IsHeadline(Strip(Split(text, '\n')[k])) &&
        forall j :: 0 <= j < k ==> !IsHeadline(Strip(Split(text, '\n')[j]))
    ensures labelName.None? && ProductName(text, labelName).None? ==>
      forall k :: 0 <= k < 10 && k < |Split(text, '\n')| ==> !IsHeadline(Strip(Split(text, '\n')[k]))
  {
    if labelName.None? {
      var lines := Split(text, '\n');
      var first := SliceTo(lines, 10);
      assert forall k :: 0 <= k < |first| ==> first[k] == lines[k];
      var h := FirstSatisfying(first, IsHeadlineLine);
      if h.Some? {
        var k := h.value;
        assert ProductName(text, labelName) == Some(Strip(lines[k]));
        forall j | 0 <= j < k
          ensures !IsHeadline(Strip(lines[j]))
        {
          assert !IsHeadlineLine(first[j]);
        }
        assert IsHeadlineLine(first[k]);
      } else {
        forall j | 0 <= j < 10 && j < |lines|
          ensures !IsHeadline(Strip(lines[j]))
        {
          assert !IsHeadlineLine(first[j]);
        }
      }
    }
  }

  // ----------------------------------------------------------------- metadata

  /** The searches `extract_metadata_from_first_page` makes, each giving the first match's group. */
  datatype LocalPatterns = LocalPatterns(
    labelName: string -> Option<string>,
    apvma: string -> Option<string>,
    active: string -> Option<string>,
    group: string -> Option<string>,
    signal: string -> Option<string>)

  /** `s.split('\n')[0]` */
  function FirstLine(s: string): string
  {
    Split(s, '\n')[0]
  }

  function MapOption(o: Option<string>, f: string -> string): Option<string>
  {
    if o.Some? then Some(f(o.value)) else None
  }

  /** The active constituent: the first line of the stripped match. */
  function ActiveLine(a: string): string { FirstLine(Strip(a)) }

  /** The five searches of `extract_metadata_from_first_page`, in order. */
  function LocalMatches(name: Option<string>, apvma: Option<string>, active: Option<string>,
                        group: Option<string>, signal: Option<string>): seq<LabelParser.Match>
  {
    [LabelParser.Match("product_name", name), LabelParser.Match("apvma_number", apvma),
     LabelParser.Match("active_constituent", active), LabelParser.Match("mode_of_action_group", group),
     LabelParser.Match("signal_heading", signal)]
  }

  /** The metadata dict from its five optional fields. */
  function LocalFields(name: Option<string>, apvma: Option<string>, active: Option<string>,
                       group: Option<string>, signal: Option<string>): LabelParser.Dict
  {
    LabelParser.PutFounds([], LocalMatches(name, apvma, active, group, signal))
  }

  /** What `extract_metadata_from_first_page` returns. */
  function LocalMetadata(lp: LocalPatterns, text: string): LabelParser.Dict
  {
    LocalFields(ProductName(text, lp.labelName(text)), MapOption(lp.apvma(text), Strip),
      MapOption(lp.active(text), ActiveLine), lp.group(text), lp.signal(text))
  }

  /** Each found field appears once, in the order of the searches, and a missing one not at all. */
  lemma LocalFieldsSpec(name: Option<string>, apvma: Option<string>, active: Option<string>,
                        group: Option<string>, signal: Option<string>)
    ensures LocalFields(name, apvma, active, group, signal) ==
      LabelParser.FoundAll(LocalMatches(name, apvma, active, group, signal))
    ensures NoDuplicates(LabelParser.Keys(LocalFields(name, apvma, active, group, signal)))
  {
    var ms := LocalMatches(name, apvma, active, group, signal);
    var ks := LabelParser.MatchKeys(ms);
    forall i, j | 0 <= i < j < |ks|
      ensures ks[i] != ks[j]
    {
      assert ks[i] == ms[i].key && ks[j] == ms[j].key;
      assert ms[i].key[1] != ms[j].key[1];
    }
    LabelParser.PutFoundsFresh(ms);
  }

  /** The metadata hold the found fields in the order of the searches, the product name first, and repeat no key. */
  lemma LocalMetadataSpec(lp: LocalPatterns, text: string)
    ensures LocalMetadata(lp, text) == LabelParser.FoundAll(LocalMatches(ProductName(text, lp.labelName(text)),
      MapOption(lp.apvma(text), Strip), MapOption(lp.active(text), ActiveLine), lp.group(text), lp.signal(text)))
    ensures NoDuplicates(LabelParser.Keys(LocalMetadata(lp, text)))
  {
    LocalFieldsSpec(ProductName(text, lp.labelName(text)), MapOption(lp.apvma(text), Strip),
      MapOption(lp.active(text), ActiveLine), lp.group(text), lp.signal(text));
  }

  // -------------------------------------------------------------- frontmatter

  /** One metadata line: the value in double quotes, its quotes escaped. */
  function MetadataLine(e: LabelParser.Entry): string
  {
    LabelParser.QuotedLine(e.key, EscapeQuotes(LabelParser.ValueText(e.value))) + "\n"
  }

  function MetadataLines(d: LabelParser.Dict): string
    decreases |d|
  {
    if d == [] then [] else MetadataLines(d[..|d| - 1]) + MetadataLine(d[|d| - 1])
  }

  /** The product number line: the stem without `ELBL`, in double quotes. */
  function ProductNumberLine(stem: string): string
  {
    "product_number: \"" + ReplaceAll(stem, "ELBL", "") + "\"\n"
  }

  /** The fixed head of the frontmatter. */
  function FrontmatterHead(stem: string, fileName: string, pages: nat): string
  {
    "---\n" + ProductNumberLine(stem) + ("source_file: \"" + fileName + "\"\n") + ("pages: " + NatToString(pages) + "\n")
  }

  /** The frontmatter `parse_pdf_local` writes. */
  function LocalFrontmatter(stem: string, fileName: string, pages: nat, metadata: LabelParser.Dict): string
  {
    FrontmatterHead(stem, fileName, pages) + MetadataLines(metadata) + "---\n\n"
  }

  /** The frontmatter opens with the fence and the product number line. */
  lemma FrontmatterOpens(stem: string, fileName: string, pages: nat, metadata: LabelParser.Dict)
    ensures StartsWith(LocalFrontmatter(stem, fileName, pages, metadata), "---\n" + ProductNumberLine(stem))
  {
    var p := "---\n" + ProductNumberLine(stem);
    var a := "source_file: \"" + fileName + "\"\n";
    var b := "pages: " + NatToString(pages) + "\n";
    assert p[..|p|] == p;
    StartsWithExtend(p, p, a);
    StartsWithExtend(p + a, p, b);
    StartsWithExtend(p + a + b, p, MetadataLines(metadata));
    StartsWithExtend(p + a + b + MetadataLines(metadata), p, "---\n\n");
  }

  /** For a label file's stem `<digits>ELBL` the product number is the digits. */
  lemma LocalProductNumber(digits: string)
    requires forall i :: 0 <= i < |digits| ==> IsDigit(digits[i])
    ensures ProductNumberLine(digits + "ELBL") == "product_number: \"" + digits + "\"\n"
  {
    assert forall i :: 0 <= i < |digits| ==> digits[i] != 'E';
    ReplaceSkipsPrefix(digits, "ELBL", "ELBL", "");
    ReplaceAtStart("ELBL", [], "");
    assert "ELBL" + [] == "ELBL";
  }

  /** Each metadata line quotes its value with no quote left bare. */
  lemma MetadataLineSpec(e: LabelParser.Entry)
    ensures exists v ::
      (MetadataLine(e) == e.key + ": \"" + v + "\"\n" && QuotesEscaped(v) &&
       RemoveChar(v, '\\') == RemoveChar(LabelParser.ValueText(e.value), '\\'))
  {
    var raw := LabelParser.ValueText(e.value);
    var v := EscapeQuotes(raw);
    EscapeQuotesSpec(raw);
    EscapeKeepsText(raw);
    assert MetadataLine(e) == e.key + ": \"" + v + "\"\n";
  }

  /** The frontmatter, built by `+=` as `parse_pdf_local` does. */
  method BuildLocalFrontmatter(stem: string, fileName: string, pages: nat, metadata: LabelParser.Dict)
    returns (frontmatter: string)
    ensures frontmatter == LocalFrontmatter(stem, fileName, pages, metadata)
  {
    var head := FrontmatterHead(stem, fileName, pages);
    frontmatter := head;
    for i := 0 to |metadata|
      invariant frontmatter == head + MetadataLines(metadata[..i])
    {
      assert metadata[..i + 1][..i] == metadata[..i];
      assert MetadataLines(metadata[..i + 1]) == MetadataLines(metadata[..i]) + MetadataLine(metadata[i]);
      AppendAssoc(head, MetadataLines(metadata[..i]), MetadataLine(metadata[i]));
      frontmatter := frontmatter + MetadataLine(metadata[i]);
    }
    assert metadata[..|metadata|] == metadata;
    frontmatter := frontmatter + "---\n\n";
  }

  // ------------------------------------------------------------------ one file

  /** One page as the PDF library gives it: its text and the table grids extracted from it. */
  datatype Page = Page(text: string, grids: seq<seq<seq<CellValue>>>)

  /** Opening the PDF: it raised with a message, or it gave the pages. */
  datatype Opened = OpenFailed(message: string) | Opened(pages: seq<Page>)

  /** The marker ahead of page `n + 1`, for every page but the first. */
  function PageMarker(n: nat): string
  {
    "\n\n---\n## Page " + NatToString(n + 1) + "\n\n"
  }

  /** `"".join(full_text_parts)`: the pages' texts, each page after the first preceded by its marker. */
  function PagesText(pages: seq<Page>): string
    decreases |pages|
  {
    if pages == [] then []
    else
      var n := |pages| - 1;
      PagesText(pages[..n]) + (if n > 0 then PageMarker(n) else []) + pages[n].text
  }

  /** The tables of all pages, in page order. */
  function AllTables(pages: seq<Page>): seq<Table>
    decreases |pages|
  {
    if pages == [] then [] else AllTables(pages[..|pages| - 1]) + PageTables(pages[|pages| - 1].grids)
  }

  /** The heading of table `i + 1` in the tables section. */
  function TableHeading(i: nat): string
  {
    "### Table " + NatToString(i + 1) + "\n\n"
  }

  /** The numbered entries of the tables section. */
  function TableEntries(tables: seq<Table>): string
    decreases |tables|
  {
    if tables == [] then []
    else
      var n := |tables| - 1;
      TableEntries(tables[..n]) + (TableHeading(n) + TableMarkdown(tables[n]) + "\n")
  }

  /** The tables section: nothing when no table was found. */
  function TablesSection(tables: seq<Table>): string
  {
    if tables == [] then [] else "\n\n## Extracted Tables\n\n" + TableEntries(tables)
  }

  /** The page loop of `parse_pdf_local`: text parts and tables gathered page by page. */
  method ReadPages(pages: seq<Page>) returns (text: string, tables: seq<Table>)
    ensures text == PagesText(pages) && tables == AllTables(pages)
  {
    text, tables := [], [];
    for i := 0 to |pages|
      invariant text == PagesText(pages[..i]) && tables == AllTables(pages[..i])
    {
      assert pages[..i + 1][..i] == pages[..i];
      var found := ExtractTablesFromPage(pages[i].grids);
      if found != [] {
        tables := tables + found;
      }
      if i > 0 {
        text := text + PageMarker(i);
      }
      text := text + pages[i].text;
    }
    assert pages[..|pages|] == pages;
  }

  /** The tables section, built by `+=` table by table. */
  method BuildTablesSection(tables: seq<Table>) returns (section: string)
    ensures section == TablesSection(tables)
  {
    if tables == [] {
      return [];
    }
    section := "\n\n## Extracted Tables\n\n";
    for i := 0 to |tables|
      invariant section == "\n\n## Extracted Tables\n\n" + TableEntries(tables[..i])
    {
      assert tables[..i + 1][..i] == tables[..i];
      ghost var before := section;
      section := section + TableHeading(i);
      var md := TableToMarkdown(tables[i]);
      section := section + md;
      section := section + "\n";
      AppendAssoc(before, TableHeading(i), md);
      AppendAssoc(before, TableHeading(i) + md, "\n");
      AppendAssoc("\n\n## Extracted Tables\n\n", TableEntries(tables[..i]), TableHeading(i) + md + "\n");
    }
    assert tables[..|tables|] == tables;
  }

  /** A parse's result and the output file after it. */
  type Outcome = (LabelParser.ParseResult, LabelParser.Output)

  /**
   * What `parse_pdf_local` returns, and the output file after it: a skip
   * happens exactly for an existing output without `force`, and a failure
   * reports why and leaves the output file as it was.
   */
  function ParsePdfLocal(lp: LocalPatterns, stem: string, fileName: string, output: LabelParser.Output, force: bool,
                         pdf: Opened): (o: Outcome)
    ensures o.0.skipped <==> output.Present? && !force
    ensures !o.0.success ==> o.1 == output && o.0.error != None
  {
    if output.Present? && !force then (LabelParser.ParseResult(true, true, None, 0, []), output)
    else match pdf
      case OpenFailed(message) => (LabelParser.ParseResult(false, false, Some(message), 0, []), output)
      case Opened(pages) =>
        var text := CleanText(PagesText(pages));
        var metadata := LocalMetadata(lp, text);
        (LabelParser.ParseResult(true, false, None, |pages|, metadata),
         LabelParser.Present(LocalFrontmatter(stem, fileName, |pages|, metadata) + text + TablesSection(AllTables(pages))))
  }

  /**
   * An existing output without `force` is skipped whatever the PDF holds; a
   * failure keeps the message and, unlike the cloud parser, leaves the output
   * as it was; a success counts the pages and writes the frontmatter, the
   * cleaned text and the tables section.
   */
  lemma ParsePdfLocalSpec(lp: LocalPatterns, stem: string, fileName: string, output: LabelParser.Output, force: bool,
                          pdf: Opened, other: Opened)
    ensures var (r, after) := ParsePdfLocal(lp, stem, fileName, output, force, pdf);
      (r.success <==> r.error == None) && (r.skipped <==> output.Present? && !force) && (r.skipped ==> r.success)
    ensures output.Present? && !force ==>
      ParsePdfLocal(lp, stem, fileName, output, force, pdf) == ParsePdfLocal(lp, stem, fileName, output, force, other)
    ensures var (r, after) := ParsePdfLocal(lp, stem, fileName, output, force, pdf);
      !r.success ==> after == output && pdf.OpenFailed? && r.error == Some(pdf.message)
    ensures var (r, after) := ParsePdfLocal(lp, stem, fileName, output, force, pdf);
      r.success && !r.skipped ==>
        (pdf.Opened? && r.pages == |pdf.pages| &&
         after == LabelParser.Present(LocalFrontmatter(stem, fileName, r.pages, r.metadata) +
           CleanText(PagesText(pdf.pages)) + TablesSection(AllTables(pdf.pages))))
  {
  }

  // ------------------------------------------------------------- the directory

  /** What `parse_all` records for a parsed file. */
  datatype ParsedEntry = ParsedEntry(pages: nat, output: string, metadata: LabelParser.Dict)

  datatype LocalStore = LocalStore(parsed: map<string, ParsedEntry>, failed: seq<string>)

  /** The store after one file: a success records its entry; a failure adds the stem to `failed` if it is absent. */
  function LocalStoreAfter(store: LocalStore, stem: string, r: LabelParser.ParseResult): LocalStore
  {
    if r.skipped then store
    else if r.success then store.(parsed := store.parsed[stem := ParsedEntry(r.pages, stem + ".md", r.metadata)])
    else store.(failed := AppendAbsent(store.failed, stem))
  }

  type Tallied = (LabelParser.ParseStats, LocalStore)

  /** The stats and the store after `parse_all` has seen `stems` with these results. */
  function LocalTally(stems: seq<string>, results: seq<LabelParser.ParseResult>,
                      store: LocalStore): Tallied
    requires |stems| == |results|
    decreases |stems|
  {
    if stems == [] then (LabelParser.ParseStats(0, 0, 0), store)
    else
      var n := |stems| - 1;
      var (stats, s) := LocalTally(stems[..n], results[..n], store);
      (LabelParser.StatsAfter(stats, results[n]), LocalStoreAfter(s, stems[n], results[n]))
  }

  /**
   * `failed` never gains a duplicate and never loses a stem, even one that
   * later parses; a failed stem is appended to it when absent and nothing
   * else changes; a success records the pages, output name and metadata
   * under its stem, overwriting only that entry.
   */
  lemma LocalStoreAfterSpec(store: LocalStore, stem: string, r: LabelParser.ParseResult)
    requires NoDuplicates(store.failed)
    ensures var after := LocalStoreAfter(store, stem, r);
      NoDuplicates(after.failed) && forall x :: x in store.failed ==> x in after.failed
    ensures var after := LocalStoreAfter(store, stem, r);
      !r.skipped && !r.success ==>
        (stem in after.failed && after.parsed == store.parsed &&
         after.failed == (if stem in store.failed then store.failed else store.failed + [stem]))
    ensures var after := LocalStoreAfter(store, stem, r);
      !r.skipped && r.success ==>
        (after.failed == store.failed && stem in after.parsed && after.parsed[stem].output == stem + ".md" &&
         after.parsed[stem].pages == r.pages && after.parsed[stem].metadata == r.metadata &&
         after.parsed.Keys == store.parsed.Keys + {stem} &&
         forall x :: x in store.parsed && x != stem ==> after.parsed[x] == store.parsed[x])
    ensures r.skipped ==> LocalStoreAfter(store, stem, r) == store
  {
    AppendAbsentSpec(store.failed, stem);
  }

  /** Every file is counted once, and `failed` stays free of duplicates. */
  lemma {:induction false} LocalTallyCounts(stems: seq<string>, results: seq<LabelParser.ParseResult>, store: LocalStore)
    requires |stems| == |results|
    ensures var (stats, s) := LocalTally(stems, results, store); stats.parsed + stats.skipped + stats.failed == |stems|
    ensures NoDuplicates(store.failed) ==> NoDuplicates(LocalTally(stems, results, store).1.failed)
    decreases |stems|
  {
    if stems != [] {
      var n := |stems| - 1;
      LocalTallyCounts(stems[..n], results[..n], store);
      var (stats, s) := LocalTally(stems[..n], results[..n], store);
      if NoDuplicates(store.failed) {
        LocalStoreAfterSpec(s, stems[n], results[n]);
      }
    }
  }

  /** `parse_all` over the stems of the sorted PDFs and what `parse_pdf_local` returned for each. */
  method ParseAll(stems: seq<string>, results: seq<LabelParser.ParseResult>, store0: LocalStore)
    returns (stats: LabelParser.ParseStats, store: LocalStore)
    requires |stems| == |results|
    ensures (stats, store) == LocalTally(stems, results, store0)
  {
    stats, store := LabelParser.ParseStats(0, 0, 0), store0;
    for i := 0 to |stems|
      invariant (stats, store) == LocalTally(stems[..i], results[..i], store0)
    {
      assert stems[..i + 1][..i] == stems[..i] && results[..i + 1][..i] == results[..i];
      var r := results[i];
      if r.skipped {
        stats := stats.(skipped := stats.skipped + 1);
      } else if r.success {
        stats := stats.(parsed := stats.parsed + 1);
        store := store.(parsed := store.parsed[stems[i] := ParsedEntry(r.pages, stems[i] + ".md", r.metadata)]);
      } else {
        stats := stats.(failed := stats.failed + 1);
        if stems[i] !in store.failed {
          store := store.(failed := store.failed + [stems[i]]);
        }
      }
    }
    assert stems[..|stems|] == stems && results[..|results|] == results;
  }
}

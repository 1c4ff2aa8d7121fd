// The legacy-Markdown converter (packages/ingestion/scripts/markdown_to_graph.py):
// the state-list normaliser, the Markdown table reader, the unit part of the
// rate reader and `process_markdown` over the file's text.

module MarkdownToGraph {
  import opened Base
  import opened Strings
  import Sorting
  import opened Lines

  // --------------------------------------------------------------- states

  /** The eight state and territory codes, in the order "all states" lists them. */
  const AllStates: seq<string> := ["NSW", "VIC", "QLD", "SA", "WA", "TAS", "NT", "ACT"]

  /** `STATE_CODES` */
  const StateCodes: map<string, seq<string>> := map[
    "all states" := AllStates,
    "nsw" := ["NSW"],
    "vic" := ["VIC"],
    "qld" := ["QLD"],
    "sa" := ["SA"],
    "wa" := ["WA"],
    "tas" := ["TAS"],
    "nt" := ["NT"],
    "act" := ["ACT"],
    "western australia" := ["WA"],
    "south australia" := ["SA"],
    "queensland" := ["QLD"],
    "victoria" := ["VIC"],
    "new south wales" := ["NSW"]]

  /** Every code `STATE_CODES` maps to is one of the eight, and no key ends in " only". */
  lemma StateCodesShape()
    ensures forall k :: k in StateCodes ==> forall c :: c in StateCodes[k] ==> c in AllStates
    ensures forall k :: k in StateCodes ==> !EndsWith(k, " only")
  {
    assert StateCodes.Keys == {"all states", "nsw", "vic", "qld", "sa", "wa", "tas", "nt", "act",
      "western australia", "south australia", "queensland", "victoria", "new south wales"};
  }

  predicate WordAt(s: string, i: int) { 0 <= i < |s| && IsWordChar(s[i]) }

  /**
   * The length of the separator `re.split` finds at `i`: one for `,` or `/`,
   * three for a whole word `and` (`\band\b`) when `words` is set, else none.
   */
  function SeparatorAt(s: string, i: nat, words: bool): (n: nat)
    requires i < |s|
    ensures i + n <= |s|
  {
    if s[i] == ',' || s[i] == '/' then 1
    else if words && i + 3 <= |s| && s[i..i + 3] == "and" && !WordAt(s, i - 1) && !WordAt(s, i + 3) then 3
    else 0
  }

  /**
   * `re.split` from position `at`, the current piece having begun at `start`:
   * the text between the separators, scanning left to right.
   */
  function PiecesFrom(s: string, start: nat, at: nat, words: bool): (r: seq<string>)
    requires start <= at <= |s|
    ensures 0 < |r|
    decreases |s| - at
  {
    if at == |s| then [s[start..]]
    else
      var n := SeparatorAt(s, at, words);
      if n == 0 then PiecesFrom(s, start, at + 1, words)
      else [s[start..at]] + PiecesFrom(s, at + n, at + n, words)
  }

  /** `re.split(r"[,/]|\band\b", s)` */
  function StatePieces(s: string): seq<string>
  {
    PiecesFrom(s, 0, 0, true)
  }

  /** `re.split(r",|/", s)` */
  function WeedPieces(s: string): seq<string>
  {
    PiecesFrom(s, 0, 0, false)
  }

  /** The codes one stripped piece of a state list stands for: a known name, or a known name and " only". */
  function PieceCodes(piece: string): seq<string>
  {
    if piece in StateCodes then StateCodes[piece]
    else if EndsWith(piece, " only") && piece[..|piece| - 5] in StateCodes then StateCodes[piece[..|piece| - 5]]
    else []
  }

  /** "<x> only" stands for what "<x>" does, and every code is one of the eight. */
  lemma PieceCodesSpec(x: string)
    ensures x in StateCodes ==> PieceCodes(x + " only") == StateCodes[x]
    ensures x !in StateCodes && !(EndsWith(x, " only") && x[..|x| - 5] in StateCodes) ==> PieceCodes(x) == []
    ensures forall c :: c in PieceCodes(x) ==> c in AllStates
  {
    StateCodesShape();
    var y := x + " only";
    assert y[..|y| - 5] == x;
    assert EndsWith(y, " only");
  }

  /** The codes of all the pieces, in order: `tokens` after the first loop. */
  function Tokens(pieces: seq<string>): seq<string>
    decreases |pieces|
  {
    if pieces == [] then []
    else Tokens(pieces[..|pieces| - 1]) + PieceCodes(Strip(pieces[|pieces| - 1]))
  }

  lemma {:induction false} TokensAreStates(pieces: seq<string>)
    ensures forall c :: c in Tokens(pieces) ==> c in AllStates
    decreases |pieces|
  {
    if pieces != [] {
      TokensAreStates(pieces[..|pieces| - 1]);
      PieceCodesSpec(Strip(pieces[|pieces| - 1]));
    }
  }

  /** What `normalise_states` returns. */
  function NormalisedStates(raw: string): seq<string>
  {
    Dedup(Tokens(StatePieces(Lower(raw))))
  }

  /**
   * The result has no duplicates, holds only the eight codes, and lists the
   * codes in the order they were first named.
   */
  lemma NormalisedStatesSpec(raw: string)
    ensures NoDuplicates(NormalisedStates(raw))
    ensures forall c :: c in NormalisedStates(raw) ==> c in AllStates
    ensures var ts := Tokens(StatePieces(Lower(raw))); var r := NormalisedStates(raw);
      forall i, j :: 0 <= i < j < |r| ==> FirstIndex(ts, r[i]) < FirstIndex(ts, r[j])
  {
    TokensAreStates(StatePieces(Lower(raw)));
    DedupFirstOrder(Tokens(StatePieces(Lower(raw))));
  }

  /** "all states" names all eight codes, in order. */
  lemma AllStatesExpands()
    ensures PieceCodes("all states") == AllStates
    ensures NoDuplicates(AllStates) && Dedup(AllStates) == AllStates
  {
    DedupOfDistinct(AllStates);
  }

  /** The first loop of `normalise_states`: the codes of each piece, in order. */
  method CollectTokens(pieces: seq<string>) returns (tokens: seq<string>)
    ensures tokens == Tokens(pieces)
  {
    tokens := [];
    for i := 0 to |pieces|
      invariant tokens == Tokens(pieces[..i])
    {
      assert pieces[..i + 1][..i] == pieces[..i];
      tokens := tokens + PieceCodes(Strip(pieces[i]));
    }
    assert pieces[..|pieces|] == pieces;
  }

  /** `normalise_states`: split, look up each piece, then drop repeated codes. */
  method NormaliseStates(raw: string) returns (unique: seq<string>)
    ensures unique == NormalisedStates(raw)
  {
    var tokens := CollectTokens(StatePieces(Lower(raw)));
    unique := DropRepeats(tokens);
  }

  /** The second loop of `normalise_states`: a code is kept unless it was already seen. */
  method DropRepeats(tokens: seq<string>) returns (unique: seq<string>)
    ensures unique == Dedup(tokens)
  {
    unique := [];
    for i := 0 to |tokens|
      invariant unique == Dedup(tokens[..i])
    {
      assert tokens[..i + 1][..i] == tokens[..i];
      if tokens[i] !in unique {
        unique := unique + [tokens[i]];
      }
    }
    assert tokens[..|tokens|] == tokens;
  }

  // ---------------------------------------------------------------- tables

  /** `s.strip("|")`: every pipe removed from both ends. */
  function StripPipes(s: string): (r: string)
    ensures r == [] || (r[0] != '|' && r[|r| - 1] != '|')
    decreases |s|
  {
    if s == [] then []
    else if s[0] == '|' then StripPipes(s[1..])
    else if s[|s| - 1] == '|' then StripPipes(s[..|s| - 1])
    else s
  }

  /** `[p.strip() for p in ps]` */
  function StripEach(ps: seq<string>): (r: seq<string>)
    ensures |r| == |ps| && forall k :: 0 <= k < |ps| ==> r[k] == Strip(ps[k])
    decreases |ps|
  {
    if ps == [] then [] else [Strip(ps[0])] + StripEach(ps[1..])
  }

  /** The cells of one table line: outer pipes removed, split at each pipe, each cell stripped. */
  function Cells(line: string): seq<string>
  {
    StripEach(Split(StripPipes(Strip(line)), '|'))
  }

  /** A line the table readers accept: past its leading whitespace it starts with a pipe. */
  predicate IsTableLine(line: string)
    decreases |line|
  {
    line != [] && (line[0] == '|' || (IsSpace(line[0]) && IsTableLine(line[1..])))
  }

  lemma {:induction false} TableLineTrimmed(line: string)
    ensures IsTableLine(line) <==> TrimStart(line) != [] && TrimStart(line)[0] == '|'
    decreases |line|
  {
    if line != [] && IsSpace(line[0]) {
      TableLineTrimmed(line[1..]);
    }
  }

  /** The test is Python's `line.strip().startswith("|")`. */
  lemma TableLineStripped(line: string)
    ensures IsTableLine(line) <==> StartsWith(Strip(line), "|")
  {
    TableLineTrimmed(line);
    var t := TrimStart(line);
    var r := TrimEnd(t);
    assert Strip(line) == r;
    assert StartsWith(r, "|") <==> r != [] && r[0] == '|' by {
      if r != [] {
        assert r[..1] == [r[0]];
      }
    }
    if r != [] {
      assert r[0] == t[0];
    }
    if t != [] && t[0] == '|' {
      assert !IsSpace(t[0]);
      assert r != [];
    }
  }

  /** The lines at the head of `lines` for which `isRow` holds, each parsed by `parse`. */
  function RowsWhile(lines: seq<string>, isRow: string -> bool, parse: string -> seq<string>): seq<seq<string>>
    decreases |lines|
  {
    if lines == [] || !isRow(lines[0]) then [] else [parse(lines[0])] + RowsWhile(lines[1..], isRow, parse)
  }

  /** What `parse_table` returns: the cells of each line up to the first that is not a table line. */
  function TableRows(lines: seq<string>): seq<seq<string>>
  {
    RowsWhile(lines, IsTableLine, Cells)
  }

  /**
   * The rows are the parsed lines of a prefix of the input: every line of it
   * passes, and the line after it, if any, does not.
   */
  lemma {:induction false} RowsWhilePrefix(lines: seq<string>, isRow: string -> bool, parse: string -> seq<string>)
    ensures var r := RowsWhile(lines, isRow, parse); |r| <= |lines|
    ensures var r := RowsWhile(lines, isRow, parse); forall k :: 0 <= k < |r| ==> isRow(lines[k]) && r[k] == parse(lines[k])
    ensures var r := RowsWhile(lines, isRow, parse); |r| < |lines| ==> !isRow(lines[|r|])
    decreases |lines|
  {
    if lines != [] && isRow(lines[0]) {
      RowsWhilePrefix(lines[1..], isRow, parse);
      var r := RowsWhile(lines, isRow, parse);
      var rest := RowsWhile(lines[1..], isRow, parse);
      assert r == [parse(lines[0])] + rest;
      forall k | 0 <= k < |r|
        ensures isRow(lines[k]) && r[k] == parse(lines[k])
      {
        if k > 0 {
          assert r[k] == rest[k - 1] && lines[k] == lines[1..][k - 1];
        }
      }
      if |r| < |lines| {
        assert lines[|r|] == lines[1..][|rest|];
      }
    }
  }

  /** `parse_table` reads the table lines at the head of its input and stops at the first other line. */
  lemma TableRowsPrefix(lines: seq<string>)
    ensures var r := TableRows(lines); |r| <= |lines|
    ensures var r := TableRows(lines); forall k :: 0 <= k < |r| ==> IsTableLine(lines[k]) && r[k] == Cells(lines[k])
    ensures var r := TableRows(lines); |r| < |lines| ==> !IsTableLine(lines[|r|])
  {
    RowsWhilePrefix(lines, IsTableLine, Cells);
  }

  lemma RowsWhileStep(lines: seq<string>, i: nat, isRow: string -> bool, parse: string -> seq<string>)
    requires i < |lines|
    ensures RowsWhile(lines[i..], isRow, parse) ==
      if isRow(lines[i]) then [parse(lines[i])] + RowsWhile(lines[i + 1..], isRow, parse) else []
  {
    assert lines[i..][0] == lines[i] && lines[i..][1..] == lines[i + 1..];
  }

  /** `parse_table`: reads rows until the first line that is not a table line. */
  method ParseTable(lines: seq<string>) returns (rows: seq<seq<string>>)
    ensures rows == TableRows(lines)
  {
    rows := [];
    var i := 0;
    while i < |lines|
      invariant 0 <= i <= |lines|
      invariant TableRows(lines) == rows + RowsWhile(lines[i..], IsTableLine, Cells)
    {
      var line := lines[i];
      RowsWhileStep(lines, i, IsTableLine, Cells);
      if !IsTableLine(line) {
        break;
      }
      assert RowsWhile(lines[i..], IsTableLine, Cells) == [Cells(line)] + RowsWhile(lines[i + 1..], IsTableLine, Cells);
      AppendAssoc(rows, [Cells(line)], RowsWhile(lines[i + 1..], IsTableLine, Cells));
      rows := rows + [Cells(line)];
      i := i + 1;
    }
  }

  // -------------------------------------------------------------- the rate

  /** `c` matches the letter `lower` under `re.IGNORECASE`. */
  predicate Letter(c: char, lower: char) { LowerChar(c) == lower }

  /** Where the unit word `(m?L|g|kg)` that starts at `i` ends, or -1. */
  function UnitWordEnd(s: string, i: nat): (r: int)
    requires i <= |s|
    ensures r == -1 || i < r <= |s|
  {
    if i + 1 < |s| && Letter(s[i], 'm') && Letter(s[i + 1], 'l') then i + 2
    else if i < |s| && (Letter(s[i], 'l') || Letter(s[i], 'g')) then i + 1
    else if i + 1 < |s| && Letter(s[i], 'k') && Letter(s[i + 1], 'g') then i + 2
    else -1
  }

  /** `\s*` from `i`: the first position at or after `i` that is not whitespace. */
  function SkipSpace(s: string, i: nat): (r: nat)
    requires i <= |s|
    ensures i <= r <= |s| && (r == |s| || !IsSpace(s[r]))
    ensures forall k :: i <= k < r ==> IsSpace(s[k])
    decreases |s| - i
  {
    if i < |s| && IsSpace(s[i]) then SkipSpace(s, i + 1) else i
  }

  /** Where a match of `(m?L|g|kg)\s*\/\s*ha` that starts at `i` ends, or -1. */
  function UnitMatchEnd(s: string, i: nat): (r: int)
    requires i <= |s|
    ensures r == -1 || i + 2 <= r <= |s|
  {
    var w := UnitWordEnd(s, i);
    if w == -1 then -1
    else
      var k := SkipSpace(s, w);
      if k < |s| && s[k] == '/' then
        var h := SkipSpace(s, k + 1);
        if h + 2 <= |s| && Letter(s[h], 'h') && Letter(s[h + 1], 'a') then h + 2 else -1
      else -1
  }

  /** `re.search` for the unit from `from`: where the leftmost match starts, or -1. */
  function UnitSearch(s: string, from: nat): (r: int)
    requires from <= |s|
    ensures r == -1 || (from <= r <= |s| && UnitMatchEnd(s, r) != -1)
    ensures forall k :: from <= k <= |s| && (r == -1 || k < r) ==> UnitMatchEnd(s, k) == -1
    decreases |s| - from
  {
    if UnitMatchEnd(s, from) != -1 then from
    else if from == |s| then -1
    else UnitSearch(s, from + 1)
  }

  /** The unit half of `extract_rate`: the matched unit without spaces, or else the stripped text. */
  function RateUnit(rate: string): string
  {
    var i := UnitSearch(rate, 0);
    if i == -1 then Strip(rate) else RemoveChar(rate[i..UnitMatchEnd(rate, i)], ' ')
  }

  lemma {:induction false} RemoveCharAppend(a: string, b: string, c: char)
    ensures RemoveChar(a + b, c) == RemoveChar(a, c) + RemoveChar(b, c)
    decreases |a|
  {
    if a == [] {
      assert a + b == b;
    } else {
      assert (a + b)[0] == a[0] && (a + b)[1..] == a[1..] + b;
      RemoveCharAppend(a[1..], b, c);
    }
  }

  /** A unit match ends in the letters "ha", in either case. */
  lemma MatchEndsInHa(s: string, i: nat)
    requires i <= |s| && UnitMatchEnd(s, i) != -1
    ensures var e := UnitMatchEnd(s, i); Letter(s[e - 2], 'h') && Letter(s[e - 1], 'a')
  {
  }

  /** Removing spaces keeps the last two characters when neither is a space. */
  lemma RemoveSpaceKeepsEnd(m: string)
    requires |m| >= 2 && m[|m| - 2] != ' ' && m[|m| - 1] != ' '
    ensures var u := RemoveChar(m, ' '); |u| >= 2 && u[|u| - 2] == m[|m| - 2] && u[|u| - 1] == m[|m| - 1]
  {
    var tail := m[|m| - 2..];
    assert m == m[..|m| - 2] + tail;
    RemoveCharAppend(m[..|m| - 2], tail, ' ');
    assert RemoveChar(tail, ' ') == tail;
  }

  /**
   * When a unit is found the result has no spaces and ends in "ha" (in either
   * case); when none is, it is the stripped rate text.
   */
  lemma RateUnitSpec(rate: string)
    ensures UnitSearch(rate, 0) != -1 ==> var u := RateUnit(rate);
      ' ' !in u && |u| >= 2 && Letter(u[|u| - 2], 'h') && Letter(u[|u| - 1], 'a')
    ensures UnitSearch(rate, 0) == -1 ==> RateUnit(rate) == Strip(rate)
  {
    var i := UnitSearch(rate, 0);
    if i != -1 {
      UnitFound(rate, i);
    }
  }

  /** The unit of a match at `i`, spaces removed, ends in "ha". */
  lemma UnitFound(rate: string, i: nat)
    requires i <= |rate| && UnitMatchEnd(rate, i) != -1
    ensures var u := RemoveChar(rate[i..UnitMatchEnd(rate, i)], ' ');
      ' ' !in u && |u| >= 2 && Letter(u[|u| - 2], 'h') && Letter(u[|u| - 1], 'a')
  {
    var e := UnitMatchEnd(rate, i);
    var m := rate[i..e];
    MatchEndsInHa(rate, i);
    assert m[|m| - 2] == rate[e - 2] && m[|m| - 1] == rate[e - 1];
    assert m[|m| - 2] != ' ' && m[|m| - 1] != ' ';
    RemoveSpaceKeepsEnd(m);
  }

  // ------------------------------------------------------ process_markdown

  /** One row of the Directions for Use table, as a usage scenario; the rate value is not modelled. */
  datatype Usage = Usage(
    crop: string,
    weedCommonName: string,
    states: seq<string>,
    rateUnit: string,
    rateFullText: string,
    timing: seq<string>)

  /**
   * The label's metadata regexes, left abstract: the `(.+)` of the first
   * `# ` heading, the `APVMA Approval No:` line, every `Active Constituent:`
   * line and the `GROUP … HERBICIDE` code.
   */
  datatype MetaPatterns = MetaPatterns(
    heading: string -> Option<string>,
    approval: string -> Option<string>,
    actives: string -> seq<string>,
    group: string -> Option<string>)

  datatype Record = Record(
    productName: Option<string>,
    apvmaNumber: Option<string>,
    activeConstituents: seq<string>,
    moaLegacyLetter: Option<string>,
    identifiedCrops: seq<string>,
    identifiedWeeds: seq<string>,
    usageScenarios: seq<Usage>)

  datatype Status = MissingDirections | MissingTable | EmptyUsage | IncompleteMetadata

  /** `[w.strip() for w in re.split(r",|/", text) if w.strip()]` */
  function WeedNames(text: string): seq<string>
  {
    Filter(StripEach(WeedPieces(text)), (w: string) => w != [])
  }

  /** `row[k]`, or the empty string past the end of the row (`row[4] if len(row) > 4 else ""`). */
  function Cell(row: seq<string>, k: nat): string
  {
    if k < |row| then row[k] else ""
  }

  /** The usage scenario of a row; `process_markdown` only builds one for rows of five cells or more. */
  function UsageOf(row: seq<string>): Usage
  {
    var names := WeedNames(Cell(row, 1));
    var states := NormalisedStates(Cell(row, 2));
    var comments := Strip(Cell(row, 4));
    Usage(Cell(row, 0), if names != [] then names[0] else Strip(Cell(row, 1)),
      if states != [] then states else ["All States"],
      RateUnit(Cell(row, 3)), Strip(Cell(row, 3)), if comments != [] then [comments] else [])
  }

  predicate HasFiveCells(row: seq<string>) { |row| >= 5 }

  function CropOf(row: seq<string>): string { Cell(row, 0) }

  function WeedsOf(row: seq<string>): seq<string> { WeedNames(Cell(row, 1)) }

  /** The usage scenarios of the rows with five cells or more, in order. */
  function Usages(body: seq<seq<string>>, scenario: seq<string> -> Usage): seq<Usage>
  {
    Map(Filter(body, HasFiveCells), scenario)
  }

  /** The crop of each row with five cells or more, in order: what `crops` receives. */
  function Crops(body: seq<seq<string>>): seq<string>
  {
    Map(Filter(body, HasFiveCells), CropOf)
  }

  /** The weed names of each row with five cells or more, in order: what `weeds` receives. */
  function Weeds(body: seq<seq<string>>, names: seq<string> -> seq<string>): seq<string>
  {
    Concat(Map(Filter(body, HasFiveCells), names))
  }

  /** `text.split("\n\n", 1)[-1]`: what follows the first blank line, or all of it. */
  function AfterBlankLine(s: string): string
  {
    var i := IndexOf(s, "\n\n");
    if i == -1 then s else s[i + 2..]
  }

  /** The table lines at the head of `lines`. */
  function LeadingTableLines(lines: seq<string>): seq<string>
    decreases |lines|
  {
    if lines == [] || !IsTableLine(lines[0]) then [] else [lines[0]] + LeadingTableLines(lines[1..])
  }

  /** The first run of table lines: lines before it are skipped, the first line after it ends it. */
  function TableBlock(lines: seq<string>): seq<string>
    decreases |lines|
  {
    if lines == [] then []
    else if IsTableLine(lines[0]) then LeadingTableLines(lines)
    else TableBlock(lines[1..])
  }

  /** Every line of the block is a table line, so `parse_table` reads all of it. */
  lemma {:induction false} TableRowsOfBlock(lines: seq<string>)
    ensures |TableRows(TableBlock(lines))| == |TableBlock(lines)|
    decreases |lines|
  {
    if lines != [] {
      if IsTableLine(lines[0]) {
        LeadingRows(lines);
      } else {
        TableRowsOfBlock(lines[1..]);
      }
    }
  }

  lemma {:induction false} LeadingRows(lines: seq<string>)
    ensures |TableRows(LeadingTableLines(lines))| == |LeadingTableLines(lines)|
    decreases |lines|
  {
    if lines != [] && IsTableLine(lines[0]) {
      LeadingRows(lines[1..]);
      assert LeadingTableLines(lines)[0] == lines[0];
      assert LeadingTableLines(lines)[1..] == LeadingTableLines(lines[1..]);
    }
  }

  /** The parsed table under the "# directions for use" heading, if there is one. */
  function DirectionsTable(text: string): Option<seq<seq<string>>>
  {
    var i := IndexOf(Lower(text), "# directions for use");
    if i == -1 then None
    else Some(TableRows(TableBlock(SplitLines(AfterBlankLine(text[i..])))))
  }

  /** A value Python treats as true: present and not empty. */
  predicate Truthy(o: Option<string>) { o.Some? && o.value != [] }

  function StripOption(o: Option<string>): Option<string>
  {
    if o.Some? then Some(Strip(o.value)) else None
  }

  /** The metadata fields of the record, before any table is read. */
  function ReadMetadata(mp: MetaPatterns, text: string): Record
  {
    var approval := mp.approval(text);
    Record(StripOption(mp.heading(text)),
      if approval.Some? then Some(Strip(RemoveChar(approval.value, ' '))) else None,
      StripEach(mp.actives(text)), mp.group(text), [], [], [])
  }

  /** The body rows: past the header and divider, and at least as wide as the header. */
  function BodyRows(table: seq<seq<string>>): seq<seq<string>>
    requires |table| >= 2
  {
    var width := |table[0]|;
    Filter(table[2..], (row: seq<string>) => |row| >= width)
  }

  /** The three fields `process_markdown` requires before it reports no problem. */
  predicate Complete(meta: Record)
  {
    Truthy(meta.productName) && Truthy(meta.apvmaNumber) && meta.activeConstituents != []
  }

  /**
   * What `process_markdown` returns once the metadata is read and the table
   * under the directions heading (`None` without the heading) is parsed.
   */
  function Classify(meta: Record, found: Option<seq<seq<string>>>,
    scenario: seq<string> -> Usage, names: seq<string> -> seq<string>): (Option<Record>, Option<Status>)
  {
    if found.None? then (None, Some(MissingDirections))
    else if |found.value| < 3 then (None, Some(MissingTable))
    else
      var body := BodyRows(found.value);
      var usage := Usages(body, scenario);
      if usage == [] then (None, Some(EmptyUsage))
      else
        var record := meta.(identifiedCrops := Sorting.Sort(Dedup(Crops(body))),
          identifiedWeeds := Sorting.Sort(Dedup(Weeds(body, names))), usageScenarios := usage);
        if Complete(meta) then (Some(record), None) else (Some(record), Some(IncompleteMetadata))
  }

  /** What `process_markdown` returns for the text of a file. */
  function Processed(mp: MetaPatterns, text: string): (Option<Record>, Option<Status>)
  {
    Classify(ReadMetadata(mp, text), DirectionsTable(text), UsageOf, WeedsOf)
  }

  /** The states of a scenario: the normalised ones, or "All States" when none was recognised. */
  lemma UsageStates(row: seq<string>)
    ensures UsageOf(row).states != []
    ensures NormalisedStates(Cell(row, 2)) != [] ==> UsageOf(row).states == NormalisedStates(Cell(row, 2))
    ensures NormalisedStates(Cell(row, 2)) == [] ==> UsageOf(row).states == ["All States"]
    ensures forall s :: s in UsageOf(row).states ==> s in AllStates || s == "All States"
  {
    NormalisedStatesSpec(Cell(row, 2));
  }

  /** Sorted, without duplicates, and holding exactly the names given: `sorted(set(names))`. */
  lemma SortedSet(names: seq<string>)
    ensures Sorting.Sorted(Sorting.Sort(Dedup(names)))
    ensures NoDuplicates(Sorting.Sort(Dedup(names)))
    ensures forall x :: x in Sorting.Sort(Dedup(names)) <==> x in names
  {
    var d := Dedup(names);
    var r := Sorting.Sort(d);
    DistinctPermutation(d, r);
    assert forall x :: x in r <==> x in multiset(r);
    assert forall x :: x in d <==> x in multiset(d);
  }

  /**
   * Every scenario comes from a body row (past the header and divider) at
   * least as wide as the header and of five cells or more, and every such row
   * gives one, in order.
   */
  lemma UsageRows(table: seq<seq<string>>)
    requires |table| >= 2
    ensures var rows := Filter(BodyRows(table), HasFiveCells); var u := Usages(BodyRows(table), UsageOf);
      |u| == |rows| && forall k :: 0 <= k < |rows| ==> u[k] == UsageOf(rows[k])
    ensures forall row :: row in Filter(BodyRows(table), HasFiveCells) <==>
      row in table[2..] && |row| >= |table[0]| && |row| >= 5
  {
    var width := |table[0]|;
    FilterSpec(table[2..], (row: seq<string>) => |row| >= width);
    FilterSpec(BodyRows(table), HasFiveCells);
  }

  /** Without the directions heading there is no table; with it, the table is read from the heading on. */
  lemma DirectionsFound(text: string)
    ensures DirectionsTable(text).None? <==> !Contains(Lower(text), "# directions for use")
  {
  }

  /**
   * The outcome of `process_markdown`: which failure, if any, and that a
   * record comes with exactly the statuses "incomplete-metadata" and none.
   */
  lemma ClassifyOutcome(meta: Record, found: Option<seq<seq<string>>>,
    scenario: seq<string> -> Usage, names: seq<string> -> seq<string>)
    ensures var (record, status) := Classify(meta, found, scenario, names);
      (status == Some(MissingDirections) <==> found.None?) &&
      (status == Some(MissingTable) <==> found.Some? && |found.value| < 3) &&
      (status == Some(EmptyUsage) <==> found.Some? && |found.value| >= 3 && Usages(BodyRows(found.value), scenario) == []) &&
      (record.None? <==> status.Some? && status.value != IncompleteMetadata)
    ensures var (record, status) := Classify(meta, found, scenario, names);
      record.Some? ==> (record.value.usageScenarios != [] &&
        (status == Some(IncompleteMetadata) <==> !Complete(record.value)))
  {
  }

  /** A record's crop and weed lists are sorted, distinct, and hold exactly the names in the usable rows. */
  lemma ClassifyLists(meta: Record, found: Option<seq<seq<string>>>,
    scenario: seq<string> -> Usage, names: seq<string> -> seq<string>)
    requires Classify(meta, found, scenario, names).0.Some?
    ensures found.Some? && |found.value| >= 3
    ensures var r := Classify(meta, found, scenario, names).0.value; var body := BodyRows(found.value);
      r.usageScenarios == Usages(body, scenario) && r.usageScenarios != [] &&
      r.productName == meta.productName && r.apvmaNumber == meta.apvmaNumber &&
      r.activeConstituents == meta.activeConstituents && r.moaLegacyLetter == meta.moaLegacyLetter &&
      Sorting.Sorted(r.identifiedCrops) && NoDuplicates(r.identifiedCrops) &&
      Sorting.Sorted(r.identifiedWeeds) && NoDuplicates(r.identifiedWeeds) &&
      (forall x :: x in r.identifiedCrops <==> x in Crops(body)) &&
      (forall x :: x in r.identifiedWeeds <==> x in Weeds(body, names))
  {
    var body := BodyRows(found.value);
    SortedSet(Crops(body));
    SortedSet(Weeds(body, names));
  }

  /** How the block and its leading run change when one more line is read. */
  lemma TableBlockStep(lines: seq<string>, i: nat)
    requires i < |lines|
    ensures IsTableLine(lines[i]) ==> TableBlock(lines[i..]) == LeadingTableLines(lines[i..])
    ensures IsTableLine(lines[i]) ==> LeadingTableLines(lines[i..]) == [lines[i]] + LeadingTableLines(lines[i + 1..])
    ensures !IsTableLine(lines[i]) ==> TableBlock(lines[i..]) == TableBlock(lines[i + 1..]) && LeadingTableLines(lines[i..]) == []
  {
    assert lines[i..][0] == lines[i];
    assert lines[i..][1..] == lines[i + 1..];
  }

  /** The table loop of `process_markdown`: table lines are gathered from the first one to the end of that run. */
  method CollectTableLines(lines: seq<string>) returns (tableLines: seq<string>)
    ensures tableLines == TableBlock(lines)
  {
    tableLines := [];
    var i := 0;
    while i < |lines|
      invariant 0 <= i <= |lines|
      invariant tableLines == [] ==> TableBlock(lines) == TableBlock(lines[i..])
      invariant tableLines != [] ==> TableBlock(lines) == tableLines + LeadingTableLines(lines[i..])
    {
      var line := lines[i];
      TableBlockStep(lines, i);
      if IsTableLine(line) {
        AppendAssoc(tableLines, [line], LeadingTableLines(lines[i + 1..]));
        tableLines := tableLines + [line];
      } else if tableLines != [] {
        break;
      }
      i := i + 1;
    }
  }

  /** Finding the heading and reading the table after it. */
  method FindDirections(text: string) returns (found: Option<seq<seq<string>>>)
    ensures found == DirectionsTable(text)
  {
    var index := IndexOf(Lower(text), "# directions for use");
    if index == -1 {
      return None;
    }
    var lines := SplitLines(AfterBlankLine(text[index..]));
    var tableLines := CollectTableLines(lines);
    var table := ParseTable(tableLines);
    return Some(table);
  }

  /** One scenario: the states, rate unit and weed names of a row of five cells or more. */
  method ReadScenario(row: seq<string>) returns (u: Usage)
    requires |row| >= 5
    ensures u == UsageOf(row)
  {
    var states := NormaliseStates(row[2]);
    var names := WeedNames(row[1]);
    var comments := Strip(row[4]);
    u := Usage(row[0], if names != [] then names[0] else Strip(row[1]),
      if states != [] then states else ["All States"],
      RateUnit(row[3]), Strip(row[3]), if comments != [] then [comments] else []);
  }

  /** One more row: what the scenario, crop and weed lists gain from it. */
  lemma RowsNext(body: seq<seq<string>>, i: nat, scenario: seq<string> -> Usage, names: seq<string> -> seq<string>)
    requires i < |body|
    ensures Usages(body[..i + 1], scenario) == Usages(body[..i], scenario) + if |body[i]| >= 5 then [scenario(body[i])] else []
    ensures Crops(body[..i + 1]) == Crops(body[..i]) + if |body[i]| >= 5 then [body[i][0]] else []
    ensures Weeds(body[..i + 1], names) == Weeds(body[..i], names) + if |body[i]| >= 5 then names(body[i]) else []
  {
    FilterMapNext(body, i, HasFiveCells, scenario);
    FilterMapNext(body, i, HasFiveCells, CropOf);
    FilterMapNext(body, i, HasFiveCells, names);
    var before := Map(Filter(body[..i], HasFiveCells), names);
    var after := Map(Filter(body[..i + 1], HasFiveCells), names);
    if |body[i]| >= 5 {
      assert after == before + [names(body[i])];
      ConcatNext(before, names(body[i]));
    } else {
      assert after == before;
    }
  }

  /** The row loop of `process_markdown`: a scenario, a crop and weed names from each row of five cells or more. */
  method ReadUsage(body: seq<seq<string>>) returns (usage: seq<Usage>, crops: seq<string>, weeds: seq<string>)
    ensures usage == Usages(body, UsageOf) && crops == Crops(body) && weeds == Weeds(body, WeedsOf)
  {
    usage, crops, weeds := [], [], [];
    for i := 0 to |body|
      invariant usage == Usages(body[..i], UsageOf) && crops == Crops(body[..i]) && weeds == Weeds(body[..i], WeedsOf)
    {
      var row := body[i];
      RowsNext(body, i, UsageOf, WeedsOf);
      if |row| < 5 {
        continue;
      }
      var u := ReadScenario(row);
      crops := crops + [row[0]];
      weeds := weeds + WeedNames(row[1]);
      usage := usage + [u];
    }
    assert body[..|body|] == body;
  }

  /** `process_markdown` over the text of a file. */
  method ProcessMarkdown(mp: MetaPatterns, text: string) returns (record: Option<Record>, status: Option<Status>)
    ensures (record, status) == Processed(mp, text)
  {
    var meta := ReadMetadata(mp, text);
    var found := FindDirections(text);
    if found.None? {
      return None, Some(MissingDirections);
    }
    var table := found.value;
    if |table| < 3 {
      return None, Some(MissingTable);
    }
    var body := BodyRows(table);
    var usage, crops, weeds := ReadUsage(body);
    if usage == [] {
      return None, Some(EmptyUsage);
    }
    var result := meta.(identifiedCrops := Sorting.Sort(Dedup(crops)),
      identifiedWeeds := Sorting.Sort(Dedup(weeds)), usageScenarios := usage);
    if !Complete(meta) {
      return Some(result), Some(IncompleteMetadata);
    }
    return Some(result), None;
  }
}

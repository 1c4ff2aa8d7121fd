// The repair script for docling outputs that hold several JSON objects one
// after another, sometimes with markdown appended: a character scanner that
// splits the text into blocks, and the merge of the blocks into one document
// (`scripts/merge_docling_blocks.py`).  `json.loads` is a parameter: a test
// that a text is one JSON value, and a parser that gives the document or fails.

module MergeDocling {
  import opened Base
  import opened Strings

  // ------------------------------------------------------------------ blocks

  datatype BlockKind = JsonBlock | MarkdownBlock

  /** One entry of the list `split_json_blocks` returns: `('json', text)` or `('markdown', text)`. */
  datatype Block = Block(kind: BlockKind, text: string)

  function TextOf(b: Block): string { b.text }

  /** The texts of some blocks, one after the other. */
  function Texts(bs: seq<Block>): string
  {
    Concat(Map(bs, TextOf))
  }

  /** JSON candidates the validator accepted, each closed by a brace. */
  predicate AcceptedJson(bs: seq<Block>, valid: string -> bool)
  {
    forall i :: 0 <= i < |bs| ==>
      bs[i].kind == JsonBlock && valid(bs[i].text) && bs[i].text != [] && bs[i].text[|bs[i].text| - 1] == '}'
  }

  /** Every block but the last is JSON: markdown, if any, comes once and last. */
  predicate MarkdownLast(bs: seq<Block>)
  {
    forall i :: 0 <= i < |bs| - 1 ==> bs[i].kind == JsonBlock
  }

  // ----------------------------------------------------------------- scanner

  /** The loop variables of `split_json_blocks`. */
  datatype Scanner = Scanner(blocks: seq<Block>, current: string, depth: int, inString: bool, escapeNext: bool)

  const Start := Scanner([], [], 0, false, false)

  /** Whether a character closes a JSON candidate: outside strings, a `}` that brings the depth to zero after some text. */
  predicate ClosesCandidate(st: Scanner, c: char)
  {
    !st.escapeNext && !st.inString && c == '}' && st.depth == 1 && Strip(st.current) != []
  }

  /** A candidate the validator rejects. */
  predicate Rejects(st: Scanner, c: char, valid: string -> bool)
  {
    ClosesCandidate(st, c) && !valid(st.current + [c])
  }

  /**
   * The loop body on every path but a closing candidate: an escaped character,
   * a backslash in a string, a quote that opens or closes a string, a brace
   * outside strings that moves the depth, or any other character; each is
   * added to the pending text.
   */
  function Plain(st: Scanner, c: char): (r: Scanner)
    ensures r.blocks == st.blocks && r.current == st.current + [c]
  {
    if st.escapeNext then st.(current := st.current + [c], escapeNext := false)
    else if c == '\\' && st.inString then st.(current := st.current + [c], escapeNext := true)
    else
      var inString := if c == '"' then !st.inString else st.inString;
      var depth := if !inString && c == '{' then st.depth + 1 else if !inString && c == '}' then st.depth - 1 else st.depth;
      st.(current := st.current + [c], depth := depth, inString := inString)
  }

  /**
   * One pass of the loop body.  A closing candidate the validator accepts
   * becomes a JSON block; one it rejects stays pending, its closing brace
   * added twice with `closeTwice` (once before the validation and once at the
   * end of the body, as the script does) and once without.
   */
  function Step(st: Scanner, c: char, valid: string -> bool, closeTwice: bool): Scanner
  {
    if ClosesCandidate(st, c) then
      var closed := st.current + [c];
      if valid(closed) then Scanner(st.blocks + [Block(JsonBlock, closed)], [], 0, false, false)
      else Scanner(st.blocks, if closeTwice then closed + [c] else closed, 0, false, false)
    else Plain(st, c)
  }

  /** The scanner after the loop has run over `text`. */
  function Scan(text: string, valid: string -> bool, closeTwice: bool): Scanner
    decreases |text|
  {
    if text == [] then Start
    else Step(Scan(text[..|text| - 1], valid, closeTwice), text[|text| - 1], valid, closeTwice)
  }

  /** The tail of `split_json_blocks`: a remainder with text that does not open with `{` becomes one markdown block. */
  function Finish(st: Scanner): seq<Block>
  {
    if Strip(st.current) != [] && !StartsWith(st.current, "{") then st.blocks + [Block(MarkdownBlock, Strip(st.current))]
    else st.blocks
  }

  /** `split_json_blocks` as the script has it. */
  function SplitAsWritten(text: string, valid: string -> bool): seq<Block>
  {
    Finish(Scan(text, valid, true))
  }

  /** `split_json_blocks` with the closing brace of a rejected candidate kept once. */
  function SplitBlocks(text: string, valid: string -> bool): seq<Block>
  {
    Finish(Scan(text, valid, false))
  }

  /** `split_json_blocks`: the character loop, with its early `continue`s. */
  method SplitJsonBlocks(text: string, valid: string -> bool) returns (blocks: seq<Block>)
    ensures blocks == SplitAsWritten(text, valid)
  {
    blocks := [];
    var current: string := [];
    var depth := 0;
    var inString := false;
    var escapeNext := false;
    for i := 0 to |text|
      invariant Scanner(blocks, current, depth, inString, escapeNext) == Scan(text[..i], valid, true)
    {
      assert text[..i + 1][..i] == text[..i];
      var c := text[i];
      if escapeNext {
        current := current + [c];
        escapeNext := false;
        continue;
      }
      if c == '\\' && inString {
        escapeNext := true;
        current := current + [c];
        continue;
      }
      if c == '"' && !escapeNext {
        inString := !inString;
      }
      if !inString {
        if c == '{' {
          depth := depth + 1;
        } else if c == '}' {
          depth := depth - 1;
          if depth == 0 && Strip(current) != [] {
            current := current + [c];
            if valid(current) {
              blocks := blocks + [Block(JsonBlock, current)];
              current := [];
              continue;
            }
          }
        }
      }
      current := current + [c];
    }
    assert text[..|text|] == text;
    if Strip(current) != [] && !StartsWith(current, "{") {
      blocks := blocks + [Block(MarkdownBlock, Strip(current))];
    }
  }

  // --------------------------------------------------------- what the scan keeps

  /** The text the scanner has accounted for: the emitted blocks, then the pending text. */
  function Scanned(st: Scanner): string
  {
    Texts(st.blocks) + st.current
  }

  /**
   * One character adds itself to the accounted text, except that a rejected
   * candidate's brace is added twice when `closeTwice` holds; accepted
   * candidates stay accepted.
   */
  lemma StepKeepsText(st: Scanner, c: char, valid: string -> bool, closeTwice: bool)
    requires AcceptedJson(st.blocks, valid)
    ensures Scanned(Step(st, c, valid, closeTwice)) ==
      Scanned(st) + (if closeTwice && Rejects(st, c, valid) then [c, c] else [c])
    ensures AcceptedJson(Step(st, c, valid, closeTwice).blocks, valid)
  {
    var next := Step(st, c, valid, closeTwice);
    var closed := st.current + [c];
    if ClosesCandidate(st, c) && valid(closed) {
      AcceptKeepsText(st, c, valid, next);
    } else if ClosesCandidate(st, c) {
      assert next.blocks == st.blocks;
      if closeTwice {
        assert next.current == st.current + [c, c];
        AppendAssoc(Texts(st.blocks), st.current, [c, c]);
      } else {
        AppendAssoc(Texts(st.blocks), st.current, [c]);
      }
    } else {
      assert next == Plain(st, c);
      AppendAssoc(Texts(st.blocks), st.current, [c]);
    }
  }

  /** An accepted candidate moves the pending text, closing brace included, into a new JSON block. */
  lemma AcceptKeepsText(st: Scanner, c: char, valid: string -> bool, next: Scanner)
    requires AcceptedJson(st.blocks, valid) && c == '}' && valid(st.current + [c])
    requires next == Scanner(st.blocks + [Block(JsonBlock, st.current + [c])], [], 0, false, false)
    ensures Scanned(next) == Scanned(st) + [c]
    ensures AcceptedJson(next.blocks, valid)
  {
    var closed := st.current + [c];
    assert Map(next.blocks, TextOf) == Map(st.blocks, TextOf) + [closed];
    ConcatNext(Map(st.blocks, TextOf), closed);
    AppendAssoc(Texts(st.blocks), st.current, [c]);
  }

  /** Without the doubled brace, the scan accounts for the input exactly, and every block it emits is an accepted candidate. */
  lemma {:induction false} ScanKeepsText(text: string, valid: string -> bool)
    ensures Scanned(Scan(text, valid, false)) == text
    ensures AcceptedJson(Scan(text, valid, false).blocks, valid)
    decreases |text|
  {
    if text != [] {
      var init := text[..|text| - 1];
      assert init + [text[|text| - 1]] == text;
      ScanKeepsText(init, valid);
      StepKeepsText(Scan(init, valid, false), text[|text| - 1], valid, false);
    } else {
      assert Scanned(Start) == [];
    }
  }

  /** No candidate is rejected anywhere along the scan of `text`. */
  predicate NeverRejects(text: string, valid: string -> bool)
  {
    forall i :: 0 <= i < |text| ==> !Rejects(Scan(text[..i], valid, true), text[i], valid)
  }

  /** Where no candidate is rejected, the script's scan is the corrected one. */
  lemma {:induction false} NeverRejectsSame(text: string, valid: string -> bool)
    requires NeverRejects(text, valid)
    ensures Scan(text, valid, true) == Scan(text, valid, false)
    decreases |text|
  {
    if text != [] {
      var n := |text| - 1;
      NeverRejectsInit(text, valid);
      NeverRejectsSame(text[..n], valid);
      StepSame(Scan(text[..n], valid, false), text[n], valid);
    }
  }

  /** A text that never rejects has a prefix that never rejects, and its last character is not rejected either. */
  lemma NeverRejectsInit(text: string, valid: string -> bool)
    requires text != [] && NeverRejects(text, valid)
    ensures NeverRejects(text[..|text| - 1], valid)
    ensures !Rejects(Scan(text[..|text| - 1], valid, true), text[|text| - 1], valid)
  {
    var init := text[..|text| - 1];
    forall i | 0 <= i < |init|
      ensures !Rejects(Scan(init[..i], valid, true), init[i], valid)
    {
      assert init[..i] == text[..i] && init[i] == text[i];
    }
    assert text[..|text| - 1] == init;
  }

  /** Where the candidate is not rejected, closing twice makes no difference to a step. */
  lemma StepSame(st: Scanner, c: char, valid: string -> bool)
    requires !Rejects(st, c, valid)
    ensures Step(st, c, valid, true) == Step(st, c, valid, false)
  {
  }

  /** The part of a split before its markdown block, if it has one. */
  function JsonPart(r: seq<Block>): seq<Block>
  {
    if r != [] && r[|r| - 1].kind == MarkdownBlock then r[..|r| - 1] else r
  }

  /**
   * The split keeps markdown last and once, every JSON block is an accepted
   * candidate, the JSON texts followed by the remainder give back the input,
   * and the markdown block, present exactly when the remainder has text and
   * does not open with `{`, is the remainder stripped.
   */
  lemma SplitRoundTrip(text: string, valid: string -> bool)
    ensures var r := SplitBlocks(text, valid);
            var rest := Scan(text, valid, false).current;
            MarkdownLast(r) && AcceptedJson(JsonPart(r), valid) && Texts(JsonPart(r)) + rest == text &&
            (r != [] && r[|r| - 1].kind == MarkdownBlock <==> Strip(rest) != [] && !StartsWith(rest, "{")) &&
            (r != [] && r[|r| - 1].kind == MarkdownBlock ==> r[|r| - 1].text == Strip(rest))
  {
    var st := Scan(text, valid, false);
    ScanKeepsText(text, valid);
    var r := SplitBlocks(text, valid);
    if Strip(st.current) != [] && !StartsWith(st.current, "{") {
      assert r == st.blocks + [Block(MarkdownBlock, Strip(st.current))];
      assert JsonPart(r) == st.blocks;
    } else {
      assert r == st.blocks;
      assert r != [] ==> r[|r| - 1].kind == JsonBlock;
    }
  }

  /** When every candidate validates, the script's split is the corrected one, with the same round trip. */
  lemma SplitAsWrittenRoundTrip(text: string, valid: string -> bool)
    requires NeverRejects(text, valid)
    ensures SplitAsWritten(text, valid) == SplitBlocks(text, valid)
    ensures Texts(JsonPart(SplitAsWritten(text, valid))) + Scan(text, valid, true).current == text
  {
    NeverRejectsSame(text, valid);
    SplitRoundTrip(text, valid);
  }

  /** The scan emits JSON blocks only. */
  lemma {:induction false} ScanBlocksJson(text: string, valid: string -> bool, closeTwice: bool)
    ensures forall i :: 0 <= i < |Scan(text, valid, closeTwice).blocks| ==> Scan(text, valid, closeTwice).blocks[i].kind == JsonBlock
    decreases |text|
  {
    if text != [] {
      var init := Scan(text[..|text| - 1], valid, closeTwice);
      ScanBlocksJson(text[..|text| - 1], valid, closeTwice);
      var next := Step(init, text[|text| - 1], valid, closeTwice);
      assert next.blocks == init.blocks || next.blocks == init.blocks + [Block(JsonBlock, init.current + [text[|text| - 1]])];
    }
  }

  /** The script's split also keeps markdown last and once. */
  lemma SplitAsWrittenShape(text: string, valid: string -> bool)
    ensures MarkdownLast(SplitAsWritten(text, valid))
  {
    var st := Scan(text, valid, true);
    ScanBlocksJson(text, valid, true);
    var r := SplitAsWritten(text, valid);
    assert r == st.blocks || r == st.blocks + [Block(MarkdownBlock, Strip(st.current))];
    forall i | 0 <= i < |r| - 1
      ensures r[i].kind == JsonBlock
    {
      assert r[i] == st.blocks[i];
    }
  }

  /** Scanning `x{`: plain text, then one level deep. */
  lemma ScanOpen(valid: string -> bool, closeTwice: bool)
    ensures Scan("x{", valid, closeTwice) == Scanner([], "x{", 1, false, false)
  {
    var s1 := Scanner([], "x", 0, false, false);
    assert Scan([], valid, closeTwice) == Start;
    assert Plain(Start, 'x') == s1;
    assert "x"[..0] == [];
    assert Scan("x", valid, closeTwice) == s1;
    assert Plain(s1, '{') == Scanner([], "x{", 1, false, false);
    assert "x{"[..1] == "x";
  }

  /** Scanning `x{}`: the candidate closes and is rejected. */
  lemma ScanClose(valid: string -> bool, closeTwice: bool)
    requires !valid("x{}")
    ensures Scan("x{}", valid, closeTwice) == Scanner([], if closeTwice then "x{}}" else "x{}", 0, false, false)
  {
    var t := "x{}";
    var s2 := Scanner([], "x{", 1, false, false);
    ScanOpen(valid, closeTwice);
    assert t[..2] == "x{";
    assert Strip("x{") != [] by { assert TrimStart("x{") == "x{"; }
    assert ClosesCandidate(s2, '}');
    assert s2.current + ['}'] == t;
  }

  /**
   * The script adds a rejected candidate's closing brace twice: `x{}` is not
   * JSON, and its markdown block comes out as `x{}}` where the text reads `x{}`.
   */
  lemma DoubledBrace(valid: string -> bool)
    requires !valid("x{}")
    ensures SplitAsWritten("x{}", valid) == [Block(MarkdownBlock, "x{}}")]
    ensures SplitBlocks("x{}", valid) == [Block(MarkdownBlock, "x{}")]
  {
    ScanClose(valid, true);
    ScanClose(valid, false);
    FinishText("x{}}");
    FinishText("x{}");
  }

  /** A pending text that opens with `x` and ends with `}` becomes a markdown block as it is. */
  lemma FinishText(t: string)
    requires |t| > 1 && t[0] == 'x' && t[|t| - 1] == '}'
    ensures Finish(Scanner([], t, 0, false, false)) == [Block(MarkdownBlock, t)]
  {
    StripClean(t);
    assert t[..1] != "{";
  }

  // ------------------------------------------------------------------- merge

  /** An entry of a block's `text_items`: a string, or some other JSON value the merge drops. */
  datatype Item = StrItem(s: string) | OtherItem

  /** A table as the JSON holds it; the merge copies it whole. */
  datatype DocTable = DocTable(rows: seq<seq<string>>)

  /** What the merge reads of a parsed block: its `tables` and `text_items` keys, absent or present. */
  datatype Doc = Doc(tables: Option<seq<DocTable>>, textItems: Option<seq<Item>>)

  /** One entry of `raw_blocks`: a JSON block with its table count and whether it had text items, or the markdown with a preview. */
  datatype RawBlock = RawJson(index: nat, numTables: nat, hasTextItems: bool) | RawMarkdown(index: nat, preview: string)

  /** The merged document: the first block with its `merged_from`, `tables`, `text_items` and `raw_blocks` keys set. */
  datatype MergedDoc = MergedDoc(base: Doc, mergedFrom: string, tables: seq<DocTable>, textItems: seq<string>, rawBlocks: seq<RawBlock>)

  datatype MergeResult = NotMerged | Merged(doc: MergedDoc)

  predicate IsJson(b: Block) { b.kind == JsonBlock }

  predicate IsMarkdown(b: Block) { b.kind == MarkdownBlock }

  /** `[b for b in blocks if b[0] == 'json']`, their texts. */
  function JsonTexts(blocks: seq<Block>): seq<string> { Map(Filter(blocks, IsJson), TextOf) }

  /** `[b[1] for b in blocks if b[0] == 'markdown']` */
  function MarkdownOf(blocks: seq<Block>): seq<string> { Map(Filter(blocks, IsMarkdown), TextOf) }

  /** Parsing each JSON text in turn; a failure anywhere fails the whole. */
  function ParseBlocks(texts: seq<string>, parse: string -> Option<Doc>): (r: Option<seq<Doc>>)
    ensures r.None? <==> exists k :: 0 <= k < |texts| && parse(texts[k]).None?
    ensures r.Some? ==> |r.value| == |texts| && forall k :: 0 <= k < |texts| ==> parse(texts[k]) == Some(r.value[k])
    decreases |texts|
  {
    if texts == [] then Some([])
    else
      var n := |texts| - 1;
      var init := ParseBlocks(texts[..n], parse);
      assert forall k :: 0 <= k < n ==> texts[..n][k] == texts[k];
      if init.None? then None
      else
        var last := parse(texts[n]);
        if last.None? then None else Some(init.value + [last.value])
  }

  /** The tables a block adds: its `tables` list, or nothing. */
  function TablesOf(d: Doc): seq<DocTable>
  {
    if d.tables.Some? then d.tables.value else []
  }

  predicate KeptItem(t: Item) { t.StrItem? && Strip(t.s) != [] }

  function ItemText(t: Item): string { if t.StrItem? then t.s else [] }

  /** The text items a block adds: its string items with text, unchanged. */
  function TextsOf(d: Doc): seq<string>
  {
    if d.textItems.Some? then Map(Filter(d.textItems.value, KeptItem), ItemText) else []
  }

  predicate HasText(s: string) { Strip(s) != [] }

  /** The markdown's sections with text, stripped; `split` stands for the `re.split` on heading markers. */
  function MarkdownTexts(markdown: seq<string>, split: string -> seq<string>): seq<string>
  {
    if markdown == [] then [] else Map(Filter(split(Join("\n\n", markdown)), HasText), Strip)
  }

  predicate HasItems(d: Doc) { d.textItems.Some? && d.textItems.value != [] }

  /** The `raw_blocks` entries of the JSON blocks, in order. */
  function RawEntries(parsed: seq<Doc>): (r: seq<RawBlock>)
    ensures |r| == |parsed|
    ensures forall i :: 0 <= i < |parsed| ==> r[i] == RawJson(i, |TablesOf(parsed[i])|, HasItems(parsed[i]))
    decreases |parsed|
  {
    if parsed == [] then []
    else
      var n := |parsed| - 1;
      assert forall i :: 0 <= i < n ==> parsed[..n][i] == parsed[i];
      RawEntries(parsed[..n]) + [RawJson(n, |TablesOf(parsed[n])|, HasItems(parsed[n]))]
  }

  /** The preview of the markdown: its first 100 characters and `...`, or nothing. */
  function Preview(m: string): string
  {
    if m != [] then SliceTo(m, 100) + "..." else []
  }

  /** The `raw_blocks` entry of the markdown, if there is any. */
  function MarkdownEntry(n: nat, markdown: seq<string>): seq<RawBlock>
  {
    if markdown != [] then [RawMarkdown(n, Preview(markdown[0]))] else []
  }

  /** The merged document built from the parsed JSON blocks and the markdown. */
  function MergeParsed(ps: seq<Doc>, markdown: seq<string>, split: string -> seq<string>): MergedDoc
    requires ps != []
  {
    MergedDoc(ps[0], "multiple_blocks_preserved", Concat(Map(ps, TablesOf)),
      Concat(Map(ps, TextsOf)) + MarkdownTexts(markdown, split), RawEntries(ps) + MarkdownEntry(|ps|, markdown))
  }

  /** A split with two blocks or more and markdown only last holds a JSON block. */
  lemma SomeJson(blocks: seq<Block>)
    requires MarkdownLast(blocks) && |blocks| > 1
    ensures JsonTexts(blocks) != []
  {
    FilterSpec(blocks, IsJson);
    assert blocks[0] in Filter(blocks, IsJson);
  }

  /** What `merge_docling_file` writes, or that it merges nothing. */
  function Merge(blocks: seq<Block>, parse: string -> Option<Doc>, split: string -> seq<string>): MergeResult
    requires MarkdownLast(blocks)
  {
    if |blocks| <= 1 then NotMerged
    else
      var parsed := ParseBlocks(JsonTexts(blocks), parse);
      if parsed.None? then NotMerged
      else
        SomeJson(blocks);
        Merged(MergeParsed(parsed.value, MarkdownOf(blocks), split))
  }

  /** The parse loop: every JSON text parsed, or a failure. */
  method ParseAll(texts: seq<string>, parse: string -> Option<Doc>) returns (r: Option<seq<Doc>>)
    ensures r == ParseBlocks(texts, parse)
  {
    var parsed: seq<Doc> := [];
    for i := 0 to |texts|
      invariant ParseBlocks(texts[..i], parse) == Some(parsed)
    {
      assert texts[..i + 1][..i] == texts[..i];
      var p := parse(texts[i]);
      if p.None? {
        return None;
      }
      parsed := parsed + [p.value];
    }
    assert texts[..|texts|] == texts;
    return Some(parsed);
  }

  /** The table loop: each block's tables, when it has some, extend the list. */
  method CollectTables(parsed: seq<Doc>) returns (allTables: seq<DocTable>)
    ensures allTables == Concat(Map(parsed, TablesOf))
  {
    allTables := [];
    for i := 0 to |parsed|
      invariant allTables == Concat(Map(parsed[..i], TablesOf))
    {
      ConcatMapNext(parsed, i, TablesOf);
      if parsed[i].tables.Some? && parsed[i].tables.value != [] {
        allTables := allTables + parsed[i].tables.value;
      }
    }
    assert parsed[..|parsed|] == parsed;
  }

  /** The text loop: each block's string items with text, when it has items, extend the list. */
  method CollectTexts(parsed: seq<Doc>) returns (allText: seq<string>)
    ensures allText == Concat(Map(parsed, TextsOf))
  {
    allText := [];
    for i := 0 to |parsed|
      invariant allText == Concat(Map(parsed[..i], TextsOf))
    {
      ConcatMapNext(parsed, i, TextsOf);
      if parsed[i].textItems.Some? && parsed[i].textItems.value != [] {
        allText := allText + Map(Filter(parsed[i].textItems.value, KeptItem), ItemText);
      }
    }
    assert parsed[..|parsed|] == parsed;
  }

  /** The markdown loop: each section with text, stripped, is appended. */
  method AddMarkdown(allText: seq<string>, markdown: seq<string>, split: string -> seq<string>) returns (r: seq<string>)
    ensures r == allText + MarkdownTexts(markdown, split)
  {
    r := allText;
    if markdown != [] {
      var sections := split(Join("\n\n", markdown));
      for j := 0 to |sections|
        invariant r == allText + Map(Filter(sections[..j], HasText), Strip)
      {
        var before := Map(Filter(sections[..j], HasText), Strip);
        FilterMapNext(sections, j, HasText, Strip);
        if HasText(sections[j]) {
          AppendAssoc(allText, before, [Strip(sections[j])]);
          r := r + [Strip(sections[j])];
        } else {
          assert before + [] == before;
        }
      }
      assert sections[..|sections|] == sections;
    } else {
      assert r == allText + [];
    }
  }

  /** The `raw_blocks` loop and the markdown entry after it. */
  method CollectRaw(parsed: seq<Doc>, markdown: seq<string>) returns (raw: seq<RawBlock>)
    ensures raw == RawEntries(parsed) + MarkdownEntry(|parsed|, markdown)
    ensures |raw| == |parsed| + (if markdown == [] then 0 else 1)
    ensures forall i :: 0 <= i < |parsed| ==> raw[i].RawJson? && raw[i].index == i
  {
    raw := [];
    for i := 0 to |parsed|
      invariant raw == RawEntries(parsed[..i])
    {
      assert parsed[..i + 1][..i] == parsed[..i];
      raw := raw + [RawJson(i, |TablesOf(parsed[i])|, HasItems(parsed[i]))];
    }
    assert parsed[..|parsed|] == parsed;
    if markdown != [] {
      raw := raw + [RawMarkdown(|parsed|, Preview(markdown[0]))];
    }
  }

  /** `merge_docling_file`, from the blocks of the split on. */
  method MergeDoclingFile(blocks: seq<Block>, parse: string -> Option<Doc>, split: string -> seq<string>)
    returns (r: MergeResult)
    requires MarkdownLast(blocks)
    ensures r == Merge(blocks, parse, split)
  {
    if |blocks| <= 1 {
      return NotMerged;
    }
    var jsonTexts := Map(Filter(blocks, IsJson), TextOf);
    var markdown := Map(Filter(blocks, IsMarkdown), TextOf);
    var parsed := ParseAll(jsonTexts, parse);
    if parsed.None? {
      return NotMerged;
    }
    SomeJson(blocks);
    var ps := parsed.value;
    var tables := CollectTables(ps);
    var texts := CollectTexts(ps);
    texts := AddMarkdown(texts, markdown, split);
    var raw := CollectRaw(ps, markdown);
    return Merged(MergedDoc(ps[0], "multiple_blocks_preserved", tables, texts, raw));
  }

  // ------------------------------------------------------- what the merge keeps

  /**
   * A file is merged exactly when the split has two blocks or more and every
   * JSON text parses; the merged document is then based on the first JSON
   * block.
   */
  lemma MergeOutcome(blocks: seq<Block>, parse: string -> Option<Doc>, split: string -> seq<string>)
    requires MarkdownLast(blocks)
    ensures Merge(blocks, parse, split).Merged? <==>
      |blocks| > 1 && forall k :: 0 <= k < |JsonTexts(blocks)| ==> parse(JsonTexts(blocks)[k]).Some?
    ensures Merge(blocks, parse, split).Merged? ==>
      JsonTexts(blocks) != [] && parse(JsonTexts(blocks)[0]) == Some(Merge(blocks, parse, split).doc.base)
  {
    if |blocks| > 1 {
      SomeJson(blocks);
    }
  }

  /**
   * The raw entries: one per JSON block, in order, with its table count, and
   * one more for the markdown exactly when there is markdown, numbered after
   * them.
   */
  lemma RawBlocksSpec(ps: seq<Doc>, markdown: seq<string>, split: string -> seq<string>)
    requires ps != []
    ensures var raw := MergeParsed(ps, markdown, split).rawBlocks;
            |raw| == |ps| + (if markdown != [] then 1 else 0) &&
            (forall i :: 0 <= i < |ps| ==> raw[i].RawJson? && raw[i].index == i && raw[i].numTables == |TablesOf(ps[i])|) &&
            (markdown != [] ==> raw[|ps|].RawMarkdown? && raw[|ps|].index == |ps|)
  {
    var raw := MergeParsed(ps, markdown, split).rawBlocks;
    assert raw == RawEntries(ps) + MarkdownEntry(|ps|, markdown);
    forall i | 0 <= i < |ps|
      ensures raw[i] == RawEntries(ps)[i]
    {
    }
  }

  /** Every table of every JSON block, and every string item with text, is in the merged document. */
  lemma MergeKeepsData(ps: seq<Doc>, markdown: seq<string>, split: string -> seq<string>, k: nat, j: nat)
    requires k < |ps|
    ensures j < |TablesOf(ps[k])| ==> TablesOf(ps[k])[j] in MergeParsed(ps, markdown, split).tables
    ensures j < |TextsOf(ps[k])| ==> TextsOf(ps[k])[j] in MergeParsed(ps, markdown, split).textItems
  {
    if j < |TablesOf(ps[k])| {
      ConcatMember(Map(ps, TablesOf), k, j);
    }
    if j < |TextsOf(ps[k])| {
      ConcatMember(Map(ps, TextsOf), k, j);
    }
  }

  /** Every merged text item has text. */
  lemma MergedTextsHaveText(ps: seq<Doc>, markdown: seq<string>, split: string -> seq<string>)
    requires ps != []
    ensures forall t :: t in MergeParsed(ps, markdown, split).textItems ==> Strip(t) != []
  {
    var parts := Map(ps, TextsOf);
    forall k | 0 <= k < |parts|
      ensures forall t :: t in parts[k] ==> Strip(t) != []
    {
      TextsOfHaveText(ps[k]);
    }
    ConcatHasText(parts);
    MarkdownTextsHaveText(markdown, split);
  }

  /** Parts whose every text has text concatenate to texts with text. */
  lemma {:induction false} ConcatHasText(parts: seq<seq<string>>)
    requires forall k :: 0 <= k < |parts| ==> forall t :: t in parts[k] ==> Strip(t) != []
    ensures forall t :: t in Concat(parts) ==> Strip(t) != []
    decreases |parts|
  {
    if parts != [] {
      var n := |parts| - 1;
      assert forall k :: 0 <= k < n ==> parts[..n][k] == parts[k];
      ConcatHasText(parts[..n]);
    }
  }

  lemma TextsOfHaveText(d: Doc)
    ensures forall t :: t in TextsOf(d) ==> Strip(t) != []
  {
    if d.textItems.Some? {
      var kept := Filter(d.textItems.value, KeptItem);
      FilterSpec(d.textItems.value, KeptItem);
      forall i | 0 <= i < |kept|
        ensures Strip(ItemText(kept[i])) != []
      {
        assert kept[i] in kept;
      }
    }
  }

  lemma MarkdownTextsHaveText(markdown: seq<string>, split: string -> seq<string>)
    ensures forall t :: t in MarkdownTexts(markdown, split) ==> Strip(t) != []
  {
    if markdown != [] {
      var secs := split(Join("\n\n", markdown));
      var kept := Filter(secs, HasText);
      FilterSpec(secs, HasText);
      var r := Map(kept, Strip);
      forall k | 0 <= k < |r|
        ensures Strip(r[k]) != []
      {
        assert kept[k] in kept;
        StripIdempotent(kept[k]);
      }
    }
  }
}

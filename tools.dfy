// The agent tools over the herbicide graph (`packages/graph/src/graph/tools.py`):
// keyword routing of a query, and the text each tool builds from the rows the
// database returns. The database calls are not modelled: their results are
// parameters (a tool's rows, or a function from the name searched to its rows).

module Tools {
  import opened Base
  import opened Strings

  // ------------------------------------------------------------------ routing

  /** The nodes a query can be routed to. */
  datatype Route = Rotation | Cypher | Graph | Semantic

  const RotationWords: seq<string> := ["rotation", "resistance", "alternative"]
  const CypherWords: seq<string> := ["how many", "count", "most common"]
  const GraphWords: seq<string> := ["control", "herbicide for"]

  /** `any(w in q for w in words)` */
  predicate AnyIn(words: seq<string>, q: string)
  {
    exists k :: 0 <= k < |words| && Contains(q, words[k])
  }

  /**
   * `route_query`: the first rule whose keywords occur in the lowercased
   * query; a missing query is empty. A query routed anywhere but semantic
   * search holds one of the keywords.
   */
  function RouteQuery(query: Option<string>): (r: Route)
    ensures r != Semantic ==>
      exists w :: w in RotationWords + CypherWords + GraphWords && Contains(Lower(GetOr(query, "")), w)
  {
    var q := Lower(GetOr(query, ""));
    if AnyIn(RotationWords, q) then Rotation
    else if AnyIn(CypherWords, q) then Cypher
    else if AnyIn(GraphWords, q) then Graph
    else Semantic
  }

  /** Routing ignores case: a query routes as its lowercase form does. */
  lemma RouteIgnoresCase(q: string)
    ensures RouteQuery(Some(q)) == RouteQuery(Some(Lower(q)))
  {
    LowerIdempotent(q);
  }

  /** A rotation keyword wins over every other rule; a missing query goes to semantic search. */
  lemma RouteOrder(query: Option<string>, k: nat)
    requires k < |RotationWords| && Contains(Lower(GetOr(query, "")), RotationWords[k])
    ensures RouteQuery(query) == Rotation
  {
  }

  /**
   * The rules are tried in order: without a rotation keyword a counting
   * keyword wins over a graph keyword, and a query with none of the keywords
   * goes to semantic search; each route is taken only when its keywords occur.
   */
  lemma RoutePrecedence(query: Option<string>)
    ensures var q := Lower(GetOr(query, ""));
      RouteQuery(query) == Rotation <==> AnyIn(RotationWords, q)
    ensures var q := Lower(GetOr(query, ""));
      RouteQuery(query) == Cypher <==> !AnyIn(RotationWords, q) && AnyIn(CypherWords, q)
    ensures var q := Lower(GetOr(query, ""));
      RouteQuery(query) == Graph <==> !AnyIn(RotationWords, q) && !AnyIn(CypherWords, q) && AnyIn(GraphWords, q)
    ensures var q := Lower(GetOr(query, ""));
      RouteQuery(query) == Semantic <==> !AnyIn(RotationWords, q) && !AnyIn(CypherWords, q) && !AnyIn(GraphWords, q)
  {
  }

  /** The empty query contains no keyword. */
  lemma MissingQueryIsSemantic()
    ensures RouteQuery(None) == Semantic
  {
    assert Lower("") == "";
    forall words: seq<string>, k | 0 <= k < |words| && words[k] != []
      ensures !Contains("", words[k])
    {
    }
  }

  // ------------------------------------------------------------ vector search

  const PreviewLength := 500
  const Ellipsis := "..."

  /** The content shown for a chunk: its first 500 characters, and `...` when there were more. */
  function Preview(text: string): string
  {
    SliceTo(text, PreviewLength) + if |text| > PreviewLength then Ellipsis else ""
  }

  /** A preview starts with the text's first 500 characters; a short text is shown whole, a long one is cut and marked. */
  lemma PreviewSpec(text: string)
    ensures StartsWith(Preview(text), text[..Min(|text|, PreviewLength)])
    ensures |text| <= PreviewLength ==> Preview(text) == text
    ensures |text| > PreviewLength ==> |Preview(text)| == PreviewLength + 3 && EndsWith(Preview(text), Ellipsis)
  {
    var p := Preview(text);
    assert p[..Min(|text|, PreviewLength)] == text[..Min(|text|, PreviewLength)];
    if |text| > PreviewLength {
      assert p[|p| - 3..] == Ellipsis;
    } else {
      assert p == text + "";
    }
  }

  /** A row of the vector search; `score` is the score already written with three decimals. */
  datatype Hit = Hit(score: string, productName: Option<string>, productNumber: string,
                     section: Option<string>, chunkType: string, text: string)

  const NoChunks := "No relevant chunks found for your query."

  /** The block of the `i`-th result, counted from 1. */
  function HitBlock(i: nat, r: Hit): string
  {
    "--- Result " + NatToString(i) + " (score: " + r.score + ") ---\n" +
    "Product: " + GetOr(r.productName, "Unknown") + " (" + r.productNumber + ")\n" +
    "Section: " + GetOr(r.section, "Unknown") + "\n" +
    "Type: " + r.chunkType + "\n" +
    "Content:\n" + Preview(r.text) + "\n\n"
  }

  /** The blocks of `xs`, numbered from 1 (`enumerate(xs, 1)`). */
  function Numbered<T>(xs: seq<T>, block: (nat, T) -> string): string
    decreases |xs|
  {
    if xs == [] then "" else Numbered(xs[..|xs| - 1], block) + block(|xs|, xs[|xs| - 1])
  }

  /** `for i, x in enumerate(xs, 1): output += <block>` */
  method AppendNumbered<T>(output0: string, xs: seq<T>, block: (nat, T) -> string) returns (output: string)
    ensures output == output0 + Numbered(xs, block)
  {
    output := output0;
    for i := 0 to |xs|
      invariant output == output0 + Numbered(xs[..i], block)
    {
      assert xs[..i + 1][..i] == xs[..i];
      AppendAssoc(output0, Numbered(xs[..i], block), block(i + 1, xs[i]));
      output := output + block(i + 1, xs[i]);
    }
    assert xs[..|xs|] == xs;
  }

  function VectorOutput(results: seq<Hit>): string
  {
    if results == [] then NoChunks
    else "Found " + NatToString(|results|) + " relevant chunks:\n\n" + Numbered(results, HitBlock)
  }

  /** `vector_search_tool`'s formatting: one block per result, numbered from 1. */
  method VectorSearchTool(results: seq<Hit>) returns (output: string)
    ensures output == VectorOutput(results)
  {
    if |results| == 0 {
      return NoChunks;
    }
    output := "Found " + NatToString(|results|) + " relevant chunks:\n\n";
    output := AppendNumbered(output, results, HitBlock);
  }

  /** A result's block shows its preview. */
  lemma HitBlockShowsPreview(i: nat, r: Hit)
    ensures Contains(HitBlock(i, r), Preview(r.text))
  {
    var b := HitBlock(i, r);
    var pre := "--- Result " + NatToString(i) + " (score: " + r.score + ") ---\n" +
      "Product: " + GetOr(r.productName, "Unknown") + " (" + r.productNumber + ")\n" +
      "Section: " + GetOr(r.section, "Unknown") + "\n" +
      "Type: " + r.chunkType + "\n" + "Content:\n";
    assert b == pre + Preview(r.text) + "\n\n";
    assert b[|pre|..|pre| + |Preview(r.text)|] == Preview(r.text);
    ContainsAt(b, Preview(r.text), |pre|);
  }

  // ----------------------------------------------------------- graph traversal

  const Bullet := "\U{2022} "
  const ListingCap := 10
  const ControlsCap := 5

  /**
   * A row of `find_herbicides_for_weed`. Every column is returned, and a
   * property that is unset, or a mode of action the OPTIONAL MATCH did not
   * find, is null (`None`).
   */
  datatype WeedHit = WeedHit(herbicide: Option<string>, productNumber: Option<string>, active: Option<string>,
                             moaGroup: Option<string>, crop: Option<string>, rate: Option<string>,
                             timing: Option<string>)

  /** A row of `find_herbicides_for_crop`; `collect` leaves null weed names out. */
  datatype CropHit = CropHit(herbicide: Option<string>, productNumber: Option<string>, active: Option<string>,
                             moaGroup: Option<string>, weedsControlled: seq<string>)

  /**
   * One entry of `weed_controls`. With no CONTROLS relationship the OPTIONAL
   * MATCH still collects one map, whose values are all null (`None`).
   */
  datatype WeedControl = WeedControl(weed: Option<string>, crop: Option<string>, rate: Option<string>)

  /**
   * The record of `get_herbicide_details`. The query returns every key, so
   * the `.get` defaults of the tool are never used; a property that is unset,
   * or a mode of action the OPTIONAL MATCH did not find, is null (`None`).
   * `collect` leaves nulls out, so the crop names are all text.
   */
  datatype Details = Details(productName: Option<string>, productNumber: Option<string>,
                             activeConstituent: Option<string>, moaGroup: Option<string>,
                             moaDescription: Option<string>, registeredCrops: seq<string>,
                             withholdingPeriod: Option<string>, weedControls: seq<WeedControl>)

  /** The three graph queries, each from the name searched to what it returns. */
  datatype GraphDb = GraphDb(weeds: string -> seq<WeedHit>, crops: string -> seq<CropHit>, details: string -> Option<Details>)

  /** A value Python finds true: present and not empty. */
  predicate Truthy(s: Option<string>) { s.Some? && s.value != [] }

  /** How an f-string shows a value that may be null: the text, or `None`. */
  function PyStr(v: Option<string>): string
  {
    if v.Some? then v.value else "None"
  }

  function WeedBlock(r: WeedHit): string
  {
    Bullet + PyStr(r.herbicide) + " (" + PyStr(r.productNumber) + ")\n" +
    "  Active: " + PyStr(r.active) + "\n" +
    "  MOA Group: " + PyStr(r.moaGroup) + "\n" +
    "  Crop: " + PyStr(r.crop) + "\n" +
    "  Rate: " + PyStr(r.rate) + "\n" +
    (if Truthy(r.timing) then "  Timing: " + r.timing.value + "\n" else "") +
    "\n"
  }

  function CropBlock(r: CropHit): string
  {
    Bullet + PyStr(r.herbicide) + " (" + PyStr(r.productNumber) + ")\n" +
    "  Active: " + PyStr(r.active) + "\n" +
    "  MOA Group: " + PyStr(r.moaGroup) + "\n" +
    (if r.weedsControlled != [] then "  Controls: " + Join(", ", SliceTo(r.weedsControlled, 5)) + "\n" else "") +
    "\n"
  }

  function WeedListing(name: string, hits: seq<WeedHit>): string
  {
    if hits == [] then "No herbicides found for weed: " + name
    else "Herbicides controlling " + name + ":\n\n" + Concat(Map(SliceTo(hits, ListingCap), WeedBlock))
  }

  function CropListing(name: string, hits: seq<CropHit>): string
  {
    if hits == [] then "No herbicides found for crop: " + name
    else "Herbicides registered for " + name + ":\n\n" + Concat(Map(SliceTo(hits, ListingCap), CropBlock))
  }

  function ControlLine(wc: WeedControl): string
  {
    "  " + Bullet + PyStr(wc.weed) + " in " + PyStr(wc.crop) + ": " + PyStr(wc.rate) + "\n"
  }

  /** The lines of the herbicide report above its mode of action. */
  function DetailsTop(d: Details): string
  {
    "Herbicide Details: " + PyStr(d.productName) + "\n" +
    seq(40, _ => '=') + "\n" +
    "Product Number: " + PyStr(d.productNumber) + "\n" +
    "Active Constituent: " + PyStr(d.activeConstituent) + "\n"
  }

  function MoaLine(d: Details): string
  {
    "MOA Group: " + PyStr(d.moaGroup) + " - " + PyStr(d.moaDescription) + "\n"
  }

  function CropsLine(d: Details): string
  {
    "Registered Crops: " + Join(", ", SliceTo(d.registeredCrops, ListingCap)) + "\n"
  }

  function DetailsHead(d: Details): string
  {
    DetailsTop(d) + MoaLine(d) + CropsLine(d) + "Withholding Period: " + PyStr(d.withholdingPeriod) + "\n"
  }

  /**
   * A herbicide without a mode of action or a withholding period shows
   * `None` for them: its mode-of-action line is `MOA Group: None - None`,
   * and the report ends with the crop line and `Withholding Period: None`.
   */
  lemma MissingValuesPrintNone(d: Details)
    requires d.moaGroup.None? && d.moaDescription.None? && d.withholdingPeriod.None?
    ensures EndsWith(DetailsHead(d), CropsLine(d) + "Withholding Period: None\n")
    ensures Contains(DetailsHead(d), "MOA Group: None - None\n")
  {
    var top, moa := DetailsTop(d), MoaLine(d);
    var tail := CropsLine(d) + "Withholding Period: None\n";
    assert moa == "MOA Group: None - None\n";
    var r := DetailsHead(d);
    Pieces(r, top, moa, tail);
    ContainsAt(r, moa, |top|);
  }

  /** The middle and the end of a text made of three pieces. */
  lemma Pieces(r: string, a: string, b: string, c: string)
    requires r == a + b + c
    ensures EndsWith(r, c) && |a| <= |r| - |b| && r[|a|..|a| + |b|] == b
  {
    assert r[|r| - |c|..] == c;
  }

  function HerbicideReport(name: string, found: Option<Details>, includeControls: bool): string
  {
    match found
    case None => "Herbicide not found: " + name
    case Some(d) =>
      DetailsHead(d) +
      if includeControls && d.weedControls != [] then
        "\nWeed Controls:\n" + Concat(Map(SliceTo(d.weedControls, ControlsCap), ControlLine))
      else ""
  }

  function UnknownType(entityType: string): string
  {
    "Unknown entity type: " + entityType + ". Use 'weed', 'crop', or 'herbicide'."
  }

  /** `graph_traversal_tool`: the query and the listing chosen by the lowercased entity type. */
  function GraphOutput(entityType: string, name: string, includeControls: bool, db: GraphDb): string
  {
    var kind := Lower(entityType);
    if kind == "weed" then WeedListing(name, db.weeds(name))
    else if kind == "crop" then CropListing(name, db.crops(name))
    else if kind == "herbicide" then HerbicideReport(name, db.details(name), includeControls)
    else UnknownType(entityType)
  }

  /** `for r in results[:10]: output += <block>` */
  method AppendBlocks<T>(output0: string, results: seq<T>, cap: nat, block: T -> string) returns (output: string)
    ensures output == output0 + Concat(Map(SliceTo(results, cap), block))
  {
    var shown := SliceTo(results, cap);
    output := output0;
    for i := 0 to |shown|
      invariant output == output0 + Concat(Map(shown[..i], block))
    {
      ConcatMapNext(shown, i, block);
      AppendAssoc(output0, Concat(Map(shown[..i], block)), block(shown[i]));
      output := output + block(shown[i]);
    }
    assert shown[..|shown|] == shown;
  }

  method GraphTraversalTool(entityType: string, entityName: string, includeControls: bool, db: GraphDb)
    returns (output: string)
    ensures output == GraphOutput(entityType, entityName, includeControls, db)
  {
    if Lower(entityType) == "weed" {
      var results := db.weeds(entityName);
      if results == [] {
        return "No herbicides found for weed: " + entityName;
      }
      output := "Herbicides controlling " + entityName + ":\n\n";
      output := AppendBlocks(output, results, ListingCap, WeedBlock);
    } else if Lower(entityType) == "crop" {
      var results := db.crops(entityName);
      if results == [] {
        return "No herbicides found for crop: " + entityName;
      }
      output := "Herbicides registered for " + entityName + ":\n\n";
      output := AppendBlocks(output, results, ListingCap, CropBlock);
    } else if Lower(entityType) == "herbicide" {
      var result := db.details(entityName);
      if result.None? {
        return "Herbicide not found: " + entityName;
      }
      output := DetailsHead(result.value);
      if includeControls && result.value.weedControls != [] {
        output := output + "\nWeed Controls:\n";
        output := AppendBlocks(output, result.value.weedControls, ControlsCap, ControlLine);
      }
    } else {
      return UnknownType(entityType);
    }
  }

  /** Taking the first `n` twice is taking them once. */
  lemma SliceToTwice<T>(xs: seq<T>, n: nat)
    ensures SliceTo(SliceTo(xs, n), n) == SliceTo(xs, n)
  {
  }

  /** Weed and crop listings show at most ten rows: rows after the tenth change nothing. */
  lemma ListingsCapped(name: string, weeds: seq<WeedHit>, crops: seq<CropHit>)
    ensures |SliceTo(weeds, ListingCap)| <= ListingCap && |SliceTo(crops, ListingCap)| <= ListingCap
    ensures WeedListing(name, weeds) == WeedListing(name, SliceTo(weeds, ListingCap))
    ensures CropListing(name, crops) == CropListing(name, SliceTo(crops, ListingCap))
  {
    SliceToTwice(weeds, ListingCap);
    SliceToTwice(crops, ListingCap);
  }

  /**
   * The entity type is compared lowercased: a type in any case answers as its
   * lowercase form does; a type that is none of the three gets the guidance text.
   */
  lemma GraphDispatch(entityType: string, name: string, includeControls: bool, db: GraphDb)
    ensures Lower(entityType) in {"weed", "crop", "herbicide"} ==>
      GraphOutput(entityType, name, includeControls, db) == GraphOutput(Lower(entityType), name, includeControls, db)
    ensures Lower(entityType) !in {"weed", "crop", "herbicide"} ==>
      GraphOutput(entityType, name, includeControls, db) == UnknownType(entityType)
  {
    LowerIdempotent(entityType);
  }

  /** Controls are listed only when asked for, and at most five of them. */
  lemma ControlsOnlyWhenAsked(name: string, d: Details)
    ensures HerbicideReport(name, Some(d), false) == DetailsHead(d)
    ensures HerbicideReport(name, Some(d), true) ==
      HerbicideReport(name, Some(d.(weedControls := SliceTo(d.weedControls, ControlsCap))), true)
  {
    SliceToTwice(d.weedControls, ControlsCap);
    assert DetailsHead(d) + "" == DetailsHead(d);
    var d5 := d.(weedControls := SliceTo(d.weedControls, ControlsCap));
    assert DetailsHead(d5) == DetailsHead(d);
  }

  // ------------------------------------------------------------- hybrid search

  const ChunkCap := 5
  const HerbicideCap := 3

  datatype HybridChunk = HybridChunk(productName: Option<string>, section: string, score: string, text: string)
  datatype Mention = Mention(entityType: string, entityName: string)
  datatype HerbicideRef = HerbicideRef(productName: string, moaGroup: string, activeConstituent: string)

  /** The graph context; `None` when absent or empty. */
  datatype GraphContext = GraphContext(mentions: seq<Mention>, herbicides: seq<HerbicideRef>)

  /** What `hybrid_search` returns: its chunks (empty when absent) and the graph context. */
  datatype HybridResults = HybridResults(chunks: seq<HybridChunk>, context: Option<GraphContext>)

  /** `text[:300].replace('\n', ' ')` */
  function ShortPreview(text: string): string
  {
    ReplaceAll(SliceTo(text, 300), "\n", " ")
  }

  /** Replacing one character by one character keeps the length. */
  lemma {:induction false} ReplaceCharLength(s: string, c: char, d: char)
    ensures |ReplaceAll(s, [c], [d])| == |s|
    decreases |s|
  {
    if s != [] {
      ReplaceCharLength(s[1..], c, d);
      if s[..1] == [c] {
        assert ReplaceAll(s, [c], [d]) == [d] + ReplaceAll(s[1..], [c], [d]);
      } else {
        assert ReplaceAll(s, [c], [d]) == [s[0]] + ReplaceAll(s[1..], [c], [d]);
      }
    }
  }

  /** A chunk's short preview is one line of its first 300 characters. */
  lemma ShortPreviewSpec(text: string)
    ensures '\n' !in ShortPreview(text)
    ensures |ShortPreview(text)| == Min(|text|, 300)
  {
    ReplaceCharGone(SliceTo(text, 300), '\n', " ");
    ReplaceCharLength(SliceTo(text, 300), '\n', ' ');
  }

  function ChunkBlock(i: nat, c: HybridChunk): string
  {
    "\n[" + NatToString(i) + "] " + GetOr(c.productName, "Unknown") + " - " + c.section + "\n" +
    "    Score: " + c.score + "\n" +
    "    " + ShortPreview(c.text) + "...\n"
  }

  function MentionLine(m: Mention): string
  {
    "  " + Bullet + m.entityType + ": " + m.entityName + "\n"
  }

  function HerbicideLines(h: HerbicideRef): string
  {
    "  " + Bullet + h.productName + " (" + h.moaGroup + ")\n" +
    "    Active: " + h.activeConstituent + "\n"
  }

  function ContextSections(ctx: GraphContext): string
  {
    (if ctx.mentions != [] then "\n\nMENTIONED ENTITIES:\n" + Concat(Map(ctx.mentions, MentionLine)) else "") +
    (if ctx.herbicides != [] then
       "\n\nRELATED HERBICIDES:\n" + Concat(Map(SliceTo(ctx.herbicides, HerbicideCap), HerbicideLines))
     else "")
  }

  function HybridHead(query: string): string
  {
    "Hybrid Search Results for: '" + query + "'\n" + seq(50, _ => '=') + "\n\n" + "RELEVANT TEXT CHUNKS:\n"
  }

  function HybridOutput(query: string, expandGraph: bool, results: HybridResults): string
  {
    HybridHead(query) + Numbered(SliceTo(results.chunks, ChunkCap), ChunkBlock) +
    if expandGraph && results.context.Some? then ContextSections(results.context.value) else ""
  }

  /** `hybrid_search_tool`'s formatting. */
  method HybridSearchTool(query: string, expandGraph: bool, results: HybridResults) returns (output: string)
    ensures output == HybridOutput(query, expandGraph, results)
  {
    output := HybridHead(query);
    output := AppendNumbered(output, SliceTo(results.chunks, ChunkCap), ChunkBlock);
    if expandGraph && results.context.Some? {
      var ctx := results.context.value;
      var mentions := "";
      if ctx.mentions != [] {
        mentions := AppendBlocks("\n\nMENTIONED ENTITIES:\n", ctx.mentions, |ctx.mentions|, MentionLine);
      }
      var herbicides := "";
      if ctx.herbicides != [] {
        herbicides := AppendBlocks("\n\nRELATED HERBICIDES:\n", ctx.herbicides, HerbicideCap, HerbicideLines);
      }
      AppendAssoc(output, mentions, herbicides);
      output := output + mentions + herbicides;
    } else {
      assert output == output + "";
    }
  }

  /**
   * At most five chunks and three herbicides are shown, and the graph
   * sections only when `expand_graph` is set: without it the context is ignored.
   */
  lemma HybridCaps(query: string, expandGraph: bool, results: HybridResults)
    ensures var capped := HybridResults(SliceTo(results.chunks, ChunkCap),
        if results.context.Some? then
          Some(results.context.value.(herbicides := SliceTo(results.context.value.herbicides, HerbicideCap)))
        else None);
      HybridOutput(query, expandGraph, results) == HybridOutput(query, expandGraph, capped)
    ensures !expandGraph ==>
      HybridOutput(query, expandGraph, results) == HybridOutput(query, expandGraph, results.(context := None))
  {
    SliceToTwice(results.chunks, ChunkCap);
    if results.context.Some? {
      SliceToTwice(results.context.value.herbicides, HerbicideCap);
    }
  }

  // --------------------------------------------------------- rotation options

  const OptionCap := 3

  datatype RotationOption = RotationOption(herbicide: string, rate: string, timing: Option<string>)
  datatype MoaOptions = MoaOptions(moaGroup: string, moaDescription: string, options: seq<RotationOption>)

  function OptionLines(o: RotationOption): string
  {
    "  " + Bullet + o.herbicide + "\n" +
    "    Rate: " + o.rate + "\n" +
    (if Truthy(o.timing) then "    Timing: " + o.timing.value + "\n" else "")
  }

  function GroupBlock(g: MoaOptions): string
  {
    "GROUP " + g.moaGroup + ": " + g.moaDescription + "\n" +
    Concat(Map(SliceTo(g.options, OptionCap), OptionLines)) + "\n"
  }

  function RotationHead(currentMoa: string, crop: string, weed: string): string
  {
    "Rotation Options (excluding Group " + currentMoa + "):\n" +
    "Target: " + weed + " in " + crop + "\n" +
    seq(40, _ => '=') + "\n\n"
  }

  function RotationOutput(currentMoa: string, crop: string, weed: string, groups: seq<MoaOptions>): string
  {
    if groups == [] then
      "No rotation options found for " + weed + " in " + crop + " excluding MOA Group " + currentMoa
    else
      RotationHead(currentMoa, crop, weed) + Concat(Map(groups, GroupBlock))
  }

  /** One group of `resistance_rotation_tool`: its heading and its first three options. */
  method AppendGroup(output0: string, group: MoaOptions) returns (output: string)
    ensures output == output0 + GroupBlock(group)
  {
    output := output0 + "GROUP " + group.moaGroup + ": " + group.moaDescription + "\n";
    output := AppendBlocks(output, group.options, OptionCap, OptionLines);
    output := output + "\n";
  }

  /** `resistance_rotation_tool`'s formatting. */
  method ResistanceRotationTool(currentMoa: string, crop: string, weed: string, groups: seq<MoaOptions>)
    returns (output: string)
    ensures output == RotationOutput(currentMoa, crop, weed, groups)
  {
    if |groups| == 0 {
      return "No rotation options found for " + weed + " in " + crop + " excluding MOA Group " + currentMoa;
    }
    output := RotationHead(currentMoa, crop, weed);
    ghost var header := output;
    for i := 0 to |groups|
      invariant output == header + Concat(Map(groups[..i], GroupBlock))
    {
      ConcatMapNext(groups, i, GroupBlock);
      AppendAssoc(header, Concat(Map(groups[..i], GroupBlock)), GroupBlock(groups[i]));
      output := AppendGroup(output, groups[i]);
    }
    assert groups[..|groups|] == groups;
  }

  /** Each group shows at most three options: options after the third change nothing. */
  lemma RotationCapped(g: MoaOptions)
    ensures GroupBlock(g) == GroupBlock(g.(options := SliceTo(g.options, OptionCap)))
  {
    SliceToTwice(g.options, OptionCap);
  }
}

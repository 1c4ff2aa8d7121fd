// Loading chunks into the graph with embeddings, NEXT chains and entity links
// (packages/graph/src/graph/chunk_loader.py).

module ChunkLoader {
  import opened Base
  import opened Strings
  import opened Chunker
  import opened GraphStore
  import Sorting

  // ------------------------------------------------------------ entity linking

  const WeedPatterns: seq<string> := [
    "ryegrass", "capeweed", "wild\\s*radish", "wild\\s*oats?", "brome\\s*grass",
    "barley\\s*grass", "clover", "dock", "thistle", "fumitory", "fat\\s*hen", "charlock",
    "sow\\s*thistle", "skeleton\\s*weed", "turnip\\s*weed", "shepherd'?s?\\s*purse", "wireweed",
    "medic", "marshmallow", "sorrel", "deadnettle", "chickweed", "pigweed", "amaranth", "burr",
    "caltrop", "bindweed", "fleabane"]

  const CropPatterns: seq<string> := [
    "wheat", "barley", "canola", "lupins?", "oats?", "triticale", "pasture", "fallow",
    "chickpea", "lentils?", "field\\s*pea", "faba\\s*bean", "vetch", "cereal", "grain\\s*legume"]

  /** `re.search(pattern, text)`, as the text of the match; the regex engine itself is not modelled. */
  type Search = (string, string) -> Option<string>

  /** `match.group().replace(" ", "").lower()` */
  function MentionName(matched: string): (r: string)
    ensures NoUpper(r) && ' ' !in r
  {
    LowerHasNoUpper(RemoveChar(matched, ' '));
    Lower(RemoveChar(matched, ' '))
  }

  /** One name per pattern that matches, in pattern order. */
  function Mentions(patterns: seq<string>, textLower: string, search: Search): (r: seq<string>)
    ensures |r| <= |patterns|
    ensures forall n :: n in r ==> NoUpper(n) && ' ' !in n
    decreases |patterns|
  {
    if |patterns| == 0 then []
    else
      var prev := Mentions(patterns[..|patterns| - 1], textLower, search);
      var m := search(patterns[|patterns| - 1], textLower);
      assert forall i :: 0 <= i < |patterns| - 1 ==> patterns[..|patterns| - 1][i] == patterns[i];
      if m.Some? then prev + [MentionName(m.value)] else prev
  }

  /** Every pattern that matches contributes its name. */
  lemma {:induction false} MentionsComplete(patterns: seq<string>, textLower: string, search: Search, i: nat)
    requires i < |patterns| && search(patterns[i], textLower).Some?
    ensures MentionName(search(patterns[i], textLower).value) in Mentions(patterns, textLower, search)
    decreases |patterns|
  {
    if i < |patterns| - 1 {
      assert patterns[..|patterns| - 1][i] == patterns[i];
      MentionsComplete(patterns[..|patterns| - 1], textLower, search, i);
    }
  }

  /** Every name comes from a pattern that matched. */
  lemma {:induction false} MentionsSound(patterns: seq<string>, textLower: string, search: Search, n: string)
    requires n in Mentions(patterns, textLower, search)
    ensures exists i :: 0 <= i < |patterns| && search(patterns[i], textLower).Some?
                        && n == MentionName(search(patterns[i], textLower).value)
    decreases |patterns|
  {
    var prefix := patterns[..|patterns| - 1];
    if n in Mentions(prefix, textLower, search) {
      MentionsSound(prefix, textLower, search, n);
      var i :| 0 <= i < |prefix| && search(prefix[i], textLower).Some?
               && n == MentionName(search(prefix[i], textLower).value);
      assert prefix[i] == patterns[i];
    }
  }

  /** `extract_entity_mentions`: weed and crop names found in the lowercased text, each once. */
  function ExtractEntityMentions(text: string, search: Search): (seq<string>, seq<string>)
  {
    var textLower := Lower(text);
    (Dedup(Mentions(WeedPatterns, textLower, search)), Dedup(Mentions(CropPatterns, textLower, search)))
  }

  /** At most one name per pattern, none repeated, each lowercase without spaces. */
  lemma ExtractedShape(text: string, search: Search)
    ensures var r := ExtractEntityMentions(text, search);
      |r.0| <= |WeedPatterns| && |r.1| <= |CropPatterns| && NoDuplicates(r.0) && NoDuplicates(r.1)
      && forall n :: n in r.0 || n in r.1 ==> NoUpper(n) && ' ' !in n
  {
  }

  /** The weed names are exactly the names of the weed patterns that match, and likewise for crops. */
  lemma ExtractedNames(text: string, search: Search)
    ensures forall n :: n in ExtractEntityMentions(text, search).0 <==>
      exists i :: 0 <= i < |WeedPatterns| && search(WeedPatterns[i], Lower(text)).Some?
                  && n == MentionName(search(WeedPatterns[i], Lower(text)).value)
    ensures forall n :: n in ExtractEntityMentions(text, search).1 <==>
      exists i :: 0 <= i < |CropPatterns| && search(CropPatterns[i], Lower(text)).Some?
                  && n == MentionName(search(CropPatterns[i], Lower(text)).value)
  {
    var r := ExtractEntityMentions(text, search);
    forall n | n in r.0 {
      MentionsSound(WeedPatterns, Lower(text), search, n);
    }
    forall n | n in r.1 {
      MentionsSound(CropPatterns, Lower(text), search, n);
    }
    forall i | 0 <= i < |WeedPatterns| && search(WeedPatterns[i], Lower(text)).Some? {
      MentionsComplete(WeedPatterns, Lower(text), search, i);
    }
    forall i | 0 <= i < |CropPatterns| && search(CropPatterns[i], Lower(text)).Some? {
      MentionsComplete(CropPatterns, Lower(text), search, i);
    }
  }

  /** Only the lowercased text matters: matching is case-insensitive. */
  lemma MentionsIgnoreCase(text: string, search: Search)
    ensures ExtractEntityMentions(Lower(text), search) == ExtractEntityMentions(text, search)
  {
    LowerIdempotent(text);
  }

  lemma {:induction false} MentionsNone(patterns: seq<string>, textLower: string, search: Search)
    requires forall i :: 0 <= i < |patterns| ==> search(patterns[i], textLower).None?
    ensures Mentions(patterns, textLower, search) == []
    decreases |patterns|
  {
    if |patterns| != 0 {
      MentionsNone(patterns[..|patterns| - 1], textLower, search);
    }
  }

  /** Text no pattern matches mentions nothing. */
  lemma NoMatchNoMentions(text: string, search: Search)
    requires forall i :: 0 <= i < |WeedPatterns| ==> search(WeedPatterns[i], Lower(text)).None?
    requires forall i :: 0 <= i < |CropPatterns| ==> search(CropPatterns[i], Lower(text)).None?
    ensures ExtractEntityMentions(text, search) == ([], [])
  {
    MentionsNone(WeedPatterns, Lower(text), search);
    MentionsNone(CropPatterns, Lower(text), search);
  }

  // ------------------------------------------------------------ graph writes

  function DocKey(productNumber: string): NodeKey { NodeKey("Document", "product_number", productNumber) }

  function ChunkKey(chunkId: string): NodeKey { NodeKey("Chunk", "chunk_id", chunkId) }

  function ChunkTypeName(t: ChunkType): string
  {
    match t
    case TableChunk => "table"
    case MetadataChunk => "metadata"
    case DirectionsChunk => "directions"
    case WeedTableChunk => "weed_table"
  }

  function IntOrNull(o: Option<int>): Option<Value> { if o.Some? then Some(Int(o.value)) else None }

  /** The SET clause on the Document node; `now` stands for Cypher's `datetime()`. */
  function DocUpdates(fileName: string, chunkCount: nat, now: string): seq<Update>
  {
    [Update("source_file", Some(Text(fileName))), Update("chunk_count", Some(Int(chunkCount))),
     Update("loaded_at", Some(Text(now)))]
  }

  /** The SET clause on a Chunk node: the raw text is stored, the embedding is of the contextualized text. */
  function ChunkUpdates(c: Chunk, productNumber: string, embedding: seq<real>): seq<Update>
  {
    [Update("text", Some(Text(c.text))),
     Update("chunk_type", Some(Text(ChunkTypeName(c.chunkType)))),
     Update("sequence_order", Some(Int(c.sequenceOrder))),
     Update("parent_section", if c.parentSection.Some? then Some(Text(SectionName(c.parentSection.value))) else None),
     Update("table_id", Some(Text(c.tableId))),
     Update("row_count", IntOrNull(c.rowCount)),
     Update("column_count", IntOrNull(c.columnCount)),
     Update("product_number", Some(Text(productNumber))),
     Update("embedding", Some(Vector(embedding)))]
  }

  /** `toLower(x.name) CONTAINS $pattern`; a missing or non-text property never matches. */
  predicate PropContains(p: Props, name: string, pattern: string)
  {
    name in p && p[name].Text? && Contains(Lower(p[name].s), pattern)
  }

  /** The `kind` nodes whose `nameProp` or `display_name` contains `pattern`, lowercased. */
  function Targets(nodes: map<NodeKey, Props>, kind: string, nameProp: string, pattern: string): (r: set<NodeKey>)
    ensures r <= nodes.Keys
    ensures forall k :: k in r ==> k.kind == kind
  {
    set k | k in nodes && k.kind == kind
      && (PropContains(nodes[k], nameProp, pattern) || PropContains(nodes[k], "display_name", pattern))
  }

  /** The MENTIONS writes for one list of names, one query per name. */
  function LinkAll(g: Graph, from: NodeKey, kind: string, nameProp: string, names: seq<string>): (r: Graph)
    ensures r.nodes == g.nodes
    decreases |names|
  {
    if |names| == 0 then g
    else
      var h := LinkAll(g, from, kind, nameProp, names[..|names| - 1]);
      MergeEdgesTo(h, from, "MENTIONS", Targets(h.nodes, kind, nameProp, names[|names| - 1]))
  }

  /** The sum of the `count(*)` the MENTIONS queries return: one row per matched node and name. */
  function MatchCount(nodes: map<NodeKey, Props>, kind: string, nameProp: string, names: seq<string>): nat
    decreases |names|
  {
    if |names| == 0 then 0
    else MatchCount(nodes, kind, nameProp, names[..|names| - 1]) + |Targets(nodes, kind, nameProp, names[|names| - 1])|
  }

  /** Everything the environment supplies: the abstract pattern matchers, hash and embedder, and the clock. */
  datatype Env = Env(
    matches: (Section, string) -> bool,
    hash: string -> string,
    search: Search,
    embed: seq<string> -> seq<seq<real>>,
    now: string,
    linkEntities: bool)

  /** `chunk_docling_json(docling_path)` uses the default `max_chunk_tokens`. */
  const MaxChunkTokens: nat := 512

  function ChunkerConfig(fileName: string, env: Env): Config
  {
    ConfigFor(fileName, MaxChunkTokens, env.matches, env.hash)
  }

  function NextEdge(chunks: seq<Chunk>, i: nat): EdgeKey
    requires 0 < i < |chunks|
  {
    EdgeKey(ChunkKey(chunks[i - 1].chunkId), "NEXT", ChunkKey(chunks[i].chunkId), None)
  }

  function ContainsEdge(productNumber: string, c: Chunk): EdgeKey
  {
    EdgeKey(DocKey(productNumber), "CONTAINS_CHUNK", ChunkKey(c.chunkId), None)
  }

  /** Steps 1 and 2: the Document node and its HAS_LABEL link to the Herbicide, if that exists. */
  function LoadStart(g: Graph, productNumber: string, fileName: string, chunkCount: nat, now: string): Graph
  {
    var doc := DocKey(productNumber);
    var g1 := SetNode(MergeNode(g, doc), doc, DocUpdates(fileName, chunkCount, now));
    MergeEdge(g1, EdgeKey(HerbicideKey(productNumber), "HAS_LABEL", doc, None))
  }

  /** The graph and the counters of `load_chunks_from_docling` part way through its chunk loop. */
  datatype Progress = Progress(graph: Graph, nextRels: nat, mentionsWeeds: nat, mentionsCrops: nat)

  /** Steps 3 and 4 for chunk `i`: the Chunk node, its CONTAINS_CHUNK link and the NEXT link from its predecessor. */
  function ChunkNode(p: Progress, productNumber: string, chunks: seq<Chunk>, embeddings: seq<seq<real>>, i: nat): Progress
    requires i < |chunks| && i < |embeddings|
  {
    var c := chunks[i];
    var ck := ChunkKey(c.chunkId);
    var g1 := SetNode(MergeNode(p.graph, ck), ck, ChunkUpdates(c, productNumber, embeddings[i]));
    var g2 := MergeEdge(g1, ContainsEdge(productNumber, c));
    if 0 < i then Progress(MergeEdge(g2, NextEdge(chunks, i)), p.nextRels + 1, p.mentionsWeeds, p.mentionsCrops)
    else Progress(g2, p.nextRels, p.mentionsWeeds, p.mentionsCrops)
  }

  /**
   * Step 5 for the chunk `ck`: the MENTIONS links to the weeds and crops it names. Each query
   * counts one row per matching node, matched in the graph as it stands when the query runs.
   */
  function LinkChunk(p: Progress, ck: NodeKey, weeds: seq<string>, crops: seq<string>): Progress
  {
    var g := LinkAll(p.graph, ck, "Weed", "common_name", weeds);
    Progress(LinkAll(g, ck, "Crop", "name", crops), p.nextRels,
             p.mentionsWeeds + MatchCount(p.graph.nodes, "Weed", "common_name", weeds),
             p.mentionsCrops + MatchCount(g.nodes, "Crop", "name", crops))
  }

  /** Steps 3 to 5 for chunk `i`. */
  function LoadChunk(p: Progress, productNumber: string, chunks: seq<Chunk>, embeddings: seq<seq<real>>,
                     i: nat, env: Env): Progress
    requires i < |chunks| && i < |embeddings|
  {
    var q := ChunkNode(p, productNumber, chunks, embeddings, i);
    if env.linkEntities then
      var names := ExtractEntityMentions(chunks[i].text, env.search);
      LinkChunk(q, ChunkKey(chunks[i].chunkId), names.0, names.1)
    else q
  }

  /**
   * The graph and counters after the first `n` pairs of `zip(chunks, embeddings)` have been
   * written; the zip has no pair past the end of the shorter list.
   */
  function LoadUpTo(g: Graph, productNumber: string, fileName: string, chunks: seq<Chunk>,
                    embeddings: seq<seq<real>>, n: nat, env: Env): Progress
    decreases n, 1
  {
    if n == 0 then Progress(LoadStart(g, productNumber, fileName, |chunks|, env.now), 0, 0, 0)
    else LoadPair(g, productNumber, fileName, chunks, embeddings, n, env)
  }

  /** The `n`-th turn of the loop, pair `n - 1`, on top of the turns before it. */
  function LoadPair(g: Graph, productNumber: string, fileName: string, chunks: seq<Chunk>,
                    embeddings: seq<seq<real>>, n: nat, env: Env): Progress
    requires 0 < n
    decreases n, 0
  {
    var p := LoadUpTo(g, productNumber, fileName, chunks, embeddings, n - 1, env);
    if n - 1 < |chunks| && n - 1 < |embeddings| then LoadChunk(p, productNumber, chunks, embeddings, n - 1, env)
    else p
  }

  /** The statistics `load_chunks_from_docling` returns. */
  datatype LoadStats = LoadStats(
    productNumber: string,
    chunks: nat,
    nextRels: nat,
    mentionsWeeds: nat,
    mentionsCrops: nat,
    error: Option<string>)

  /** The texts handed to the embedder: one contextualized text per chunk. */
  function EmbeddingInputs(chunks: seq<Chunk>): (r: seq<string>)
    ensures |r| == |chunks| && forall i :: 0 <= i < |chunks| ==> r[i] == Contextualize(chunks[i])
  {
    seq(|chunks|, i requires 0 <= i < |chunks| => Contextualize(chunks[i]))
  }

  /** How many chunks are written: `zip` stops at the shorter of the chunk and embedding lists. */
  function Written(chunks: seq<Chunk>, env: Env): nat
  {
    Min(|chunks|, |env.embed(EmbeddingInputs(chunks))|)
  }

  /**
   * `load_chunks_from_docling` on one file: `None` when the chunker raised, else the graph
   * after the writes and the statistics.
   */
  function LoadFile(g: Graph, fileName: string, tables: seq<Table>, env: Env): (Graph, Option<LoadStats>)
  {
    match ChunkAll(ChunkerConfig(fileName, env), tables)
    case None => (g, None)
    case Some(chunks) =>
      if |chunks| == 0 then (g, Some(LoadStats("", 0, 0, 0, 0, Some("No chunks generated"))))
      else
        var pn := chunks[0].productNumber;
        var embeddings := env.embed(EmbeddingInputs(chunks));
        var p := LoadUpTo(g, pn, fileName, chunks, embeddings, Written(chunks, env), env);
        (p.graph, Some(LoadStats(pn, |chunks|, p.nextRels, p.mentionsWeeds, p.mentionsCrops, None)))
  }

  // ---------------------------------------------------- the entity nodes stay put

  /** The loader writes Document and Chunk nodes only; every other label is an entity. */
  predicate IsEntityKey(k: NodeKey) { k.kind != "Document" && k.kind != "Chunk" }

  /** The entity nodes of a graph with their properties. */
  function EntityNodes(nodes: map<NodeKey, Props>): map<NodeKey, Props>
  {
    map k | k in nodes && IsEntityKey(k) :: nodes[k]
  }

  /** Two node maps agree on every node that is not a Document or a Chunk. */
  predicate SameEntities(a: map<NodeKey, Props>, b: map<NodeKey, Props>)
  {
    EntityNodes(a) == EntityNodes(b)
  }

  /** Writing a node that is not an entity leaves the entity nodes as they were. */
  lemma EntitiesIgnore(nodes: map<NodeKey, Props>, k: NodeKey, v: Props)
    requires !IsEntityKey(k)
    ensures EntityNodes(nodes[k := v]) == EntityNodes(nodes)
  {
    assert EntityNodes(nodes[k := v]).Keys == EntityNodes(nodes).Keys;
  }

  lemma TargetsSame(a: map<NodeKey, Props>, b: map<NodeKey, Props>, kind: string, nameProp: string, pattern: string)
    requires SameEntities(a, b) && kind != "Document" && kind != "Chunk"
    ensures Targets(a, kind, nameProp, pattern) == Targets(b, kind, nameProp, pattern)
  {
    forall k | k in Targets(a, kind, nameProp, pattern) ensures k in Targets(b, kind, nameProp, pattern) {
      assert k in EntityNodes(a);
    }
    forall k | k in Targets(b, kind, nameProp, pattern) ensures k in Targets(a, kind, nameProp, pattern) {
      assert k in EntityNodes(b);
    }
  }

  lemma {:induction false} MatchCountSame(a: map<NodeKey, Props>, b: map<NodeKey, Props>, kind: string, nameProp: string, names: seq<string>)
    requires SameEntities(a, b) && kind != "Document" && kind != "Chunk"
    ensures MatchCount(a, kind, nameProp, names) == MatchCount(b, kind, nameProp, names)
    decreases |names|
  {
    if |names| != 0 {
      MatchCountSame(a, b, kind, nameProp, names[..|names| - 1]);
      TargetsSame(a, b, kind, nameProp, names[|names| - 1]);
    }
  }

  /** Steps 3 and 4 touch only the Chunk node and count one NEXT link for every chunk after the first. */
  lemma ChunkNodeStep(base: map<NodeKey, Props>, p: Progress, productNumber: string, chunks: seq<Chunk>,
                      embeddings: seq<seq<real>>, i: nat)
    requires i < |chunks| && i < |embeddings| && SameEntities(base, p.graph.nodes)
    ensures var q := ChunkNode(p, productNumber, chunks, embeddings, i);
      SameEntities(base, q.graph.nodes)
      && q.nextRels == (if 0 < i then p.nextRels + 1 else p.nextRels)
      && q.mentionsWeeds == p.mentionsWeeds && q.mentionsCrops == p.mentionsCrops
  {
    var ck := ChunkKey(chunks[i].chunkId);
    var g0 := MergeNode(p.graph, ck);
    if ck !in p.graph.nodes {
      EntitiesIgnore(p.graph.nodes, ck, NewNodeProps(ck));
    }
    var us := ChunkUpdates(chunks[i], productNumber, embeddings[i]);
    EntitiesIgnore(g0.nodes, ck, SetProps(g0.nodes[ck], us));
  }

  lemma LoadChunkNext(p: Progress, productNumber: string, chunks: seq<Chunk>, embeddings: seq<seq<real>>, i: nat, env: Env)
    requires i < |chunks| && i < |embeddings|
    ensures LoadChunk(p, productNumber, chunks, embeddings, i, env).nextRels == if 0 < i then p.nextRels + 1 else p.nextRels
  {
  }

  /** One chunk leaves the entity nodes alone. */
  lemma LoadChunkEntities(base: map<NodeKey, Props>, p: Progress, productNumber: string, chunks: seq<Chunk>,
                          embeddings: seq<seq<real>>, i: nat, env: Env)
    requires i < |chunks| && i < |embeddings| && SameEntities(base, p.graph.nodes)
    ensures SameEntities(base, LoadChunk(p, productNumber, chunks, embeddings, i, env).graph.nodes)
  {
    ChunkNodeStep(base, p, productNumber, chunks, embeddings, i);
  }

  /** The weed MENTIONS count of one chunk is that of the Weed nodes of `base`. */
  lemma LoadChunkWeeds(base: map<NodeKey, Props>, p: Progress, productNumber: string, chunks: seq<Chunk>,
                       embeddings: seq<seq<real>>, i: nat, env: Env)
    requires i < |chunks| && i < |embeddings| && SameEntities(base, p.graph.nodes)
    ensures LoadChunk(p, productNumber, chunks, embeddings, i, env).mentionsWeeds
         == p.mentionsWeeds + if env.linkEntities
              then MatchCount(base, "Weed", "common_name", ExtractEntityMentions(chunks[i].text, env.search).0) else 0
  {
    ChunkNodeStep(base, p, productNumber, chunks, embeddings, i);
    if env.linkEntities {
      var q := ChunkNode(p, productNumber, chunks, embeddings, i);
      MatchCountSame(base, q.graph.nodes, "Weed", "common_name", ExtractEntityMentions(chunks[i].text, env.search).0);
    }
  }

  /** The crop MENTIONS count of one chunk is that of the Crop nodes of `base`. */
  lemma LoadChunkCrops(base: map<NodeKey, Props>, p: Progress, productNumber: string, chunks: seq<Chunk>,
                       embeddings: seq<seq<real>>, i: nat, env: Env)
    requires i < |chunks| && i < |embeddings| && SameEntities(base, p.graph.nodes)
    ensures LoadChunk(p, productNumber, chunks, embeddings, i, env).mentionsCrops
         == p.mentionsCrops + if env.linkEntities
              then MatchCount(base, "Crop", "name", ExtractEntityMentions(chunks[i].text, env.search).1) else 0
  {
    ChunkNodeStep(base, p, productNumber, chunks, embeddings, i);
    if env.linkEntities {
      var q := ChunkNode(p, productNumber, chunks, embeddings, i);
      var names := ExtractEntityMentions(chunks[i].text, env.search);
      MatchCountSame(base, LinkAll(q.graph, ChunkKey(chunks[i].chunkId), "Weed", "common_name", names.0).nodes,
                     "Crop", "name", names.1);
    }
  }

  /** Steps 1 and 2 write the Document node only. */
  lemma LoadStartEntities(g: Graph, productNumber: string, fileName: string, chunkCount: nat, now: string)
    ensures SameEntities(g.nodes, LoadStart(g, productNumber, fileName, chunkCount, now).nodes)
  {
    var doc := DocKey(productNumber);
    var g0 := MergeNode(g, doc);
    if doc !in g.nodes {
      EntitiesIgnore(g.nodes, doc, NewNodeProps(doc));
    }
    EntitiesIgnore(g0.nodes, doc, SetProps(g0.nodes[doc], DocUpdates(fileName, chunkCount, now)));
  }

  /** Loading writes only Document and Chunk nodes: Herbicide, Weed and Crop nodes are left as they were. */
  lemma {:induction false} LoadKeepsEntities(g: Graph, productNumber: string, fileName: string, chunks: seq<Chunk>,
                                             embeddings: seq<seq<real>>, n: nat, env: Env)
    ensures SameEntities(g.nodes, LoadUpTo(g, productNumber, fileName, chunks, embeddings, n, env).graph.nodes)
    decreases n
  {
    if n == 0 {
      LoadStartEntities(g, productNumber, fileName, |chunks|, env.now);
    } else {
      LoadKeepsEntities(g, productNumber, fileName, chunks, embeddings, n - 1, env);
      LoadUpToUnfold(g, productNumber, fileName, chunks, embeddings, n, env);
      LoadPairEntities(g.nodes, LoadUpTo(g, productNumber, fileName, chunks, embeddings, n - 1, env),
                       LoadUpTo(g, productNumber, fileName, chunks, embeddings, n, env), productNumber, chunks, embeddings, n - 1, env);
    }
  }

  /** One turn of the loop, from `p` to `q`, keeps the entity nodes of `base`. */
  lemma LoadPairEntities(base: map<NodeKey, Props>, p: Progress, q: Progress, productNumber: string, chunks: seq<Chunk>,
                         embeddings: seq<seq<real>>, i: nat, env: Env)
    requires SameEntities(base, p.graph.nodes)
    requires q == if i < |chunks| && i < |embeddings| then LoadChunk(p, productNumber, chunks, embeddings, i, env) else p
    ensures SameEntities(base, q.graph.nodes)
  {
    if i < |chunks| && i < |embeddings| {
      LoadChunkEntities(base, p, productNumber, chunks, embeddings, i, env);
    }
  }

  /** Turn `n` of the loop: pair `n - 1` written on top of the turns before it, when both lists reach it. */
  lemma LoadUpToUnfold(g: Graph, productNumber: string, fileName: string, chunks: seq<Chunk>,
                       embeddings: seq<seq<real>>, n: nat, env: Env)
    requires 0 < n
    ensures var p := LoadUpTo(g, productNumber, fileName, chunks, embeddings, n - 1, env);
      LoadUpTo(g, productNumber, fileName, chunks, embeddings, n, env)
      == if n - 1 < |chunks| && n - 1 < |embeddings| then LoadChunk(p, productNumber, chunks, embeddings, n - 1, env) else p
  {
    assert LoadUpTo(g, productNumber, fileName, chunks, embeddings, n, env)
        == LoadPair(g, productNumber, fileName, chunks, embeddings, n, env);
  }

  /** The weed links the MENTIONS queries of the first `n` chunks report, matched against `nodes`. */
  function WeedLinks(nodes: map<NodeKey, Props>, chunks: seq<Chunk>, n: nat, search: Search): nat
    requires n <= |chunks|
    decreases n
  {
    if n == 0 then 0
    else WeedLinks(nodes, chunks, n - 1, search)
         + MatchCount(nodes, "Weed", "common_name", ExtractEntityMentions(chunks[n - 1].text, search).0)
  }

  /** The crop links the MENTIONS queries of the first `n` chunks report, matched against `nodes`. */
  function CropLinks(nodes: map<NodeKey, Props>, chunks: seq<Chunk>, n: nat, search: Search): nat
    requires n <= |chunks|
    decreases n
  {
    if n == 0 then 0
    else CropLinks(nodes, chunks, n - 1, search)
         + MatchCount(nodes, "Crop", "name", ExtractEntityMentions(chunks[n - 1].text, search).1)
  }

  /** One NEXT link is counted for every chunk after the first. */
  lemma {:induction false} LoadCountsNext(g: Graph, productNumber: string, fileName: string, chunks: seq<Chunk>,
                                          embeddings: seq<seq<real>>, n: nat, env: Env)
    requires n <= |chunks| && n <= |embeddings|
    ensures LoadUpTo(g, productNumber, fileName, chunks, embeddings, n, env).nextRels == if n == 0 then 0 else n - 1
    decreases n
  {
    if n != 0 {
      LoadCountsNext(g, productNumber, fileName, chunks, embeddings, n - 1, env);
      var p := LoadUpTo(g, productNumber, fileName, chunks, embeddings, n - 1, env);
      LoadChunkNext(p, productNumber, chunks, embeddings, n - 1, env);
    }
  }

  /** The weed MENTIONS count is that of the Weed nodes that were in the graph before loading began. */
  lemma {:induction false} LoadCountsWeeds(g: Graph, productNumber: string, fileName: string, chunks: seq<Chunk>,
                                           embeddings: seq<seq<real>>, n: nat, env: Env)
    requires n <= |chunks| && n <= |embeddings|
    ensures LoadUpTo(g, productNumber, fileName, chunks, embeddings, n, env).mentionsWeeds
         == if env.linkEntities then WeedLinks(g.nodes, chunks, n, env.search) else 0
    decreases n
  {
    if n != 0 {
      LoadCountsWeeds(g, productNumber, fileName, chunks, embeddings, n - 1, env);
      LoadKeepsEntities(g, productNumber, fileName, chunks, embeddings, n - 1, env);
      var p := LoadUpTo(g, productNumber, fileName, chunks, embeddings, n - 1, env);
      LoadChunkWeeds(g.nodes, p, productNumber, chunks, embeddings, n - 1, env);
    }
  }

  /** The crop MENTIONS count is that of the Crop nodes that were in the graph before loading began. */
  lemma {:induction false} LoadCountsCrops(g: Graph, productNumber: string, fileName: string, chunks: seq<Chunk>,
                                           embeddings: seq<seq<real>>, n: nat, env: Env)
    requires n <= |chunks| && n <= |embeddings|
    ensures LoadUpTo(g, productNumber, fileName, chunks, embeddings, n, env).mentionsCrops
         == if env.linkEntities then CropLinks(g.nodes, chunks, n, env.search) else 0
    decreases n
  {
    if n != 0 {
      LoadCountsCrops(g, productNumber, fileName, chunks, embeddings, n - 1, env);
      LoadKeepsEntities(g, productNumber, fileName, chunks, embeddings, n - 1, env);
      var p := LoadUpTo(g, productNumber, fileName, chunks, embeddings, n - 1, env);
      LoadChunkCrops(g.nodes, p, productNumber, chunks, embeddings, n - 1, env);
    }
  }

  // ------------------------------------------------------- what the load writes

  /** The MENTIONS edges from `from` to every node a name matches. */
  function MentionEdges(nodes: map<NodeKey, Props>, from: NodeKey, kind: string, nameProp: string,
                        names: seq<string>): set<EdgeKey>
    decreases |names|
  {
    if |names| == 0 then {}
    else MentionEdges(nodes, from, kind, nameProp, names[..|names| - 1])
         + set t | t in Targets(nodes, kind, nameProp, names[|names| - 1]) :: EdgeKey(from, "MENTIONS", t, None)
  }

  /** The MENTIONS queries add exactly the edges to the matching nodes, and only when the chunk exists. */
  lemma {:induction false} LinkAllEdges(g: Graph, from: NodeKey, kind: string, nameProp: string, names: seq<string>)
    ensures LinkAll(g, from, kind, nameProp, names).edges.Keys
         == g.edges.Keys + if from in g.nodes then MentionEdges(g.nodes, from, kind, nameProp, names) else {}
    decreases |names|
  {
    if |names| != 0 {
      LinkAllEdges(g, from, kind, nameProp, names[..|names| - 1]);
      var h := LinkAll(g, from, kind, nameProp, names[..|names| - 1]);
      MergeEdgesToSpec(h, from, "MENTIONS", Targets(h.nodes, kind, nameProp, names[|names| - 1]));
    }
  }

  /** The NEXT link into chunk `i`, if it has a predecessor. */
  function NextEdges(chunks: seq<Chunk>, i: nat): set<EdgeKey>
    requires i < |chunks|
  {
    if 0 < i then {NextEdge(chunks, i)} else {}
  }

  /**
   * Steps 3 and 4 write chunk `i`, link it from the Document and, when it has a predecessor,
   * link that to it; nothing else is added.
   */
  lemma ChunkNodeWrites(p: Progress, productNumber: string, chunks: seq<Chunk>, embeddings: seq<seq<real>>, i: nat)
    requires i < |chunks| && i < |embeddings|
    requires DocKey(productNumber) in p.graph.nodes && (0 < i ==> ChunkKey(chunks[i - 1].chunkId) in p.graph.nodes)
    ensures var q := ChunkNode(p, productNumber, chunks, embeddings, i);
      q.graph.nodes.Keys == p.graph.nodes.Keys + {ChunkKey(chunks[i].chunkId)}
      && q.graph.edges.Keys == p.graph.edges.Keys + {ContainsEdge(productNumber, chunks[i])} + NextEdges(chunks, i)
  {
    var ck := ChunkKey(chunks[i].chunkId);
    MergeNodeSpec(p.graph, ck);
    var g1 := SetNode(MergeNode(p.graph, ck), ck, ChunkUpdates(chunks[i], productNumber, embeddings[i]));
    SetNodeSpec(MergeNode(p.graph, ck), ck, ChunkUpdates(chunks[i], productNumber, embeddings[i]));
    MergeEdgeSpec(g1, ContainsEdge(productNumber, chunks[i]));
    if 0 < i {
      MergeEdgeSpec(MergeEdge(g1, ContainsEdge(productNumber, chunks[i])), NextEdge(chunks, i));
    }
  }

  /** The MENTIONS links of chunk `i` to the weeds and crops of `nodes` its text names. */
  function ChunkMentions(nodes: map<NodeKey, Props>, chunks: seq<Chunk>, i: nat, search: Search): set<EdgeKey>
    requires i < |chunks|
  {
    var names := ExtractEntityMentions(chunks[i].text, search);
    var ck := ChunkKey(chunks[i].chunkId);
    MentionEdges(nodes, ck, "Weed", "common_name", names.0) + MentionEdges(nodes, ck, "Crop", "name", names.1)
  }

  lemma {:induction false} MentionEdgesSame(a: map<NodeKey, Props>, b: map<NodeKey, Props>, from: NodeKey,
                                            kind: string, nameProp: string, names: seq<string>)
    requires SameEntities(a, b) && kind != "Document" && kind != "Chunk"
    ensures MentionEdges(a, from, kind, nameProp, names) == MentionEdges(b, from, kind, nameProp, names)
    decreases |names|
  {
    if |names| != 0 {
      MentionEdgesSame(a, b, from, kind, nameProp, names[..|names| - 1]);
      TargetsSame(a, b, kind, nameProp, names[|names| - 1]);
    }
  }

  /** Keeping only the entity nodes twice keeps the same nodes as keeping them once. */
  lemma EntityNodesTwice(nodes: map<NodeKey, Props>)
    ensures SameEntities(EntityNodes(nodes), nodes)
  {
    assert EntityNodes(EntityNodes(nodes)).Keys == EntityNodes(nodes).Keys;
  }

  /** Step 5 adds exactly the MENTIONS links of the chunk, matched against the entity nodes of `base`. */
  lemma LinkChunkWrites(base: map<NodeKey, Props>, q: Progress, chunks: seq<Chunk>, i: nat, search: Search)
    requires i < |chunks| && SameEntities(base, q.graph.nodes) && ChunkKey(chunks[i].chunkId) in q.graph.nodes
    ensures var names := ExtractEntityMentions(chunks[i].text, search);
      var r := LinkChunk(q, ChunkKey(chunks[i].chunkId), names.0, names.1);
      r.graph.nodes == q.graph.nodes
      && r.graph.edges.Keys == q.graph.edges.Keys + ChunkMentions(EntityNodes(base), chunks, i, search)
  {
    var names := ExtractEntityMentions(chunks[i].text, search);
    var ck := ChunkKey(chunks[i].chunkId);
    LinkAllEdges(q.graph, ck, "Weed", "common_name", names.0);
    LinkAllEdges(LinkAll(q.graph, ck, "Weed", "common_name", names.0), ck, "Crop", "name", names.1);
    EntityNodesTwice(base);
    MentionEdgesSame(EntityNodes(base), q.graph.nodes, ck, "Weed", "common_name", names.0);
    MentionEdgesSame(EntityNodes(base), q.graph.nodes, ck, "Crop", "name", names.1);
  }

  /** The links steps 3 to 5 add for chunk `i`. */
  function ChunkLinks(base: map<NodeKey, Props>, productNumber: string, chunks: seq<Chunk>, i: nat, env: Env): set<EdgeKey>
    requires i < |chunks|
  {
    {ContainsEdge(productNumber, chunks[i])} + NextEdges(chunks, i)
    + if env.linkEntities then ChunkMentions(EntityNodes(base), chunks, i, env.search) else {}
  }

  /** With entity linking on, steps 3 to 5 add the chunk's structural links and its MENTIONS links. */
  lemma LinkedChunkWrites(base: map<NodeKey, Props>, p: Progress, productNumber: string, chunks: seq<Chunk>,
                          embeddings: seq<seq<real>>, i: nat, env: Env)
    requires i < |chunks| && i < |embeddings| && SameEntities(base, p.graph.nodes) && env.linkEntities
    requires DocKey(productNumber) in p.graph.nodes && (0 < i ==> ChunkKey(chunks[i - 1].chunkId) in p.graph.nodes)
    ensures LoadChunk(p, productNumber, chunks, embeddings, i, env).graph.edges.Keys
         == p.graph.edges.Keys + ({ContainsEdge(productNumber, chunks[i])} + NextEdges(chunks, i))
            + ChunkMentions(EntityNodes(base), chunks, i, env.search)
  {
    var q := ChunkNode(p, productNumber, chunks, embeddings, i);
    var names := ExtractEntityMentions(chunks[i].text, env.search);
    assert LoadChunk(p, productNumber, chunks, embeddings, i, env) == LinkChunk(q, ChunkKey(chunks[i].chunkId), names.0, names.1);
    ChunkNodeWrites(p, productNumber, chunks, embeddings, i);
    ChunkNodeStep(base, p, productNumber, chunks, embeddings, i);
    assert ChunkKey(chunks[i].chunkId) in q.graph.nodes.Keys;
    LinkChunkWrites(base, q, chunks, i, env.search);
    SetsAppend(p.graph.edges.Keys, {ContainsEdge(productNumber, chunks[i])}, NextEdges(chunks, i),
               ChunkMentions(EntityNodes(base), chunks, i, env.search));
  }

  lemma SetsAppend<T>(a: set<T>, b: set<T>, c: set<T>, d: set<T>)
    ensures a + b + c + d == a + (b + c) + d
  {
  }

  /** Steps 3 to 5 add exactly the links of chunk `i` as edges. */
  lemma LoadChunkWrites(base: map<NodeKey, Props>, p: Progress, productNumber: string, chunks: seq<Chunk>,
                        embeddings: seq<seq<real>>, i: nat, env: Env)
    requires i < |chunks| && i < |embeddings| && SameEntities(base, p.graph.nodes)
    requires DocKey(productNumber) in p.graph.nodes && (0 < i ==> ChunkKey(chunks[i - 1].chunkId) in p.graph.nodes)
    ensures LoadChunk(p, productNumber, chunks, embeddings, i, env).graph.edges.Keys
         == p.graph.edges.Keys + ChunkLinks(base, productNumber, chunks, i, env)
  {
    if env.linkEntities {
      LinkedChunkWrites(base, p, productNumber, chunks, embeddings, i, env);
    } else {
      ChunkNodeWrites(p, productNumber, chunks, embeddings, i);
    }
  }

  /** The HAS_LABEL link, made when the Herbicide of the same product number exists. */
  function LabelEdges(nodes: map<NodeKey, Props>, productNumber: string): set<EdgeKey>
  {
    if HerbicideKey(productNumber) in nodes
    then {EdgeKey(HerbicideKey(productNumber), "HAS_LABEL", DocKey(productNumber), None)} else {}
  }

  /** Steps 1 and 2 create the Document node and add only the HAS_LABEL link. */
  lemma LoadStartWrites(g: Graph, productNumber: string, fileName: string, chunkCount: nat, now: string)
    ensures LoadStart(g, productNumber, fileName, chunkCount, now).nodes.Keys == g.nodes.Keys + {DocKey(productNumber)}
    ensures LoadStart(g, productNumber, fileName, chunkCount, now).edges.Keys
         == g.edges.Keys + LabelEdges(g.nodes, productNumber)
  {
    var doc := DocKey(productNumber);
    MergeNodeSpec(g, doc);
    SetNodeSpec(MergeNode(g, doc), doc, DocUpdates(fileName, chunkCount, now));
    MergeEdgeSpec(SetNode(MergeNode(g, doc), doc, DocUpdates(fileName, chunkCount, now)),
                  EdgeKey(HerbicideKey(productNumber), "HAS_LABEL", doc, None));
  }

  /** The Chunk nodes of the first `n` chunks. */
  function ChunkKeys(chunks: seq<Chunk>, n: nat): set<NodeKey>
    requires n <= |chunks|
  {
    if n == 0 then {} else ChunkKeys(chunks, n - 1) + {ChunkKey(chunks[n - 1].chunkId)}
  }

  lemma {:induction false} ChunkKeysMembers(chunks: seq<Chunk>, n: nat)
    requires n <= |chunks|
    ensures forall k :: k in ChunkKeys(chunks, n) <==> exists i :: 0 <= i < n && k == ChunkKey(chunks[i].chunkId)
  {
    if n != 0 {
      ChunkKeysMembers(chunks, n - 1);
    }
  }

  /** Chunk `i` is written, its CONTAINS_CHUNK link made when the Document exists, and its NEXT link when its predecessor does. */
  lemma ChunkNodeGrows(p: Progress, productNumber: string, chunks: seq<Chunk>, embeddings: seq<seq<real>>, i: nat)
    requires i < |chunks| && i < |embeddings|
    ensures var q := ChunkNode(p, productNumber, chunks, embeddings, i);
      p.graph.nodes.Keys + {ChunkKey(chunks[i].chunkId)} == q.graph.nodes.Keys && p.graph.edges.Keys <= q.graph.edges.Keys
      && (DocKey(productNumber) in p.graph.nodes ==> ContainsEdge(productNumber, chunks[i]) in q.graph.edges)
      && (0 < i && ChunkKey(chunks[i - 1].chunkId) in p.graph.nodes ==> NextEdge(chunks, i) in q.graph.edges)
  {
    var ck := ChunkKey(chunks[i].chunkId);
    MergeNodeSpec(p.graph, ck);
    var g1 := SetNode(MergeNode(p.graph, ck), ck, ChunkUpdates(chunks[i], productNumber, embeddings[i]));
    SetNodeSpec(MergeNode(p.graph, ck), ck, ChunkUpdates(chunks[i], productNumber, embeddings[i]));
    MergeEdgeSpec(g1, ContainsEdge(productNumber, chunks[i]));
    if 0 < i {
      MergeEdgeSpec(MergeEdge(g1, ContainsEdge(productNumber, chunks[i])), NextEdge(chunks, i));
    }
  }

  /** Steps 3 to 5 only add nodes and edges; the nodes added are chunk `i`'s. */
  lemma LoadChunkGrows(p: Progress, productNumber: string, chunks: seq<Chunk>, embeddings: seq<seq<real>>, i: nat, env: Env)
    requires i < |chunks| && i < |embeddings|
    ensures var q := LoadChunk(p, productNumber, chunks, embeddings, i, env);
      p.graph.nodes.Keys + {ChunkKey(chunks[i].chunkId)} == q.graph.nodes.Keys && p.graph.edges.Keys <= q.graph.edges.Keys
      && (DocKey(productNumber) in p.graph.nodes ==> ContainsEdge(productNumber, chunks[i]) in q.graph.edges)
      && (0 < i && ChunkKey(chunks[i - 1].chunkId) in p.graph.nodes ==> NextEdge(chunks, i) in q.graph.edges)
  {
    ChunkNodeGrows(p, productNumber, chunks, embeddings, i);
    if env.linkEntities {
      var q := ChunkNode(p, productNumber, chunks, embeddings, i);
      var ck := ChunkKey(chunks[i].chunkId);
      var names := ExtractEntityMentions(chunks[i].text, env.search);
      LinkAllEdges(q.graph, ck, "Weed", "common_name", names.0);
      LinkAllEdges(LinkAll(q.graph, ck, "Weed", "common_name", names.0), ck, "Crop", "name", names.1);
    }
  }

  /** After `n` turns the graph holds what it held before, the Document and the first `n` chunks, and nothing else. */
  lemma {:induction false} LoadNodes(g: Graph, productNumber: string, fileName: string, chunks: seq<Chunk>,
                                     embeddings: seq<seq<real>>, n: nat, env: Env)
    requires n <= |chunks| && n <= |embeddings|
    ensures LoadUpTo(g, productNumber, fileName, chunks, embeddings, n, env).graph.nodes.Keys
         == g.nodes.Keys + {DocKey(productNumber)} + ChunkKeys(chunks, n)
    decreases n
  {
    if n == 0 {
      LoadStartWrites(g, productNumber, fileName, |chunks|, env.now);
    } else {
      LoadNodes(g, productNumber, fileName, chunks, embeddings, n - 1, env);
      LoadChunkGrows(LoadUpTo(g, productNumber, fileName, chunks, embeddings, n - 1, env),
                     productNumber, chunks, embeddings, n - 1, env);
    }
  }

  /** The CONTAINS_CHUNK link of each of the first `n` chunks and the NEXT link into each but the first. */
  function ChunkEdges(productNumber: string, chunks: seq<Chunk>, n: nat): set<EdgeKey>
    requires n <= |chunks|
  {
    if n == 0 then {}
    else ChunkEdges(productNumber, chunks, n - 1) + {ContainsEdge(productNumber, chunks[n - 1])}
         + if 1 < n then {NextEdge(chunks, n - 1)} else {}
  }

  /** The MENTIONS links of the first `n` chunks, matched against `nodes`. */
  function AllMentions(nodes: map<NodeKey, Props>, chunks: seq<Chunk>, n: nat, search: Search): set<EdgeKey>
    requires n <= |chunks|
  {
    if n == 0 then {} else AllMentions(nodes, chunks, n - 1, search) + ChunkMentions(nodes, chunks, n - 1, search)
  }

  /** Every edge the first `n` turns of the load add to `g`. */
  function LoadLinks(g: Graph, productNumber: string, chunks: seq<Chunk>, n: nat, env: Env): set<EdgeKey>
    requires n <= |chunks|
  {
    LabelEdges(g.nodes, productNumber) + ChunkEdges(productNumber, chunks, n)
    + if env.linkEntities then AllMentions(EntityNodes(g.nodes), chunks, n, env.search) else {}
  }

  /** One more turn adds the links of one more chunk. */
  lemma LoadLinksNext(g: Graph, productNumber: string, chunks: seq<Chunk>, n: nat, env: Env)
    requires 0 < n <= |chunks|
    ensures g.edges.Keys + LoadLinks(g, productNumber, chunks, n, env)
         == g.edges.Keys + LoadLinks(g, productNumber, chunks, n - 1, env)
            + ChunkLinks(g.nodes, productNumber, chunks, n - 1, env)
  {
  }

  /**
   * After `n` turns the edges are those of `g`, the HAS_LABEL link, the CONTAINS_CHUNK link of
   * every chunk written, the NEXT chain between them and, when linking, their MENTIONS links.
   */
  lemma {:induction false} LoadEdges(g: Graph, productNumber: string, fileName: string, chunks: seq<Chunk>,
                                     embeddings: seq<seq<real>>, n: nat, env: Env)
    requires n <= |chunks| && n <= |embeddings|
    ensures LoadUpTo(g, productNumber, fileName, chunks, embeddings, n, env).graph.edges.Keys
         == g.edges.Keys + LoadLinks(g, productNumber, chunks, n, env)
    decreases n
  {
    if n == 0 {
      LoadStartWrites(g, productNumber, fileName, |chunks|, env.now);
    } else {
      var p := LoadUpTo(g, productNumber, fileName, chunks, embeddings, n - 1, env);
      LoadEdges(g, productNumber, fileName, chunks, embeddings, n - 1, env);
      LoadNodes(g, productNumber, fileName, chunks, embeddings, n - 1, env);
      LoadKeepsEntities(g, productNumber, fileName, chunks, embeddings, n - 1, env);
      if 1 < n {
        assert ChunkKey(chunks[n - 2].chunkId) in ChunkKeys(chunks, n - 1);
      }
      LoadChunkWrites(g.nodes, p, productNumber, chunks, embeddings, n - 1, env);
      LoadLinksNext(g, productNumber, chunks, n, env);
    }
  }

  // ---------------------------------------------------------------- one file

  /** A file whose chunking raised yields no statistics and writes nothing. */
  lemma LoadFileRaised(g: Graph, fileName: string, tables: seq<Table>, env: Env)
    ensures LoadFile(g, fileName, tables, env).1.None? <==> ChunkAll(ChunkerConfig(fileName, env), tables).None?
    ensures LoadFile(g, fileName, tables, env).1.None? ==> LoadFile(g, fileName, tables, env).0 == g
  {
  }

  /** A file with no chunks writes nothing and reports the error with zero counts. */
  lemma LoadFileEmpty(g: Graph, fileName: string, tables: seq<Table>, env: Env)
    requires ChunkAll(ChunkerConfig(fileName, env), tables) == Some([])
    ensures LoadFile(g, fileName, tables, env).0 == g
    ensures LoadFile(g, fileName, tables, env).1 == Some(LoadStats("", 0, 0, 0, 0, Some("No chunks generated")))
  {
  }

  /**
   * A file with chunks reports them all, one NEXT link per chunk written after the first, and the
   * MENTIONS rows matched against the entity nodes present before the load.
   */
  lemma LoadFileCounts(g: Graph, fileName: string, tables: seq<Table>, env: Env, chunks: seq<Chunk>)
    requires ChunkAll(ChunkerConfig(fileName, env), tables) == Some(chunks) && chunks != []
    ensures var st := LoadFile(g, fileName, tables, env).1;
      var n := Written(chunks, env);
      st.Some? && st.value.productNumber == chunks[0].productNumber && st.value.chunks == |chunks|
      && st.value.error.None? && st.value.nextRels == (if n == 0 then 0 else n - 1)
  {
    var embeddings := env.embed(EmbeddingInputs(chunks));
    LoadCountsNext(g, chunks[0].productNumber, fileName, chunks, embeddings, Written(chunks, env), env);
  }

  lemma LoadFileMentions(g: Graph, fileName: string, tables: seq<Table>, env: Env, chunks: seq<Chunk>)
    requires ChunkAll(ChunkerConfig(fileName, env), tables) == Some(chunks) && chunks != []
    ensures var st := LoadFile(g, fileName, tables, env).1;
      var n := Written(chunks, env);
      st.Some? && st.value.mentionsWeeds == (if env.linkEntities then WeedLinks(g.nodes, chunks, n, env.search) else 0)
      && st.value.mentionsCrops == (if env.linkEntities then CropLinks(g.nodes, chunks, n, env.search) else 0)
  {
    var embeddings := env.embed(EmbeddingInputs(chunks));
    LoadCountsWeeds(g, chunks[0].productNumber, fileName, chunks, embeddings, Written(chunks, env), env);
    LoadCountsCrops(g, chunks[0].productNumber, fileName, chunks, embeddings, Written(chunks, env), env);
  }

  /** Loading a file adds its Document and its written chunks as nodes, their links as edges, and leaves entities alone. */
  lemma LoadFileGraph(g: Graph, fileName: string, tables: seq<Table>, env: Env, chunks: seq<Chunk>)
    requires ChunkAll(ChunkerConfig(fileName, env), tables) == Some(chunks) && chunks != []
    ensures var g' := LoadFile(g, fileName, tables, env).0;
      var pn := chunks[0].productNumber;
      g'.nodes.Keys == g.nodes.Keys + {DocKey(pn)} + ChunkKeys(chunks, Written(chunks, env))
      && g'.edges.Keys == g.edges.Keys + LoadLinks(g, pn, chunks, Written(chunks, env), env)
      && SameEntities(g.nodes, g'.nodes)
  {
    var embeddings := env.embed(EmbeddingInputs(chunks));
    var pn := chunks[0].productNumber;
    LoadNodes(g, pn, fileName, chunks, embeddings, Written(chunks, env), env);
    LoadEdges(g, pn, fileName, chunks, embeddings, Written(chunks, env), env);
    LoadKeepsEntities(g, pn, fileName, chunks, embeddings, Written(chunks, env), env);
  }

  /** The links a load makes depend on the entity nodes of the graph only. */
  lemma LoadLinksSame(g: Graph, h: Graph, productNumber: string, chunks: seq<Chunk>, n: nat, env: Env)
    requires n <= |chunks| && SameEntities(g.nodes, h.nodes)
    ensures LoadLinks(g, productNumber, chunks, n, env) == LoadLinks(h, productNumber, chunks, n, env)
  {
    var hk := HerbicideKey(productNumber);
    assert hk in g.nodes <==> hk in EntityNodes(g.nodes);
    assert hk in h.nodes <==> hk in EntityNodes(h.nodes);
  }

  /** A second load of a file that yields chunks finds every node and edge it writes already there. */
  lemma LoadFileAgain(g: Graph, fileName: string, tables: seq<Table>, env: Env, chunks: seq<Chunk>)
    requires ChunkAll(ChunkerConfig(fileName, env), tables) == Some(chunks) && chunks != []
    ensures var once := LoadFile(g, fileName, tables, env).0;
      var twice := LoadFile(once, fileName, tables, env).0;
      twice.nodes.Keys == once.nodes.Keys && twice.edges.Keys == once.edges.Keys
  {
    var once := LoadFile(g, fileName, tables, env).0;
    LoadFileGraph(g, fileName, tables, env, chunks);
    LoadFileGraph(once, fileName, tables, env, chunks);
    LoadLinksSame(g, once, chunks[0].productNumber, chunks, Written(chunks, env), env);
  }

  /** Loading the same file a second time adds no node and no edge. */
  lemma LoadFileTwice(g: Graph, fileName: string, tables: seq<Table>, env: Env)
    ensures var once := LoadFile(g, fileName, tables, env).0;
      var twice := LoadFile(once, fileName, tables, env).0;
      twice.nodes.Keys == once.nodes.Keys && twice.edges.Keys == once.edges.Keys
  {
    var r := ChunkAll(ChunkerConfig(fileName, env), tables);
    if r.Some? && r.value != [] {
      LoadFileAgain(g, fileName, tables, env, r.value);
    }
  }

  // ------------------------------------------------------------------ methods

  /** One MENTIONS query per name, each linking the chunk to every matching node. */
  method LinkNames(store: Store, from: NodeKey, kind: string, nameProp: string, names: seq<string>)
    returns (linked: nat)
    requires from in store.nodes
    modifies store
    ensures store.State() == LinkAll(old(store.State()), from, kind, nameProp, names)
    ensures linked == MatchCount(old(store.nodes), kind, nameProp, names)
  {
    linked := 0;
    var j := 0;
    while j < |names|
      invariant j <= |names|
      invariant store.State() == LinkAll(old(store.State()), from, kind, nameProp, names[..j])
      invariant store.nodes == old(store.nodes)
      invariant linked == MatchCount(old(store.nodes), kind, nameProp, names[..j])
    {
      assert names[..j + 1][..j] == names[..j];
      var targets := Targets(store.nodes, kind, nameProp, names[j]);
      var count := store.MergeEdgesToOp(from, "MENTIONS", targets);
      linked := linked + count;
      j := j + 1;
    }
    assert names[..j] == names;
  }

  /** Steps 3 and 4 of the chunk loop for chunk `i`. */
  method WriteChunkNode(store: Store, productNumber: string, chunks: seq<Chunk>, embeddings: seq<seq<real>>,
                        i: nat, nextRels: nat, mentionsWeeds: nat, mentionsCrops: nat)
    returns (nextRels': nat)
    requires i < |chunks| && i < |embeddings|
    modifies store
    ensures Progress(store.State(), nextRels', mentionsWeeds, mentionsCrops)
         == ChunkNode(Progress(old(store.State()), nextRels, mentionsWeeds, mentionsCrops),
                      productNumber, chunks, embeddings, i)
  {
    var chunk := chunks[i];
    var ck := ChunkKey(chunk.chunkId);
    store.MergeNodeOp(ck);
    store.SetNodeOp(ck, ChunkUpdates(chunk, productNumber, embeddings[i]));
    store.MergeEdgeOp(ContainsEdge(productNumber, chunk));
    nextRels' := nextRels;
    if i > 0 {
      store.MergeEdgeOp(EdgeKey(ChunkKey(chunks[i - 1].chunkId), "NEXT", ck, None));
      nextRels' := nextRels + 1;
    }
  }

  /** Step 5 of the chunk loop for the chunk `ck`, adding the reported counts to the counters. */
  method LinkChunkOp(store: Store, ck: NodeKey, weeds: seq<string>, crops: seq<string>,
                     nextRels: nat, mentionsWeeds: nat, mentionsCrops: nat)
    returns (mentionsWeeds': nat, mentionsCrops': nat)
    requires ck in store.nodes
    modifies store
    ensures Progress(store.State(), nextRels, mentionsWeeds', mentionsCrops')
         == LinkChunk(Progress(old(store.State()), nextRels, mentionsWeeds, mentionsCrops), ck, weeds, crops)
  {
    var linkedWeeds := LinkNames(store, ck, "Weed", "common_name", weeds);
    var linkedCrops := LinkNames(store, ck, "Crop", "name", crops);
    mentionsWeeds', mentionsCrops' := mentionsWeeds + linkedWeeds, mentionsCrops + linkedCrops;
  }

  /** Steps 3 to 5 of the chunk loop for chunk `i`, adding to the counters. */
  method WriteChunk(store: Store, productNumber: string, chunks: seq<Chunk>, embeddings: seq<seq<real>>,
                    i: nat, env: Env, nextRels: nat, mentionsWeeds: nat, mentionsCrops: nat)
    returns (nextRels': nat, mentionsWeeds': nat, mentionsCrops': nat)
    requires i < |chunks| && i < |embeddings|
    modifies store
    ensures Progress(store.State(), nextRels', mentionsWeeds', mentionsCrops')
         == LoadChunk(Progress(old(store.State()), nextRels, mentionsWeeds, mentionsCrops),
                      productNumber, chunks, embeddings, i, env)
  {
    nextRels' := WriteChunkNode(store, productNumber, chunks, embeddings, i, nextRels, mentionsWeeds, mentionsCrops);
    mentionsWeeds', mentionsCrops' := mentionsWeeds, mentionsCrops;
    if env.linkEntities {
      var names := ExtractEntityMentions(chunks[i].text, env.search);
      mentionsWeeds', mentionsCrops' := LinkChunkOp(store, ChunkKey(chunks[i].chunkId), names.0, names.1,
                                                    nextRels', mentionsWeeds, mentionsCrops);
    }
  }

  lemma LoadUpToNext(g: Graph, productNumber: string, fileName: string, chunks: seq<Chunk>,
                     embeddings: seq<seq<real>>, i: nat, env: Env)
    requires i < |chunks| && i < |embeddings|
    ensures LoadUpTo(g, productNumber, fileName, chunks, embeddings, i + 1, env)
         == LoadChunk(LoadUpTo(g, productNumber, fileName, chunks, embeddings, i, env), productNumber, chunks, embeddings, i, env)
  {
  }

  /** One turn of the chunk loop: chunk `i` written on top of the first `i`. */
  method WriteNext(store: Store, ghost g: Graph, productNumber: string, fileName: string, chunks: seq<Chunk>,
                   embeddings: seq<seq<real>>, env: Env, i: nat, nextRels: nat, mentionsWeeds: nat, mentionsCrops: nat)
    returns (nextRels': nat, mentionsWeeds': nat, mentionsCrops': nat)
    requires i < |chunks| && i < |embeddings|
    requires Progress(store.State(), nextRels, mentionsWeeds, mentionsCrops)
          == LoadUpTo(g, productNumber, fileName, chunks, embeddings, i, env)
    modifies store
    ensures Progress(store.State(), nextRels', mentionsWeeds', mentionsCrops')
         == LoadUpTo(g, productNumber, fileName, chunks, embeddings, i + 1, env)
  {
    LoadUpToNext(g, productNumber, fileName, chunks, embeddings, i, env);
    nextRels', mentionsWeeds', mentionsCrops' :=
      WriteChunk(store, productNumber, chunks, embeddings, i, env, nextRels, mentionsWeeds, mentionsCrops);
  }

  /** Steps 3 to 5 for every chunk that has an embedding; `g` is the graph before step 1. */
  method WriteChunks(store: Store, ghost g: Graph, productNumber: string, fileName: string, chunks: seq<Chunk>,
                     embeddings: seq<seq<real>>, env: Env)
    returns (nextRels: nat, mentionsWeeds: nat, mentionsCrops: nat)
    requires store.State() == LoadStart(g, productNumber, fileName, |chunks|, env.now)
    modifies store
    ensures Progress(store.State(), nextRels, mentionsWeeds, mentionsCrops)
         == LoadUpTo(g, productNumber, fileName, chunks, embeddings, Min(|chunks|, |embeddings|), env)
  {
    nextRels, mentionsWeeds, mentionsCrops := 0, 0, 0;
    var n := Min(|chunks|, |embeddings|);
    var i := 0;
    while i < n
      invariant i <= n
      invariant Progress(store.State(), nextRels, mentionsWeeds, mentionsCrops)
             == LoadUpTo(g, productNumber, fileName, chunks, embeddings, i, env)
    {
      nextRels, mentionsWeeds, mentionsCrops :=
        WriteNext(store, g, productNumber, fileName, chunks, embeddings, env, i, nextRels, mentionsWeeds, mentionsCrops);
      i := i + 1;
    }
  }

  /** Steps 1 and 2: the Document node and its HAS_LABEL link. */
  method WriteDocument(store: Store, productNumber: string, fileName: string, chunkCount: nat, now: string)
    modifies store
    ensures store.State() == LoadStart(old(store.State()), productNumber, fileName, chunkCount, now)
  {
    var doc := DocKey(productNumber);
    store.MergeNodeOp(doc);
    store.SetNodeOp(doc, DocUpdates(fileName, chunkCount, now));
    store.MergeEdgeOp(EdgeKey(HerbicideKey(productNumber), "HAS_LABEL", doc, None));
  }

  /** `load_chunks_from_docling`: chunk the file, embed the contextualized texts, write the graph. */
  method LoadChunksFromDocling(store: Store, fileName: string, tables: seq<Table>, env: Env)
    returns (stats: Option<LoadStats>)
    modifies store
    ensures (store.State(), stats) == LoadFile(old(store.State()), fileName, tables, env)
  {
    var generated := ChunkDoclingJson(ChunkerConfig(fileName, env), tables);
    if generated.None? {
      return None;
    }
    var chunks := generated.value;
    if |chunks| == 0 {
      return Some(LoadStats("", 0, 0, 0, 0, Some("No chunks generated")));
    }
    var productNumber := chunks[0].productNumber;
    var contextualized := EmbeddingInputs(chunks);
    var embeddings := env.embed(contextualized);
    ghost var g := store.State();
    WriteDocument(store, productNumber, fileName, |chunks|, env.now);
    var nextRels, mentionsWeeds, mentionsCrops := WriteChunks(store, g, productNumber, fileName, chunks, embeddings, env);
    stats := Some(LoadStats(productNumber, |chunks|, nextRels, mentionsWeeds, mentionsCrops, None));
  }

  // ----------------------------------------------------------- a directory of files

  /** The totals `load_chunks_directory` returns; an error records the name of the file that raised. */
  datatype DirStats = DirStats(filesProcessed: nat, totalChunks: nat, totalNextRels: nat, totalMentions: nat,
                               errors: seq<string>)

  datatype DirProgress = DirProgress(graph: Graph, stats: DirStats)

  /** The files loaded: the sorted `*.docling.json` names, cut to `limit` when it is truthy. */
  function DirFiles(names: seq<string>, limit: Option<int>): seq<string>
  {
    ApplyLimit(Sorting.Glob(names, ".docling.json"), limit)
  }

  /** One turn of the file loop: the totals after a file loaded, or its error when it raised. */
  function AddFile(st: DirStats, file: string, result: Option<LoadStats>): DirStats
  {
    match result
    case None => st.(errors := st.errors + [file])
    case Some(s) => DirStats(st.filesProcessed + 1, st.totalChunks + s.chunks, st.totalNextRels + s.nextRels,
                             st.totalMentions + s.mentionsWeeds + s.mentionsCrops, st.errors)
  }

  /** The graph and totals after the first `k` files; `read` gives the tables of each file. */
  function LoadFilesUpTo(g: Graph, files: seq<string>, read: string -> seq<Table>, env: Env, k: nat): DirProgress
    requires k <= |files|
  {
    if k == 0 then DirProgress(g, DirStats(0, 0, 0, 0, []))
    else
      var d := LoadFilesUpTo(g, files, read, env, k - 1);
      var r := LoadFile(d.graph, files[k - 1], read(files[k - 1]), env);
      DirProgress(r.0, AddFile(d.stats, files[k - 1], r.1))
  }

  /** `load_chunks_directory` over a directory holding `names`. */
  function LoadDirectory(g: Graph, names: seq<string>, read: string -> seq<Table>, limit: Option<int>, env: Env): DirProgress
  {
    var files := DirFiles(names, limit);
    LoadFilesUpTo(g, files, read, env, |files|)
  }

  /** The files whose chunking raises, in order. */
  function Raising(files: seq<string>, read: string -> seq<Table>, env: Env): seq<string>
  {
    if |files| == 0 then []
    else Raising(files[..|files| - 1], read, env)
         + if ChunkAll(ChunkerConfig(files[|files| - 1], env), read(files[|files| - 1])).None? then [files[|files| - 1]] else []
  }

  /** How many chunks the chunker makes of one file, none when it raises. */
  function ChunksMade(fileName: string, tables: seq<Table>, env: Env): nat
  {
    match ChunkAll(ChunkerConfig(fileName, env), tables)
    case None => 0
    case Some(chunks) => |chunks|
  }

  /** How many chunks the chunker makes of the files. */
  function ChunkTotal(files: seq<string>, read: string -> seq<Table>, env: Env): nat
  {
    if |files| == 0 then 0
    else ChunkTotal(files[..|files| - 1], read, env) + ChunksMade(files[|files| - 1], read(files[|files| - 1]), env)
  }

  /** The chunk count a file reports is the number of chunks its chunking made. */
  lemma LoadFileChunks(g: Graph, fileName: string, tables: seq<Table>, env: Env)
    ensures (if LoadFile(g, fileName, tables, env).1.Some? then LoadFile(g, fileName, tables, env).1.value.chunks else 0)
         == ChunksMade(fileName, tables, env)
  {
    match ChunkAll(ChunkerConfig(fileName, env), tables)
    case None =>
      LoadFileRaised(g, fileName, tables, env);
    case Some(chunks) =>
      if chunks == [] {
        LoadFileEmpty(g, fileName, tables, env);
      } else {
        LoadFileCounts(g, fileName, tables, env, chunks);
      }
  }

  /** The file selection: sorted, only `.docling.json` names from the directory, at most `limit` of them. */
  lemma DirFilesSpec(names: seq<string>, limit: Option<int>)
    ensures Sorting.Sorted(DirFiles(names, limit))
    ensures forall f :: f in DirFiles(names, limit) ==> f in names && EndsWith(f, ".docling.json")
    ensures limit.Some? && 0 < limit.value ==> |DirFiles(names, limit)| <= limit.value
  {
    var all := Sorting.Glob(names, ".docling.json");
    Sorting.GlobSpec(names, ".docling.json");
    var r := DirFiles(names, limit);
    assert r == all[..|r|];
    assert forall f :: f in r ==> f in all;
  }

  /**
   * Every file is either processed or listed among the errors; the errors are exactly the files
   * whose chunking raised, and the chunk total is what the chunker made of the others.
   */
  lemma {:induction false} DirAccounting(g: Graph, files: seq<string>, read: string -> seq<Table>, env: Env, k: nat)
    requires k <= |files|
    ensures var st := LoadFilesUpTo(g, files, read, env, k).stats;
      st.filesProcessed + |st.errors| == k && st.errors == Raising(files[..k], read, env)
    decreases k
  {
    if k != 0 {
      DirAccounting(g, files, read, env, k - 1);
      var d := LoadFilesUpTo(g, files, read, env, k - 1);
      LoadFileRaised(d.graph, files[k - 1], read(files[k - 1]), env);
      assert files[..k][..k - 1] == files[..k - 1];
    }
  }

  lemma {:induction false} DirChunkTotal(g: Graph, files: seq<string>, read: string -> seq<Table>, env: Env, k: nat)
    requires k <= |files|
    ensures LoadFilesUpTo(g, files, read, env, k).stats.totalChunks == ChunkTotal(files[..k], read, env)
    decreases k
  {
    if k != 0 {
      DirChunkTotal(g, files, read, env, k - 1);
      var d := LoadFilesUpTo(g, files, read, env, k - 1);
      LoadFileChunks(d.graph, files[k - 1], read(files[k - 1]), env);
      assert files[..k][..k - 1] == files[..k - 1];
    }
  }

  lemma LoadFilesNext(g: Graph, files: seq<string>, read: string -> seq<Table>, env: Env, k: nat)
    requires k < |files|
    ensures LoadFilesUpTo(g, files, read, env, k + 1)
         == DirProgress(LoadFile(LoadFilesUpTo(g, files, read, env, k).graph, files[k], read(files[k]), env).0,
                        AddFile(LoadFilesUpTo(g, files, read, env, k).stats, files[k],
                                LoadFile(LoadFilesUpTo(g, files, read, env, k).graph, files[k], read(files[k]), env).1))
  {
  }

  /** One turn of the file loop: the totals take in the file's statistics, or its name as an error. */
  method AddFileOp(st: DirStats, file: string, result: Option<LoadStats>) returns (st': DirStats)
    ensures st' == AddFile(st, file, result)
  {
    st' := st;
    if result.None? {
      st' := st'.(errors := st'.errors + [file]);
      return;
    }
    var s := result.value;
    st' := st'.(filesProcessed := st'.filesProcessed + 1);
    st' := st'.(totalChunks := st'.totalChunks + s.chunks);
    st' := st'.(totalNextRels := st'.totalNextRels + s.nextRels);
    st' := st'.(totalMentions := st'.totalMentions + s.mentionsWeeds + s.mentionsCrops);
  }

  /** `load_chunks_directory`: every selected file in turn, an exception recorded and skipped. */
  method LoadChunksDirectory(store: Store, names: seq<string>, read: string -> seq<Table>, limit: Option<int>, env: Env)
    returns (stats: DirStats)
    modifies store
    ensures DirProgress(store.State(), stats) == LoadDirectory(old(store.State()), names, read, limit, env)
  {
    ghost var g := store.State();
    var files := DirFiles(names, limit);
    stats := DirStats(0, 0, 0, 0, []);
    for i := 0 to |files|
      invariant DirProgress(store.State(), stats) == LoadFilesUpTo(g, files, read, env, i)
    {
      LoadFilesNext(g, files, read, env, i);
      var result := LoadChunksFromDocling(store, files[i], read(files[i]), env);
      stats := AddFileOp(stats, files[i], result);
    }
  }
}

# WeedAI ingestion and chunking core, in Dafny

WeedAI turns Australian herbicide label PDFs into a knowledge graph that an
agronomy assistant can query. The labels are parsed to markdown by one of
several parsers: the LlamaParse client, the local PyMuPDF parser, or Docling
with a repair script for its concatenated JSON. The markdown is cleaned, and
structured records are extracted from it by a language model or by the legacy
markdown converter. The parsed tables are cut into typed, ordered chunks.
Chunks and records are then loaded into Neo4j with MERGE writes. The agent's
tools read the graph back and format answers.

This project models that pipeline's own logic, one module per source file:

| module | file | source |
|---|---|---|
| `Chunker` | chunker.dfy | packages/graph/src/graph/chunker.py |
| `ChunkLoader` | chunk_loader.dfy | packages/graph/src/graph/chunk_loader.py |
| `Loader` | loader.dfy | packages/graph/src/graph/loader.py |
| `GraphStore` | graph_store.dfy | the Cypher MERGE / MATCH / SET writes both loaders issue |
| `Cleaner` | cleaner.dfy | packages/ingestion/src/ingestion/cleaner.py |
| `MarkdownToGraph` | markdown_to_graph.dfy | packages/ingestion/scripts/markdown_to_graph.py |
| `LabelParser` | label_parser.dfy | packages/ingestion/src/ingestion/parser.py |
| `LocalParser` | local_parser.dfy | packages/ingestion/src/ingestion/local_parser.py |
| `MergeDocling` | merge_docling.dfy | scripts/merge_docling_blocks.py |
| `EvaluateDocling` | evaluate_docling.dfy | scripts/evaluate_docling.py |
| `Extractor` | extractor.dfy | packages/ingestion/src/ingestion/extractor.py |
| `ResumeGemini` | resume_gemini.dfy | packages/ingestion/scripts/resume_gemini.py |
| `Tools` | tools.dfy | packages/graph/src/graph/tools.py |
| `Base`, `Strings`, `Sorting` | base.dfy, strings.dfy, sorting.dfy | Python's list, `str` and `sorted` behaviour the modules share |

The graph is a class, `GraphStore.Store`, whose node and edge maps the loaders
update in place. A MERGE inserts only when the key is absent; a SET of a null
removes the property. The loaders are methods over it, each proved equal to a
specification function over the graph value. Those functions carry the
properties: edge counts, exact edge sets, and idempotent re-loading.

The pure parts of the pipeline are datatypes and functions. These include the
section classifier, the entity linker, name normalisation, frontmatter
splitting and rendering, and state-list and table parsing. Every loop of the
source is a method with invariants, proved against the function that
specifies it.

External services are parameters of the model: the embedder, the language
models, the PDF libraries, the parsing service, subprocess runs, the clock,
the file system and the md5 digest. Each is a function argument, or the value
it returned. Python's `re` is written out where the pattern is simple: the rate
and unit patterns, newline runs, trailing blanks, and the state and weed
splits. Where the source loops over lists of patterns (sections, weeds, crops,
noise, boilerplate) or searches label metadata, the patterns are abstract
functions that return the matches.

## Model

| member | source | states |
|---|---|---|
| GraphStore.SetProp | packages/graph/src/graph/loader.py:68-73 | after `SET x.name = v` the property holds `v`, a null removes it, and every other property is unchanged |
| GraphStore.SetPropsLast | packages/graph/src/graph/loader.py:181-185 | after a SET clause each property holds its last assignment (absent when that was null), or its old value when it was not assigned |
| GraphStore.SetPropsIdempotent | packages/graph/src/graph/loader.py:65-81 | running the same SET clause twice has the effect of running it once |
| GraphStore.SetEdge | packages/graph/src/graph/loader.py:180-185 | SET on a relationship changes only that edge's properties, and nothing when it is absent |
| GraphStore.MergeNodeSpec | packages/graph/src/graph/loader.py:67 | `MERGE` on a node key adds the node, holding only its key, when it is missing and leaves every other node and every edge as it was |
| GraphStore.SetNodeSpec | packages/graph/src/graph/loader.py:118-119 | SET on a node changes only that node's properties, and nothing when the node is absent |
| GraphStore.MergeEdgeSpec | packages/graph/src/graph/loader.py:176-180 | a relationship MERGE adds the edge only when both ends exist, keeps existing edges' properties and leaves the nodes alone |
| GraphStore.MergeEdgesToSpec | packages/graph/src/graph/chunk_loader.py:268-274 | MATCH then MERGE adds the edges to every matched node when the source node exists, and nothing else |
| GraphStore.MergeNodeIdempotent | packages/graph/src/graph/loader.py:67 | a second MERGE of the same node changes nothing |
| GraphStore.MergeEdgeIdempotent | packages/graph/src/graph/loader.py:180 | a second MERGE of the same relationship changes nothing |
| GraphStore.Store.constructor | packages/graph/src/graph/loader.py:61 | a session starts on the given graph |
| GraphStore.Store.MergeNodeOp | packages/graph/src/graph/loader.py:136 | the store after a node MERGE is the specified graph |
| GraphStore.Store.SetNodeOp | packages/graph/src/graph/loader.py:137 | the store after a node SET is the specified graph |
| GraphStore.Store.MergeEdgeOp | packages/graph/src/graph/loader.py:180 | the store after a relationship MERGE is the specified graph |
| GraphStore.Store.SetEdgeOp | packages/graph/src/graph/loader.py:181-185 | the store after a relationship SET is the specified graph |
| GraphStore.Store.MergeEdgesToOp | packages/graph/src/graph/chunk_loader.py:268-279 | the store after MATCH and MERGE to every target is the specified graph, and the returned `count(*)` is the number of targets, or 0 when the source is missing |
| Chunker.Contextualize | packages/graph/src/graph/chunker.py:56-80 | the embedded text is the product, section and type tags joined by spaces and then the raw text; it ends with the raw text and starts with the product tag when there is a product number |
| Chunker.FirstMatchIndex | packages/graph/src/graph/chunker.py:114-116 | the index found is the first section whose pattern matches, and -1 only when none matches |
| Chunker.FirstMatchIsFirst | packages/graph/src/graph/chunker.py:114-116 | any matching section with no match before it is the one found |
| Chunker.ClassifySection | packages/graph/src/graph/chunker.py:97-125 | the first section (in pattern order) matching the markdown, or the space-joined cells, wins; with no match, 4+ columns give directions_for_use, exactly 2 give metadata, anything else general |
| Chunker.SkipSpaces | packages/graph/src/graph/chunker.py:145 | the `\s*` of the rate pattern: the first non-space position at or after `j`, with only spaces skipped |
| Chunker.AnySignalsWeeds | packages/graph/src/graph/chunker.py:138-146 | the early-return row scan answers true exactly when some row names a weed in its first cell or holds a rate |
| Chunker.IsWeedTable | packages/graph/src/graph/chunker.py:128-148 | a table is a weed table iff it has at least 3 rows and one of its first five rows signals weeds; fewer than 3 rows is never one |
| Chunker.RateExample | packages/graph/src/graph/chunker.py:145 | `200mL/ha` and `Apply 1.5 L/ha` match the rate pattern (digits, optional spaces, a unit per hectare) |
| Chunker.KindFor | packages/graph/src/graph/chunker.py:190-198 | precedence of chunk types: weed table iff the weed check holds; directions iff not a weed table and the section is directions_for_use; metadata iff neither and the section is metadata or there are at most 2 columns |
| Chunker.RowsPerChunk | packages/graph/src/graph/chunker.py:229 | the rows per sub-chunk are at least 1, so the split loop always advances |
| Chunker.RowGroupsPartition | packages/graph/src/graph/chunker.py:231-232 | the row groups put back together are the data rows in order; each group is non-empty and at most the group size, every group but the last exactly that size |
| Chunker.RowGroupCountsSum | packages/graph/src/graph/chunker.py:231-251 | the sub-chunks' row counts add up to the number of data rows |
| Chunker.SplitSize | packages/graph/src/graph/chunker.py:226-229 | the group size used for a split table is at least 1 |
| Chunker.SplitChunks | packages/graph/src/graph/chunker.py:231-256 | one sub-chunk per row group, numbered on consecutively from the table's first sequence number, carrying the file's product number and name, the carried section and its group's row count |
| Chunker.Emitted | packages/graph/src/graph/chunker.py:220-273 | the chunks a table yields are numbered on from the current sequence and carry the product number, file name and the section carried after this table |
| Chunker.AppendKeepsNumbering | packages/graph/src/graph/chunker.py:242-273 | appending chunks numbered on from the counter keeps the output numbered 0, 1, 2, ... |
| Chunker.StepKeepsNumbering | packages/graph/src/graph/chunker.py:177-273 | one table's turn of the generator keeps the output numbered 0, 1, 2, ... with the file's product number and name |
| Chunker.RunNumbered | packages/graph/src/graph/chunker.py:172-273 | after all tables, the chunks are numbered 0, 1, 2, ... and all carry the file's product number and name |
| Chunker.SkippedTableEmitsNothing | packages/graph/src/graph/chunker.py:182-214 | a table with neither markdown nor rows, or whose text strips to under 20 characters, yields nothing and consumes no sequence number |
| Chunker.FailureSticks | packages/graph/src/graph/chunker.py:254-271 | once reading a null bounding box has raised, the generator yields nothing more |
| Chunker.FailedPrefixFails | packages/graph/src/graph/chunker.py:254-271 | a raised generator stays raised after any further table |
| Chunker.CarriedSection | packages/graph/src/graph/chunker.py:186-188 | the carried section is the label of the last non-blank table that was not `general` (a general table inherits it) |
| Chunker.SplitRows | packages/graph/src/graph/chunker.py:231-251 | the sub-chunks of a split table hold its data rows in order, the group size to a part except the last, and each reports its own row count |
| Chunker.SplitHeaders | packages/graph/src/graph/chunker.py:234-236 | with headers, every sub-chunk's text starts with the header line followed by a newline |
| Chunker.SplitIdsDistinct | packages/graph/src/graph/chunker.py:240 | sub-chunks of one table have pairwise distinct ids (the part number differs) |
| Chunker.PartIdsDiffer | packages/graph/src/graph/chunker.py:240 | two different part numbers give two different sub-chunk ids |
| Chunker.PartIndex | packages/graph/src/graph/chunker.py:231-240 | the loop counter steps through multiples of the group size, so `i // rows_per_chunk` is the part number |
| Chunker.PartsFromGroups | packages/graph/src/graph/chunker.py:231-256 | splitting the remaining rows from part `k` gives sub-chunk `k + j` for group `j` |
| Chunker.SplitTurn | packages/graph/src/graph/chunker.py:231-256 | one turn of the row-group loop takes the next slice and leaves the rest of the data for the following parts |
| Chunker.SplitTable | packages/graph/src/graph/chunker.py:231-256 | the inner loop yields exactly the sub-chunk list of the table's row groups |
| Chunker.PartsFromAll | packages/graph/src/graph/chunker.py:231-256 | splitting from part 0 is the whole sub-chunk list |
| Chunker.StepStops | packages/graph/src/graph/chunker.py:177-273 | a table too short to chunk only updates the carried section; one reaching the yield with a null bounding box stops the generator |
| Chunker.StepEmits | packages/graph/src/graph/chunker.py:216-273 | a table that reaches the yield appends what it emits and advances the counter by that many chunks |
| Chunker.EmittedSplit | packages/graph/src/graph/chunker.py:223-256 | a large table (over the token budget and more than 3 rows) emits its row-group sub-chunks |
| Chunker.EmittedSingle | packages/graph/src/graph/chunker.py:257-273 | any other table emits exactly one chunk |
| Chunker.EmitTable | packages/graph/src/graph/chunker.py:216-273 | the yield part of one table's turn computes exactly the chunks specified for it |
| Chunker.ChunkTable | packages/graph/src/graph/chunker.py:177-273 | one turn of the generator loop gives the output, counter, carried section and raise status of the specification step |
| Chunker.ChunkDoclingJson | packages/graph/src/graph/chunker.py:151-273 | the generator yields the specified chunk list (or raises); when it completes, chunk `i` has sequence number `i` |
| ChunkLoader.MentionName | packages/graph/src/graph/chunk_loader.py:133 | the name kept for a match is lowercase and has no spaces |
| ChunkLoader.Mentions | packages/graph/src/graph/chunk_loader.py:127-140 | the pattern loop yields at most one name per pattern, each lowercase without spaces |
| ChunkLoader.MentionsComplete | packages/graph/src/graph/chunk_loader.py:128-133 | every pattern that matches the lowercased text contributes its normalised match |
| ChunkLoader.MentionsSound | packages/graph/src/graph/chunk_loader.py:128-133 | every name found comes from a pattern that matched |
| ChunkLoader.ExtractedShape | packages/graph/src/graph/chunk_loader.py:118-142 | at most one weed per weed pattern and one crop per crop pattern, no name repeated (`list(set(..))`), each lowercase without spaces |
| ChunkLoader.ExtractedNames | packages/graph/src/graph/chunk_loader.py:118-142 | the weed names are exactly the normalised matches of the weed patterns in the lowercased text, and likewise for crops |
| ChunkLoader.MentionsIgnoreCase | packages/graph/src/graph/chunk_loader.py:125 | lowercasing the text first changes nothing: matching is case-insensitive |
| ChunkLoader.MentionsNone | packages/graph/src/graph/chunk_loader.py:127-133 | when no pattern matches, the loop finds nothing |
| ChunkLoader.NoMatchNoMentions | packages/graph/src/graph/chunk_loader.py:118-142 | text that no weed or crop pattern matches mentions nothing |
| ChunkLoader.Targets | packages/graph/src/graph/chunk_loader.py:269-273 | the nodes a MENTIONS query matches are existing nodes of the queried label |
| ChunkLoader.LinkAll | packages/graph/src/graph/chunk_loader.py:266-296 | the MENTIONS queries write edges only, never nodes |
| ChunkLoader.EmbeddingInputs | packages/graph/src/graph/chunk_loader.py:191 | one embedder input per chunk, the chunk's contextualized text |
| ChunkLoader.EntitiesIgnore | packages/graph/src/graph/chunk_loader.py:196-246 | writing a Document or Chunk node leaves the entity nodes as they were |
| ChunkLoader.TargetsSame | packages/graph/src/graph/chunk_loader.py:269-273 | the nodes a MENTIONS query matches depend only on the entity nodes |
| ChunkLoader.MatchCountSame | packages/graph/src/graph/chunk_loader.py:274-296 | the reported `linked` counts depend only on the entity nodes |
| ChunkLoader.ChunkNodeStep | packages/graph/src/graph/chunk_loader.py:219-260 | steps 3 and 4 leave the entity nodes alone and count one NEXT link for every chunk after the first |
| ChunkLoader.LoadChunkNext | packages/graph/src/graph/chunk_loader.py:249-260 | a chunk's turn adds one to `next_rels` exactly when it is not the first |
| ChunkLoader.LoadChunkEntities | packages/graph/src/graph/chunk_loader.py:219-296 | a chunk's turn leaves the entity nodes alone |
| ChunkLoader.LoadChunkWeeds | packages/graph/src/graph/chunk_loader.py:263-280 | a chunk's turn adds to `mentions_weeds` the rows its weed queries match, and nothing when linking is off |
| ChunkLoader.LoadChunkCrops | packages/graph/src/graph/chunk_loader.py:282-296 | a chunk's turn adds to `mentions_crops` the rows its crop queries match, and nothing when linking is off |
| ChunkLoader.LoadStartEntities | packages/graph/src/graph/chunk_loader.py:195-216 | steps 1 and 2 leave the entity nodes alone |
| ChunkLoader.LoadKeepsEntities | packages/graph/src/graph/chunk_loader.py:194-296 | loading writes only Document and Chunk nodes: Herbicide, Weed and Crop nodes are left as they were |
| ChunkLoader.LoadCountsNext | packages/graph/src/graph/chunk_loader.py:219-260 | after `n` chunks, `next_rels` is `n - 1` (0 when none) |
| ChunkLoader.LoadCountsWeeds | packages/graph/src/graph/chunk_loader.py:263-280 | `mentions_weeds` is the weed links matched against the Weed nodes present before loading began, 0 without linking |
| ChunkLoader.LoadCountsCrops | packages/graph/src/graph/chunk_loader.py:282-296 | `mentions_crops` is the crop links matched against the Crop nodes present before loading began, 0 without linking |
| ChunkLoader.LinkAllEdges | packages/graph/src/graph/chunk_loader.py:266-296 | the MENTIONS queries add exactly the edges to the matching nodes, and none when the chunk node is missing |
| ChunkLoader.ChunkNodeWrites | packages/graph/src/graph/chunk_loader.py:219-260 | steps 3 and 4 add the chunk node, its CONTAINS_CHUNK link and its NEXT link from the predecessor, and nothing else |
| ChunkLoader.MentionEdgesSame | packages/graph/src/graph/chunk_loader.py:266-296 | the MENTIONS edges depend only on the entity nodes |
| ChunkLoader.LinkChunkWrites | packages/graph/src/graph/chunk_loader.py:262-296 | step 5 adds exactly the chunk's MENTIONS links, matched against the entity nodes present before the load |
| ChunkLoader.LinkedChunkWrites | packages/graph/src/graph/chunk_loader.py:219-296 | with linking on, a chunk's turn adds its structural links and its MENTIONS links |
| ChunkLoader.LoadChunkWrites | packages/graph/src/graph/chunk_loader.py:219-296 | a chunk's turn adds exactly that chunk's links as edges |
| ChunkLoader.LoadStartWrites | packages/graph/src/graph/chunk_loader.py:195-216 | steps 1 and 2 add the Document node and, when the Herbicide exists, only the HAS_LABEL link |
| ChunkLoader.ChunkKeysMembers | packages/graph/src/graph/chunk_loader.py:219-246 | the chunk nodes of the first `n` chunks are exactly their `chunk_id` keys |
| ChunkLoader.ChunkNodeGrows | packages/graph/src/graph/chunk_loader.py:219-260 | steps 3 and 4 only add: the node added is chunk `i`, its CONTAINS_CHUNK link made when the Document exists and its NEXT link when its predecessor does |
| ChunkLoader.LoadChunkGrows | packages/graph/src/graph/chunk_loader.py:219-296 | a chunk's turn only adds nodes and edges, and the only node added is that chunk's |
| ChunkLoader.LoadNodes | packages/graph/src/graph/chunk_loader.py:194-296 | after `n` turns the nodes are the earlier ones, the Document and the first `n` chunks |
| ChunkLoader.LoadLinksNext | packages/graph/src/graph/chunk_loader.py:219-296 | one more turn adds the links of one more chunk |
| ChunkLoader.LoadEdges | packages/graph/src/graph/chunk_loader.py:194-296 | after `n` turns the edges are the earlier ones, HAS_LABEL, every CONTAINS_CHUNK, the NEXT chain and, when linking, the MENTIONS links |
| ChunkLoader.LoadFileRaised | packages/graph/src/graph/chunk_loader.py:174-175 | a file whose chunking raises gives no statistics and writes nothing |
| ChunkLoader.LoadFileEmpty | packages/graph/src/graph/chunk_loader.py:176-177 | a file with no chunks writes nothing and reports zero counts with the error `No chunks generated` |
| ChunkLoader.LoadFileCounts | packages/graph/src/graph/chunk_loader.py:179-260 | a file with chunks reports the first chunk's product number, all its chunks, no error and one NEXT link per written chunk after the first |
| ChunkLoader.LoadFileMentions | packages/graph/src/graph/chunk_loader.py:262-298 | the MENTIONS counts a file reports are matched against the entity nodes present before its load |
| ChunkLoader.LoadFileGraph | packages/graph/src/graph/chunk_loader.py:147-298 | loading a file adds its Document and written chunks as nodes and their links as edges, and leaves entity nodes alone |
| ChunkLoader.LoadLinksSame | packages/graph/src/graph/chunk_loader.py:194-296 | the links a load makes depend only on the entity nodes of the graph |
| ChunkLoader.LoadFileAgain | packages/graph/src/graph/chunk_loader.py:196-296 | a second load of a file with chunks finds every node and edge it writes already there (MERGE) |
| ChunkLoader.LoadFileTwice | packages/graph/src/graph/chunk_loader.py:147-298 | loading the same file twice adds no node and no edge the first load did not |
| ChunkLoader.LinkNames | packages/graph/src/graph/chunk_loader.py:266-280 | one MENTIONS query per name: the store becomes the linked graph and the sum of `linked` is the match count |
| ChunkLoader.WriteChunkNode | packages/graph/src/graph/chunk_loader.py:219-260 | steps 3 and 4 on the store give the specified graph and NEXT count |
| ChunkLoader.LinkChunkOp | packages/graph/src/graph/chunk_loader.py:262-296 | step 5 on the store gives the specified graph and MENTIONS counts |
| ChunkLoader.WriteChunk | packages/graph/src/graph/chunk_loader.py:219-296 | one turn of the chunk loop on the store gives the specified graph and counters |
| ChunkLoader.LoadUpToNext | packages/graph/src/graph/chunk_loader.py:219 | turn `i + 1` is chunk `i` written on top of the first `i` |
| ChunkLoader.WriteNext | packages/graph/src/graph/chunk_loader.py:219-296 | the store after the next turn is the specified state for one more chunk |
| ChunkLoader.WriteChunks | packages/graph/src/graph/chunk_loader.py:219-296 | the chunk loop writes the zipped chunk and embedding pairs, stopping at the shorter list |
| ChunkLoader.WriteDocument | packages/graph/src/graph/chunk_loader.py:195-216 | steps 1 and 2 on the store give the specified graph |
| ChunkLoader.LoadChunksFromDocling | packages/graph/src/graph/chunk_loader.py:147-298 | the store and statistics after loading one file are those of the specification |
| ChunkLoader.LoadFileChunks | packages/graph/src/graph/chunk_loader.py:183 | the chunk count a file reports is the number of chunks its chunking made |
| ChunkLoader.DirFilesSpec | packages/graph/src/graph/chunk_loader.py:324-326 | the files are sorted, only `.docling.json` names of the directory, at most `limit` of them when it is truthy |
| ChunkLoader.DirAccounting | packages/graph/src/graph/chunk_loader.py:338-354 | every file is either processed or recorded as an error, and the errors are exactly the files whose chunking raised |
| ChunkLoader.DirChunkTotal | packages/graph/src/graph/chunk_loader.py:348 | the chunk total is the number of chunks the chunker made of the files |
| ChunkLoader.LoadFilesNext | packages/graph/src/graph/chunk_loader.py:338-354 | one more file takes its statistics into the totals, or its name into the errors |
| ChunkLoader.AddFileOp | packages/graph/src/graph/chunk_loader.py:347-354 | the totals after one file are the specified ones |
| ChunkLoader.LoadChunksDirectory | packages/graph/src/graph/chunk_loader.py:301-356 | the store and totals after loading a directory are those of the specification |
| Loader.NormalizeCropShape | packages/graph/src/graph/loader.py:21-23 | a normalised crop name has no upper-case letter and no whitespace at either end |
| Loader.NormalizeCropIdempotent | packages/graph/src/graph/loader.py:21-23 | normalising a normalised crop name changes nothing |
| Loader.NormalizeWeedShape | packages/graph/src/graph/loader.py:26-32 | a normalised weed name has no upper-case letter and no whitespace at either end, and is empty exactly when the crop normalisation of the same text is |
| Loader.NormalizeCropKeepsOut | packages/graph/src/graph/loader.py:21-23 | normalising brings in no character other than letters |
| Loader.NormalizeWeedPlain | packages/graph/src/graph/loader.py:26-32 | a name without an apostrophe normalises as a crop name does (`'s` is the only extra rewrite) |
| Loader.RemoveTrailing | packages/graph/src/graph/loader.py:63 | removing a pattern from the end of a text that never holds its first character leaves the text |
| Loader.ProductNumberOfLabelFile | packages/graph/src/graph/loader.py:63 | a record without its own product number, read from `<digits>ELBL.json`, loads under the digits |
| Loader.LoadModeOfActionWrites | packages/graph/src/graph/loader.py:100-111 | step 3 adds the HAS_MODE_OF_ACTION link only when a group is given and the Herbicide and the ModeOfAction of the upper-cased group exist; it writes no node |
| Loader.KeptSpec | packages/graph/src/graph/loader.py:145-150 | exactly the entries whose weed and crop both normalise to text are kept |
| Loader.SkippedWriteNothing | packages/graph/src/graph/loader.py:149-150 | skipped entries write nothing: loading the list is loading its kept entries |
| Loader.ScientificNameKept | packages/graph/src/graph/loader.py:153-162 | an entry without a scientific name leaves the weed's scientific name as it was (`COALESCE`) |
| Loader.AddNamesWrites | packages/graph/src/graph/loader.py:152-172 | the weed and crop nodes exist afterwards, the weed holding the entry's names over what it held; no edge changes |
| Loader.AddControlWrites | packages/graph/src/graph/loader.py:174-196 | the CONTROLS edge keyed by crop is made when the Herbicide and the weed exist and holds the entry's properties; no node changes |
| Loader.StateEdgesNext | packages/graph/src/graph/loader.py:199-208 | one more state adds its REGISTERED_IN link when the State of the upper-cased code exists |
| Loader.LinkStatesWrites | packages/graph/src/graph/loader.py:199-208 | the state loop adds exactly the REGISTERED_IN edges to existing States when the Herbicide exists, and changes no node |
| Loader.StateEdgesAfterNames | packages/graph/src/graph/loader.py:152-208 | creating the weed and crop nodes does not change which States an entry links to |
| Loader.EntryWrites | packages/graph/src/graph/loader.py:145-208 | a kept entry adds its weed and crop nodes, its CONTROLS edge with the entry's properties and its state links, and nothing else |
| Loader.EntryReload | packages/graph/src/graph/loader.py:176-195 | a second entry under the same weed and crop adds no CONTROLS edge: the keyed edge takes the later entry's properties |
| Loader.WriteHerbicide | packages/graph/src/graph/loader.py:61-111 | steps 1 to 3 on the store give the specified graph |
| Loader.WriteCrops | packages/graph/src/graph/loader.py:113-129 | step 4 on the store gives the specified graph and counts every crop |
| Loader.WriteWeeds | packages/graph/src/graph/loader.py:131-142 | step 5 on the store gives the specified graph and counts every weed |
| Loader.WriteStates | packages/graph/src/graph/loader.py:198-208 | the state loop on the store gives the specified graph |
| Loader.WriteEntryOp | packages/graph/src/graph/loader.py:152-208 | a kept entry's writes on the store give the specified graph |
| Loader.AddEntryOp | packages/graph/src/graph/loader.py:145-208 | one turn of step 6 on the store gives the specified graph and reports whether the entry was kept |
| Loader.KeptNext | packages/graph/src/graph/loader.py:149-196 | `controls_rels` grows by one exactly for a kept entry |
| Loader.LoadEntriesNext | packages/graph/src/graph/loader.py:145 | the entries are loaded in order, one on top of the others |
| Loader.WriteEntries | packages/graph/src/graph/loader.py:144-208 | step 6 on the store gives the specified graph and counts the kept entries |
| Loader.LoadFromJson | packages/graph/src/graph/loader.py:35-210 | `load_from_json` gives the specified graph and statistics |
| Loader.RecordFilesSpec | packages/graph/src/graph/loader.py:242-247 | only `.json` files not starting with `_` are loaded, all of them without a limit and at most `limit` with one |
| Loader.DirAccounting | packages/graph/src/graph/loader.py:263-280 | every file either succeeds or is counted as an error, and `total_files` is the number selected |
| Loader.DirErrors | packages/graph/src/graph/loader.py:274-280 | the files listed as errors are exactly the unreadable ones, one per counted error |
| Loader.DirControls | packages/graph/src/graph/loader.py:271 | the CONTROLS total counts the kept entries of the readable files |
| Loader.DirectoryAccounting | packages/graph/src/graph/loader.py:213-282 | for a whole directory, `succeeded` and `errors` add up to `total_files`, and the error files are the unreadable ones |
| Loader.LoadRecordOp | packages/graph/src/graph/loader.py:266-267 | one file is read, then loaded unless reading raised |
| Loader.AddResultOp | packages/graph/src/graph/loader.py:268-280 | the summary after one file is the specified one |
| Loader.LoadJsonDirectory | packages/graph/src/graph/loader.py:213-282 | the store and summary after loading a directory are those of the specification |
| Cleaner.CollapseSpaceShape | packages/ingestion/src/ingestion/cleaner.py:167 | `re.sub(r'\s+', ' ', ..)` gives empty only for empty input, keeps whether the ends are whitespace, leaves only single spaces and no two whitespace characters in a row |
| Cleaner.CollapseFixed | packages/ingestion/src/ingestion/cleaner.py:167 | collapsing text that already has only single spaces changes nothing |
| Cleaner.NormalizeTextShape | packages/ingestion/src/ingestion/cleaner.py:165-167 | normalised text has no upper-case letter, no whitespace at either end, no two whitespace characters in a row, and only spaces as whitespace |
| Cleaner.NormalizeTextIdempotent | packages/ingestion/src/ingestion/cleaner.py:165-167 | normalising normalised text changes nothing |
| Cleaner.FrontmatterSplit | packages/ingestion/src/ingestion/cleaner.py:170-176 | frontmatter is found iff the content starts with `---` and holds a second `---`; then it is the text between them re-wrapped in `---` with a newline, and without it the body is the whole content |
| Cleaner.Excise | packages/ingestion/src/ingestion/cleaner.py:186-187 | cutting ordered, disjoint match spans removes exactly the characters they cover |
| Cleaner.ExcisePrefix | packages/ingestion/src/ingestion/cleaner.py:186-187 | the text before the first cut span is kept |
| Cleaner.ExciseFront | packages/ingestion/src/ingestion/cleaner.py:186-187 | cutting the later spans first (as `reversed` does) leaves the positions of an earlier span valid, so it can then be cut |
| Cleaner.KeepFirstKeepsFirst | packages/ingestion/src/ingestion/cleaner.py:184-187 | with several matches, everything up to the second match is kept (the first occurrence survives) and exactly the later matches' characters are removed |
| Cleaner.CutLaterMatches | packages/ingestion/src/ingestion/cleaner.py:184-187 | the reversed cut loop removes every match but the first |
| Cleaner.DeduplicateSections | packages/ingestion/src/ingestion/cleaner.py:179-188 | the patterns are applied in order, each keeping only its first occurrence |
| Cleaner.FilterOrdered | packages/ingestion/src/ingestion/cleaner.py:237-239 | a selection of ordered, disjoint spans is still ordered and disjoint |
| Cleaner.CutStep | packages/ingestion/src/ingestion/cleaner.py:237-239 | one turn of the reversed cut loop removes the span when it is selected |
| Cleaner.SelectionAfterFirst | packages/ingestion/src/ingestion/cleaner.py:233-239 | every selected later match starts after the first match ends |
| Cleaner.SelectionKeepsFirst | packages/ingestion/src/ingestion/cleaner.py:233-239 | cutting selected later matches keeps everything up to the end of the first match |
| Cleaner.CutSelected | packages/ingestion/src/ingestion/cleaner.py:237-239 | the reversed loop cuts exactly the selected later matches |
| Cleaner.DropRepeatedHeadersKeepsFirst | packages/ingestion/src/ingestion/cleaner.py:220-241 | the first product header block survives |
| Cleaner.DropRepeatedHeadersCuts | packages/ingestion/src/ingestion/cleaner.py:236-239 | a later header block is cut iff its lower-cased, stripped text equals the first block's |
| Cleaner.RemoveDuplicateProductHeaders | packages/ingestion/src/ingestion/cleaner.py:220-241 | the function cuts the later header blocks equal to the first and nothing else |
| Cleaner.SplitBlocks | packages/ingestion/src/ingestion/cleaner.py:197 | `re.split(r'\n{2,}', ..)` always gives at least one paragraph, and the first is the text up to the first separator |
| Cleaner.SplitBlocksRejoin | packages/ingestion/src/ingestion/cleaner.py:197 | there is one separator fewer than paragraphs, each separator is a run of two or more newlines, and putting the separators back between the paragraphs gives the input |
| Cleaner.SplitBlocksPieces | packages/ingestion/src/ingestion/cleaner.py:197 | no paragraph contains two newlines in a row; no paragraph but the last ends in a newline and no paragraph but the first begins with one, so each run between paragraphs is matched whole |
| Cleaner.LongFormsNext | packages/ingestion/src/ingestion/cleaner.py:202-215 | one more paragraph adds its normalised form to the seen set only when it is not short |
| Cleaner.UniqueBlocksNext | packages/ingestion/src/ingestion/cleaner.py:202-215 | a paragraph is kept iff it is short or its normalised form has not been seen |
| Cleaner.UniqueBlocksKeepsShort | packages/ingestion/src/ingestion/cleaner.py:204-206 | every short paragraph is kept, in order |
| Cleaner.UniqueBlocksKeepsForms | packages/ingestion/src/ingestion/cleaner.py:208-215 | every normalised form of a long paragraph still occurs: nothing is lost but repeats |
| Cleaner.UniqueBlocksDistinct | packages/ingestion/src/ingestion/cleaner.py:208-215 | no two kept long paragraphs have the same normalised form |
| Cleaner.RemoveDuplicateBlocks | packages/ingestion/src/ingestion/cleaner.py:191-217 | the paragraph loop keeps the specified paragraphs and joins them with blank lines |
| Cleaner.EmptyIfBlank | packages/ingestion/src/ingestion/cleaner.py:260 | a line of only spaces and tabs becomes empty; any other line is kept |
| Cleaner.TrimBlanks | packages/ingestion/src/ingestion/cleaner.py:266 | trailing spaces and tabs are removed from a line, and nothing else |
| Cleaner.Collapse | packages/ingestion/src/ingestion/cleaner.py:263 | collapsing blank-line runs leaves no two empty lines in a row, brings in no line and keeps the last line |
| Cleaner.SquashEmptySpec | packages/ingestion/src/ingestion/cleaner.py:263 | after collapsing there are no two consecutive empty lines and every line comes from the input |
| Cleaner.JoinStart | packages/ingestion/src/ingestion/cleaner.py:263 | joined lines start with a newline only when the first line is empty |
| Cleaner.NoTripleNewline | packages/ingestion/src/ingestion/cleaner.py:263 | lines without newlines and without two empty lines in a row join into text with no three newlines in a row |
| Cleaner.TidyShape | packages/ingestion/src/ingestion/cleaner.py:258-269 | the tidied body has no whitespace at either end and no three newlines in a row |
| Cleaner.CleanedShape | packages/ingestion/src/ingestion/cleaner.py:244-271 | the cleaned content is the frontmatter, a newline, a tidy body and a final newline |
| Cleaner.CleanContent | packages/ingestion/src/ingestion/cleaner.py:244-271 | `clean_content` applies the stages in order and gives the specified text |
| Cleaner.Report | packages/ingestion/src/ingestion/cleaner.py:282-312 | the report names the file and succeeds exactly when the file can be read |
| Cleaner.Reports | packages/ingestion/src/ingestion/cleaner.py:348-370 | one result per file |
| Cleaner.ReportsSpec | packages/ingestion/src/ingestion/cleaner.py:348-370 | result `i` is the report of file `i` |
| Cleaner.ReportsNext | packages/ingestion/src/ingestion/cleaner.py:348-370 | the loop appends one report per file in order |
| Cleaner.DirectorySummaryAccounting | packages/ingestion/src/ingestion/cleaner.py:315-386 | `files_succeeded + files_failed == files_processed` is the number of results, each result is a globbed file that is not already cleaned |
| Cleaner.CleanFile | packages/ingestion/src/ingestion/cleaner.py:282-312 | cleaning one file gives the specified report |
| Cleaner.CleanFiles | packages/ingestion/src/ingestion/cleaner.py:344-370 | the file loop gives the specified results and byte totals |
| Cleaner.CleanDirectory | packages/ingestion/src/ingestion/cleaner.py:315-386 | `clean_directory` gives the specified summary |
| LabelParser.KeysAppend | packages/ingestion/src/ingestion/parser.py:139-142 | the keys of two dicts laid end to end are the keys of the first followed by those of the second |
| LabelParser.PutGet | packages/ingestion/src/ingestion/parser.py:146 | an assigned key reads back the assigned value, and every other key reads as before |
| LabelParser.PutKeys | packages/ingestion/src/ingestion/parser.py:146 | assigning a new key appends it at the end; assigning an existing key keeps the key order |
| LabelParser.PutKeepsKeysDistinct | packages/ingestion/src/ingestion/parser.py:224-225 | a dict with distinct keys still has distinct keys after an assignment |
| LabelParser.PutFoundsSpec | packages/ingestion/src/ingestion/parser.py:144-162 | the conditional assignments of new, distinct keys add exactly the matched entries at the end, in order, and keep the keys distinct |
| LabelParser.PutFoundsFresh | packages/ingestion/src/ingestion/parser.py:144-162 | conditional assignments into an empty dict give the matched entries in order |
| LabelParser.PutFoundNew | packages/ingestion/src/ingestion/parser.py:145-146 | a search that matched adds its key at the end; one that did not leaves the dict alone |
| LabelParser.FieldsSpec | packages/ingestion/src/ingestion/parser.py:136-164 | the metadata are product number and source file, then each matched field in pattern order; no key repeats |
| LabelParser.ProductMetadataSpec | packages/ingestion/src/ingestion/parser.py:136-164 | the product metadata hold the product number and file name first and then only the fields whose pattern matched, stripped, with the actives' line breaks turned into spaces |
| LabelParser.LabelFileNumber | packages/ingestion/src/ingestion/parser.py:140 | a label file `<digits>ELBL.pdf` has the digits as its product number |
| LabelParser.DropMarker | packages/ingestion/src/ingestion/parser.py:140 | removing `ELBL` from `<digits>ELBL.pdf` leaves `<digits>.pdf` |
| LabelParser.QuoteLeftBare | packages/ingestion/src/ingestion/parser.py:172-174 | as written, a value holding a double quote is wrapped in quotes with the inner quote left bare |
| LabelParser.OpenedEntries | packages/ingestion/src/ingestion/parser.py:170-176 | joining the opening fence and the unescaped entry lines gives the fence, then each entry line ending in a line break |
| LabelParser.FrontmatterShape | packages/ingestion/src/ingestion/parser.py:167-178 | the frontmatter as written is `---`, one unescaped line per key in insertion order, then `---` and a blank line |
| LabelParser.FrontmatterLineSpec | packages/ingestion/src/ingestion/parser.py:171-176 | corrected line (see Findings): with the escape `\"` that was evidently intended, a value holding a colon, a line break or a quote is written as exactly its escaped text between quotes, no quote in it is left bare, and dropping the added backslashes gives back the value; any other value is written as is |
| LabelParser.FrontmatterLineCases | packages/ingestion/src/ingestion/parser.py:171-176 | every line starts with its key and a colon; a string value holding a colon, a line break or a quote is written unchanged between double quotes, any other value as its text |
| LabelParser.FrontmattersAgree | packages/ingestion/src/ingestion/parser.py:167-178 | when no text value holds a double quote, the frontmatter as written equals the one with quotes escaped |
| LabelParser.BuildFrontmatter | packages/ingestion/src/ingestion/parser.py:167-178 | the line-gathering loop returns the fence, one unescaped `key: value` line per entry in insertion order, and the closing fence |
| LabelParser.MaxOf | packages/ingestion/src/ingestion/parser.py:132 | the maximum is one of the candidates and no candidate exceeds it |
| LabelParser.CandidatesPositive | packages/ingestion/src/ingestion/parser.py:119-130 | every page-count candidate is positive |
| LabelParser.KeyCandidatesPositive | packages/ingestion/src/ingestion/parser.py:124-127 | only integers greater than zero under the page keys become candidates |
| LabelParser.PageCountSpec | packages/ingestion/src/ingestion/parser.py:116-133 | the page count is the largest candidate, positive, when there is one, and otherwise the number of documents |
| LabelParser.NoKeyCandidates | packages/ingestion/src/ingestion/parser.py:110-113 | a payload that is not a dict contributes no candidate |
| LabelParser.SingleDocumentPage | packages/ingestion/src/ingestion/parser.py:131-133 | a single document without dict metadata counts as one page |
| LabelParser.PayloadPages | packages/ingestion/src/ingestion/parser.py:123-130 | the inner loops collect the page-key values and then the `page_labels` length of one payload |
| LabelParser.InferPageCount | packages/ingestion/src/ingestion/parser.py:116-133 | the page-count loop returns the inferred page count |
| LabelParser.ParsePdf | packages/ingestion/src/ingestion/parser.py:185-239 | a file is skipped exactly when its output exists and `force` is off; a failure carries an error and leaves no output file |
| LabelParser.ParsePdfSkips | packages/ingestion/src/ingestion/parser.py:206-209 | an existing output without force is a skipped success, leaves the file alone, and does not depend on the parsing service |
| LabelParser.ParsedMetadataSpec | packages/ingestion/src/ingestion/parser.py:223-226 | the metadata of a parsed file hold the page count and the parser name, with no repeated key |
| LabelParser.ParsePdfResult | packages/ingestion/src/ingestion/parser.py:198-239 | a result is a success exactly when it has no error, and a skip is always a success |
| LabelParser.ParsePdfFailure | packages/ingestion/src/ingestion/parser.py:211-239 | a failure keeps the raised message (or names the empty result or empty text) and leaves no output file |
| LabelParser.ParsePdfSuccess | packages/ingestion/src/ingestion/parser.py:211-233 | a parse that is not skipped succeeds exactly when documents came back with non-blank joined text; the file then holds the frontmatter as written (quotes in values left unescaped) followed by that text, and the page count is reported |
| LabelParser.RemoveFirstSpec | packages/ingestion/src/ingestion/parser.py:284-285 | removing a stem from a list without duplicates removes exactly that stem |
| LabelParser.StoreAfterSpec | packages/ingestion/src/ingestion/parser.py:272-290 | `failed` never gains a duplicate; after a file that was not skipped its stem is listed exactly when it failed; other stems are unaffected; a skip changes nothing |
| LabelParser.TallyCounts | packages/ingestion/src/ingestion/parser.py:266-290 | parsed + skipped + failed equals the number of PDFs, and `failed` stays free of duplicates |
| LabelParser.ParseDirectory | packages/ingestion/src/ingestion/parser.py:256-293 | the directory loop returns the stats and the metadata store the per-file tally gives |
| LocalParser.Dashes | packages/ingestion/src/ingestion/local_parser.py:59 | the separator has one `---` per header |
| LocalParser.RowLineShape | packages/ingestion/src/ingestion/local_parser.py:58-63 | every table line starts with `\| ` and ends with ` \|` and a line break, and has no other line break when its cells have none |
| LocalParser.CellTextSpec | packages/ingestion/src/ingestion/local_parser.py:62 | a cell has no line break; a missing or empty cell is the empty string; any other cell is stripped |
| LocalParser.TableMarkdownEmpty | packages/ingestion/src/ingestion/local_parser.py:48-49 | the markdown is empty exactly when the headers or the rows are missing or empty |
| LocalParser.TableLinesSpec | packages/ingestion/src/ingestion/local_parser.py:51-65 | a table gives 2 + the number of rows lines: the header line, the separator, then one line per row of cleaned cells |
| LocalParser.BodyLineShape | packages/ingestion/src/ingestion/local_parser.py:61-63 | a body line is a full line with no inner line break |
| LocalParser.TableLinesFull | packages/ingestion/src/ingestion/local_parser.py:58-63 | every line of the table starts with `\| ` and ends with ` \|` and a line break |
| LocalParser.TableLinesUnbroken | packages/ingestion/src/ingestion/local_parser.py:55-63 | the separator and body lines hold no inner line break, and the header line holds none when no header does |
| LocalParser.TableToMarkdown | packages/ingestion/src/ingestion/local_parser.py:46-65 | the row loop builds the table markdown |
| LocalParser.PageTablesSpec | packages/ingestion/src/ingestion/local_parser.py:31-43 | the kept tables are at most the detected ones, each has rows, and every detected table with more than one row is kept with its first row as headers |
| LocalParser.ExtractTablesFromPage | packages/ingestion/src/ingestion/local_parser.py:25-43 | the table loop returns the tables the filter keeps |
| Strings.DropNewlines | packages/ingestion/src/ingestion/local_parser.py:71 | dropping a run of line breaks leaves a suffix that does not start with a line break, and only line breaks were dropped |
| LocalParser.CollapseSpec | packages/ingestion/src/ingestion/local_parser.py:71 | after collapsing, no three line breaks follow each other, and no character other than line breaks and hyphens changes |
| LocalParser.DehyphenGlyphs | packages/ingestion/src/ingestion/local_parser.py:73 | joining hyphenated words removes only hyphens and line breaks |
| LocalParser.DehyphenNoTriple | packages/ingestion/src/ingestion/local_parser.py:71-73 | joining hyphenated words does not create a run of three line breaks |
| LocalParser.CleanTextSpec | packages/ingestion/src/ingestion/local_parser.py:68-74 | the cleaned text has no run of three line breaks, no whitespace at either end, and keeps every character but line breaks and hyphens |
| LocalParser.ScanHeadline | packages/ingestion/src/ingestion/local_parser.py:83-89 | the line loop stops at the first of the first ten lines that is a headline |
| LocalParser.ProductNameSpec | packages/ingestion/src/ingestion/local_parser.py:83-94 | a `Label Name:` match wins; otherwise the name is the first headline (non-empty, unmarked, longer than five, upper case) among the first ten lines, and there is none when no such line exists |
| LocalParser.LocalFieldsSpec | packages/ingestion/src/ingestion/local_parser.py:77-117 | the metadata hold the matched fields in order, with no repeated key |
| LocalParser.LocalMetadataSpec | packages/ingestion/src/ingestion/local_parser.py:77-117 | the first-page metadata are the product name, the approval number, the first line of the actives, the group and the signal heading, each only when found |
| LocalParser.FrontmatterOpens | packages/ingestion/src/ingestion/local_parser.py:172-177 | the frontmatter opens with the fence and the quoted product number |
| LocalParser.LocalProductNumber | packages/ingestion/src/ingestion/local_parser.py:172-174 | a stem `<digits>ELBL` gives the product number `<digits>` |
| LocalParser.MetadataLineSpec | packages/ingestion/src/ingestion/local_parser.py:178-181 | each metadata line is `key: "value"` with every quote escaped and the text otherwise unchanged |
| Strings.EscapeKeepsText | packages/ingestion/src/ingestion/local_parser.py:180 | escaping adds only backslashes |
| LocalParser.BuildLocalFrontmatter | packages/ingestion/src/ingestion/local_parser.py:172-182 | the metadata loop builds the frontmatter |
| LocalParser.ReadPages | packages/ingestion/src/ingestion/local_parser.py:146-165 | the page loop joins each page's text, with a page marker before every page after the first, and collects the tables in page order |
| LocalParser.BuildTablesSection | packages/ingestion/src/ingestion/local_parser.py:184-191 | the tables loop numbers the tables from 1, and there is no section without tables |
| LocalParser.ParsePdfLocal | packages/ingestion/src/ingestion/local_parser.py:120-204 | a file is skipped exactly when its output exists and `force` is off; a failure carries an error and leaves the output file as it was |
| LocalParser.ParsePdfLocalSpec | packages/ingestion/src/ingestion/local_parser.py:120-204 | success exactly without error; an existing output without force is a skip independent of the PDF; a failure keeps the message and leaves the output; a success writes frontmatter, cleaned text and the tables section |
| LocalParser.LocalStoreAfterSpec | packages/ingestion/src/ingestion/local_parser.py:245-257 | `failed` never gains a duplicate and never loses a stem; a failure appends the stem when absent and leaves `parsed` alone; a success sets exactly that stem's entry (pages, `<stem>.md`, metadata), keeps every other entry and leaves `failed` alone; a skip changes nothing |
| LocalParser.LocalTallyCounts | packages/ingestion/src/ingestion/local_parser.py:237-257 | parsed + skipped + failed equals the number of PDFs and `failed` stays free of duplicates |
| LocalParser.ParseAll | packages/ingestion/src/ingestion/local_parser.py:221-260 | the directory loop returns the counts and the store the per-file tally gives |
| MarkdownToGraph.StateCodesShape | packages/ingestion/scripts/markdown_to_graph.py:16-31 | every code the state table maps to is one of the eight state and territory codes, and no key ends in " only" |
| MarkdownToGraph.PieceCodesSpec | packages/ingestion/scripts/markdown_to_graph.py:40-43 | a piece "<name> only" stands for the same codes as "<name>"; an unknown piece stands for none; every code is one of the eight |
| MarkdownToGraph.AllStatesExpands | packages/ingestion/scripts/markdown_to_graph.py:17 | "all states" names all eight codes, in order and without repeats |
| MarkdownToGraph.TokensAreStates | packages/ingestion/scripts/markdown_to_graph.py:35-43 | every token collected from the pieces is one of the eight codes |
| MarkdownToGraph.NormalisedStatesSpec | packages/ingestion/scripts/markdown_to_graph.py:34-48 | the normalised states have no duplicates, hold only the eight codes, and keep the order in which each code was first named |
| MarkdownToGraph.CollectTokens | packages/ingestion/scripts/markdown_to_graph.py:35-43 | the first loop of the state normaliser yields the codes of every stripped piece, in order |
| MarkdownToGraph.DropRepeats | packages/ingestion/scripts/markdown_to_graph.py:44-47 | the second loop keeps a code only if it was not already kept (first-occurrence deduplication) |
| MarkdownToGraph.NormaliseStates | packages/ingestion/scripts/markdown_to_graph.py:34-48 | the state normaliser returns the deduplicated codes of the split, lowercased state text |
| MarkdownToGraph.StripPipes | packages/ingestion/scripts/markdown_to_graph.py:74 | after stripping pipes the text neither starts nor ends with a pipe |
| MarkdownToGraph.TableLineTrimmed | packages/ingestion/scripts/markdown_to_graph.py:72 | a line is a table line exactly when its first non-blank character is a pipe |
| MarkdownToGraph.TableLineStripped | packages/ingestion/scripts/markdown_to_graph.py:101 | the table-line test is the same as asking whether the stripped line starts with a pipe |
| MarkdownToGraph.TableRowsPrefix | packages/ingestion/scripts/markdown_to_graph.py:69-76 | the parsed rows are the cells of a prefix of the lines, every line of which is a table line, and the line after the prefix is not |
| MarkdownToGraph.ParseTable | packages/ingestion/scripts/markdown_to_graph.py:69-76 | the table parser's loop reads rows until the first non-table line and returns exactly those rows |
| MarkdownToGraph.UnitSearch | packages/ingestion/scripts/markdown_to_graph.py:64 | the unit search finds the leftmost position where a `(m?L/g/kg) / ha` match starts, or reports that none exists |
| MarkdownToGraph.RateUnitSpec | packages/ingestion/scripts/markdown_to_graph.py:61-66 | when a unit is found the rate unit has no spaces and ends in "ha" in either case; otherwise it is the stripped rate text |
| MarkdownToGraph.TableRowsOfBlock | packages/ingestion/scripts/markdown_to_graph.py:99-105 | every line of the collected block is a table line, so the parser reads all of it |
| MarkdownToGraph.CollectTableLines | packages/ingestion/scripts/markdown_to_graph.py:99-104 | the collecting loop skips lines before the first table line and stops at the first non-table line after it |
| MarkdownToGraph.DirectionsFound | packages/ingestion/scripts/markdown_to_graph.py:94-96 | there is no table exactly when the lowercased text lacks "# directions for use" |
| MarkdownToGraph.FindDirections | packages/ingestion/scripts/markdown_to_graph.py:94-105 | the table is read from after the first blank line following the directions heading |
| MarkdownToGraph.UsageRows | packages/ingestion/scripts/markdown_to_graph.py:111-118 | one usage per body row that is at least as wide as the header and has five cells or more, in order |
| MarkdownToGraph.UsageStates | packages/ingestion/scripts/markdown_to_graph.py:136 | a scenario's states are the normalised states, or "All States" when none was recognised; never empty |
| MarkdownToGraph.ReadScenario | packages/ingestion/scripts/markdown_to_graph.py:119-146 | a row of five cells gives the usage of crop, first weed name, states, rate unit and text, and the timing constraint when the comment is not blank |
| MarkdownToGraph.ReadUsage | packages/ingestion/scripts/markdown_to_graph.py:116-131 | the row loop yields the usages, the crops and the weed names of the rows of five cells or more |
| MarkdownToGraph.SortedSet | packages/ingestion/scripts/markdown_to_graph.py:157-158 | the identified crops and weeds are sorted, distinct, and hold exactly the collected names |
| MarkdownToGraph.ClassifyOutcome | packages/ingestion/scripts/markdown_to_graph.py:94-165 | each failure status holds exactly under its condition (no heading, fewer than three rows, no usage); a record comes with no status or "incomplete-metadata", the latter exactly when name, approval number or actives is missing |
| MarkdownToGraph.ClassifyLists | packages/ingestion/scripts/markdown_to_graph.py:151-160 | a returned record keeps the metadata, has the non-empty usage list, and sorted distinct crop and weed lists holding exactly the rows' names |
| MarkdownToGraph.ProcessMarkdown | packages/ingestion/scripts/markdown_to_graph.py:79-165 | processing one label's text returns the record and status the classification gives |
| MergeDocling.Plain | scripts/merge_docling_blocks.py:55 | an ordinary character is appended to the current text and finishes no block |
| MergeDocling.SplitJsonBlocks | scripts/merge_docling_blocks.py:22-61 | the character loop returns the blocks of the scanner as written, closing brace doubling included |
| MergeDocling.StepKeepsText | scripts/merge_docling_blocks.py:30-55 | one scanner step appends the character to the text seen so far (twice only on the as-written rejected-candidate path), and every finished block is an accepted JSON candidate |
| MergeDocling.ScanKeepsText | scripts/merge_docling_blocks.py:30-55 | with the corrected close, the finished blocks followed by the pending text give back the input exactly, and every block validated |
| MergeDocling.NeverRejectsSame | scripts/merge_docling_blocks.py:46-54 | when no candidate is ever rejected, the scan as written and the corrected scan agree |
| MergeDocling.SplitRoundTrip | scripts/merge_docling_blocks.py:22-61 | the corrected split keeps markdown last and once, the JSON texts followed by the remainder give back the input, and the markdown block, present exactly when the remainder has text and does not open with `{`, is the stripped remainder |
| MergeDocling.SplitAsWrittenRoundTrip | scripts/merge_docling_blocks.py:46-55 | when every candidate validates, the split as written equals the corrected one and round-trips |
| MergeDocling.ScanBlocksJson | scripts/merge_docling_blocks.py:50 | every block the scan finishes is a JSON block |
| MergeDocling.SplitAsWrittenShape | scripts/merge_docling_blocks.py:58-59 | the markdown block, if any, is the last block |
| MergeDocling.ScanOpen | scripts/merge_docling_blocks.py:41-43 | an opening brace outside a string raises the depth to one |
| MergeDocling.ScanClose | scripts/merge_docling_blocks.py:44-55 | a closing brace back at depth zero whose candidate is rejected is appended twice as written, once when corrected |
| MergeDocling.DoubledBrace | scripts/merge_docling_blocks.py:46-59 | for `x{}` with a rejected candidate, the split as written yields the markdown block `x{}}`, the corrected split `x{}` |
| MergeDocling.FinishText | scripts/merge_docling_blocks.py:58-59 | leftover text that has content and does not open with `{` becomes one markdown block |
| MergeDocling.ParseBlocks | scripts/merge_docling_blocks.py:80-86 | parsing fails exactly when some JSON text fails to parse; otherwise each text's parse, in order |
| MergeDocling.RawEntries | scripts/merge_docling_blocks.py:118-123 | one raw entry per parsed block, carrying its index, its table count and whether it has text items |
| MergeDocling.SomeJson | scripts/merge_docling_blocks.py:70-89 | a split of two blocks or more with markdown only last has a first JSON block to base the merge on |
| MergeDocling.ParseAll | scripts/merge_docling_blocks.py:80-86 | the parse loop stops at the first failure and otherwise collects every parse |
| MergeDocling.CollectTables | scripts/merge_docling_blocks.py:93-97 | the tables of all blocks, in block order |
| MergeDocling.CollectTexts | scripts/merge_docling_blocks.py:100-103 | the string text items with content of all blocks, in block order |
| MergeDocling.AddMarkdown | scripts/merge_docling_blocks.py:106-112 | the stripped non-blank sections of the joined markdown are appended to the text items |
| MergeDocling.CollectRaw | scripts/merge_docling_blocks.py:117-129 | the raw-block loop gives the per-block entries, then the markdown entry when there is markdown |
| MergeDocling.MergeDoclingFile | scripts/merge_docling_blocks.py:63-134 | the merge of a file's blocks is what the merge function gives |
| MergeDocling.MergeOutcome | scripts/merge_docling_blocks.py:70-90 | a file is merged exactly when the split has two blocks or more and every JSON text parses; the merged document is based on the first JSON block |
| MergeDocling.RawBlocksSpec | scripts/merge_docling_blocks.py:117-129 | one raw entry per JSON block, in order with its table count, and one more for the markdown exactly when there is markdown, numbered after them |
| MergeDocling.MergeKeepsData | scripts/merge_docling_blocks.py:93-103 | every table of every block, and every text item with content, is in the merged document |
| MergeDocling.MergedTextsHaveText | scripts/merge_docling_blocks.py:100-114 | every merged text item has content once stripped |
| MergeDocling.TextsOfHaveText | scripts/merge_docling_blocks.py:103 | the text items kept from a block have content |
| MergeDocling.MarkdownTextsHaveText | scripts/merge_docling_blocks.py:110-112 | the sections kept from the markdown have content |
| EvaluateDocling.Plus | scripts/evaluate_docling.py:34-46 | adding no counts leaves the running counts unchanged |
| EvaluateDocling.SumCellsNext | scripts/evaluate_docling.py:42-46 | one more cell adds its own counts to a row's running totals |
| EvaluateDocling.SumRowsNext | scripts/evaluate_docling.py:39-46 | one more row adds its counts to a table's running totals |
| EvaluateDocling.SumTablesNext | scripts/evaluate_docling.py:37-46 | one more table adds its rows' counts to the running totals |
| EvaluateDocling.CountRow | scripts/evaluate_docling.py:42-46 | the cell loop counts every cell, the non-blank string cells, and their stripped characters |
| EvaluateDocling.CountTable | scripts/evaluate_docling.py:38-46 | the row loop skips rows that are not lists and sums the rest |
| EvaluateDocling.CountCells | scripts/evaluate_docling.py:34-46 | the table loop returns the total, non-empty and character counts of all tables |
| EvaluateDocling.SumCellsSane | scripts/evaluate_docling.py:43-46 | in a row, non-empty cells never outnumber cells or their characters |
| EvaluateDocling.SumRowsSane | scripts/evaluate_docling.py:39-46 | in a table, non-empty cells never outnumber cells or their characters |
| EvaluateDocling.CountsBounds | scripts/evaluate_docling.py:34-46 | over all tables, non-empty cells are at most the cells and at most the cell characters |
| EvaluateDocling.NonListRowsIgnored | scripts/evaluate_docling.py:40-41 | rows that are not lists contribute nothing |
| EvaluateDocling.TextCharsOfStrings | scripts/evaluate_docling.py:32 | only string text items count toward the text characters |
| EvaluateDocling.Assess | scripts/evaluate_docling.py:53-65 | the heuristics give the reasons list, and a file is poor exactly when some reason is listed |
| EvaluateDocling.ReasonsSpec | scripts/evaluate_docling.py:55-63 | each reason is listed exactly when its heuristic fires, at most once, and in the fixed order of the heuristics |
| EvaluateDocling.TablesWithoutTextArePoor | scripts/evaluate_docling.py:61-63 | tables with no non-empty cell make a file poor with "tables_present_but_empty" |
| EvaluateDocling.EvaluateFile | scripts/evaluate_docling.py:9-66 | a read error or JSON error is recorded with its message (the latter prefixed `json:`); otherwise the entry holds the first 1000 characters, the counts, the reasons and the verdict |
| Extractor.TruncateSpec | packages/ingestion/src/ingestion/extractor.py:149-151 | content up to 15000 characters is unchanged; longer content keeps its first 15000 characters and ends with the truncation marker |
| Extractor.TruncateIdempotent | packages/ingestion/src/ingestion/extractor.py:150-151 | truncating twice is truncating once |
| Extractor.ProcessSingleFile | packages/ingestion/src/ingestion/extractor.py:162-215 | the result names the file; it is skipped exactly when the stripped content is under 100 characters, a timeout exactly when the model call times out, and a success exactly when the model replied and the save raised nothing |
| Extractor.ShortSkipsCall | packages/ingestion/src/ingestion/extractor.py:171-177 | a short file is skipped as "content too short" whatever the model or the save would do |
| Extractor.SelectFilesSpec | packages/ingestion/src/ingestion/extractor.py:242-249 | every file considered is a globbed file whose name does not start with `_` or contain "cleaned" or "test"; a positive limit bounds their number; no limit keeps them all |
| Extractor.ExistingNotProcessed | packages/ingestion/src/ingestion/extractor.py:265-268 | a file whose output exists is recorded as skipped without calling the model |
| Extractor.SortFiles | packages/ingestion/src/ingestion/extractor.py:262-289 | the loop puts each handled file in the bucket of its status, in order |
| Extractor.FileNames | packages/ingestion/src/ingestion/extractor.py:301 | the timeout file names, in order |
| Extractor.ProcessDirectory | packages/ingestion/src/ingestion/extractor.py:218-308 | the run returns the summary of the selected files' outcomes |
| Extractor.BucketsPartition | packages/ingestion/src/ingestion/extractor.py:274-285 | every handled file lands in exactly one of the four buckets |
| Extractor.SummaryTotals | packages/ingestion/src/ingestion/extractor.py:292-302 | succeeded + errors + timeouts + skipped equals the total number of files |
| Extractor.ExistingIsSkipped | packages/ingestion/src/ingestion/extractor.py:265-268 | a selected file whose output exists is in the skipped bucket |
| Extractor.TimeoutNotError | packages/ingestion/src/ingestion/extractor.py:280-285 | a timeout is in the timeout bucket and not among the errors |
| ResumeGemini.BackoffBounds | packages/ingestion/scripts/resume_gemini.py:37-40 | the wait never exceeds 300 seconds and, for a non-negative base delay, is non-negative and never shrinks from one attempt to the next |
| ResumeGemini.RunSingle | packages/ingestion/scripts/resume_gemini.py:19-46 | the attempt loop returns the outcome, the number of runs and the waits of the retry specification |
| ResumeGemini.RetryRuns | packages/ingestion/scripts/resume_gemini.py:27-46 | at most the remaining attempts are run; success exactly when the last run returned 0; a failure before the last allowed attempt was not a rate limit |
| ResumeGemini.RetryOnlyRateLimits | packages/ingestion/scripts/resume_gemini.py:34-43 | every run before the last failed on a rate limit or quota signal |
| ResumeGemini.RetryWaitCount | packages/ingestion/scripts/resume_gemini.py:36-40 | there are at most as many waits as runs, and one fewer on success |
| ResumeGemini.RetryWaits | packages/ingestion/scripts/resume_gemini.py:37-40 | the wait after each rate-limited attempt is the capped exponential backoff of that attempt |
| ResumeGemini.RunSingleSpec | packages/ingestion/scripts/resume_gemini.py:19-46 | an existing `.json` or `.json.gz` output is a success with no run; otherwise at most `max_retries` runs, none when it is 0 or less |
| ResumeGemini.GatherPdfsSpec | packages/ingestion/scripts/resume_gemini.py:49-54 | the list is sorted; a PDF file is its own list; a directory gives exactly the `.pdf` paths under it |
| Tools.RouteQuery | packages/graph/src/graph/tools.py:468-480 | a query sent anywhere but semantic search holds one of the routing keywords |
| Tools.RoutePrecedence | packages/graph/src/graph/tools.py:473-480 | the rules are tried in order: rotation exactly when a rotation word occurs; cypher exactly when a counting word occurs and no rotation word; graph exactly when a graph word occurs and none of the earlier ones; semantic exactly when no keyword occurs |
| Tools.RouteIgnoresCase | packages/graph/src/graph/tools.py:468-470 | routing depends only on the lowercased query |
| Tools.RouteOrder | packages/graph/src/graph/tools.py:473-474 | a query holding a rotation word goes to the rotation tool whatever other words it holds |
| Tools.MissingQueryIsSemantic | packages/graph/src/graph/tools.py:470-480 | a state without a query falls through to semantic search |
| Tools.PreviewSpec | packages/graph/src/graph/tools.py:116 | the preview starts with the first 500 characters; text of 500 characters or fewer is shown whole; longer text is cut to 500 and ends with "..." |
| Tools.AppendNumbered | packages/graph/src/graph/tools.py:111-116 | the numbering loop appends each result's block, numbered from 1 |
| Tools.VectorSearchTool | packages/graph/src/graph/tools.py:104-121 | the output is the no-chunks message for no results, otherwise the count header followed by one numbered block per result |
| Tools.HitBlockShowsPreview | packages/graph/src/graph/tools.py:111-116 | every result's block shows the preview of its text |
| Tools.AppendBlocks | packages/graph/src/graph/tools.py:155-182 | the listing loop appends the block of each of the first `cap` results, in order |
| Tools.GraphTraversalTool | packages/graph/src/graph/tools.py:146-208 | the output is the weed listing, crop listing, herbicide report or unknown-type message chosen by the lowercased entity type; a value the query returns as null is shown as `None` |
| Tools.SliceToTwice | packages/graph/src/graph/tools.py:155 | capping a capped list again changes nothing |
| Tools.ListingsCapped | packages/graph/src/graph/tools.py:149-182 | weed and crop listings show at most 10 results and are the same as the listing of the first 10 |
| Tools.GraphDispatch | packages/graph/src/graph/tools.py:146-205 | a known entity type is dispatched case-insensitively; any other type gives the unknown-type message |
| Tools.MissingValuesPrintNone | packages/graph/src/graph/tools.py:188-194 | the query of packages/graph/src/graph/queries.py:197-229 always returns the mode of action and the withholding period, so when they are null the report reads `MOA Group: None - None` and ends with `Withholding Period: None`; the `.get` defaults are never shown |
| Tools.ControlsOnlyWhenAsked | packages/graph/src/graph/tools.py:184-202 | without `include_controls` the report is the details head alone; with it, only the first 5 weed controls are shown |
| Tools.ReplaceCharLength | packages/graph/src/graph/tools.py:249 | replacing one character by another keeps the length |
| Tools.ShortPreviewSpec | packages/graph/src/graph/tools.py:249 | a hybrid preview has no line break and is the first 300 characters' length |
| Tools.HybridSearchTool | packages/graph/src/graph/tools.py:239-270 | the output is the header, the numbered blocks of the first 5 chunks, then, when the graph is expanded and there is context, the mentions and herbicides sections |
| Tools.HybridCaps | packages/graph/src/graph/tools.py:246-265 | the output only depends on the first 5 chunks and the first 3 herbicides, and not on the context when the graph is not expanded |
| Tools.AppendGroup | packages/graph/src/graph/tools.py:311-318 | one group's block is appended |
| Tools.ResistanceRotationTool | packages/graph/src/graph/tools.py:302-323 | the output is the no-options message for no groups, otherwise the header and one block per group |
| Tools.RotationCapped | packages/graph/src/graph/tools.py:313 | a group shows only its first 3 options |
| Sorting.Sort | packages/ingestion/scripts/markdown_to_graph.py:157-158 | `sorted` on strings: the result is in lexicographic code-point order and is a permutation of the input |
| Sorting.GlobSpec | packages/ingestion/scripts/resume_gemini.py:53 | a sorted listing holds exactly the names with the suffix, in sorted order |
| Base.Dedup | packages/ingestion/scripts/markdown_to_graph.py:114-130 | a set built from a list has no duplicates and exactly the list's elements |
| Base.AppendAbsentSpec | packages/ingestion/src/ingestion/parser.py:288-290 | appending a stem only when absent keeps a list free of duplicates and adds exactly that stem |
| Base.ApplyLimit | packages/ingestion/src/ingestion/extractor.py:248-249 | the limited list is a prefix, as long as a positive limit allows; no limit or a zero limit keeps the whole list |
| Strings.StripIdempotent | packages/graph/src/graph/loader.py:21-23 | stripping twice is stripping once |
| Strings.SplitJoin | packages/ingestion/src/ingestion/local_parser.py:83 | splitting at a character and joining with it gives back the text, and no piece holds the character |
| Base.SliceTo | packages/graph/src/graph/tools.py:155 | a slice `xs[:n]` is a prefix of `xs` of length `min(n, len(xs))`, counted from the end for a negative `n` |
| Strings.Lower | packages/graph/src/graph/loader.py:23 | lowercasing keeps the length and maps each character by itself |
| Strings.StripEnds | packages/graph/src/graph/loader.py:23 | a stripped string is empty or starts and ends with a non-whitespace character |
| Strings.Stem | packages/ingestion/scripts/resume_gemini.py:20 | a path's stem is a prefix of its name |
| Strings.Suffix | packages/ingestion/scripts/resume_gemini.py:51 | the stem followed by the suffix is the whole name |
| ChunkLoader.EntityNodesTwice | packages/graph/src/graph/chunk_loader.py:262-296 | filtering the graph down to its entity nodes is idempotent, so the MENTIONS matching sees the same entities either way |
| Lines.LineEnd | packages/ingestion/scripts/markdown_to_graph.py:100 | the first line ends at the first of Python's line-break characters, or at the end of the text, with no break before it |
| Lines.SplitLines | packages/ingestion/scripts/markdown_to_graph.py:100 | `splitlines` gives no line for empty text and a line for any other text, and no line holds a line-break character |
| Lines.SplitLinesJoin | packages/ingestion/scripts/markdown_to_graph.py:100 | for text whose only line breaks are `\n` and which does not end in one, joining the lines with `\n` gives the text back |

## Left out

- Text is `seq<char>`. Whitespace (`strip`, `split`, `isspace`, the regex `\s`) is Python's full set, and `splitlines` breaks at all of Python's line boundaries. Case mapping (`lower`, `upper`, `isupper`) changes ASCII letters only, and case-insensitive matching compares ASCII letters only: Python also maps other letters, such as `É` to `é`. The regex classes `\d` and `\w` match ASCII digits, letters and `_` only: Python also matches other Unicode digits and letters.
- The regular expressions named above as abstract are function parameters. The model proves what the code does with their matches, not what the patterns match.
- `json.loads` and `json.load` are parameters: a validity test or a parse result. JSON `null` in a string field is treated like a missing key, so the crashes that a null name or crop causes part-way through a load are not modelled.
- Chunker.ColumnCount: a JSON `null` under `column_count` gives 0, as a missing key does. The source raises `TypeError` there instead, at `None >= 4` (packages/graph/src/graph/chunker.py:119-120) or at `None <= 2` (chunker.py:195); that crash is not modelled.
- MergeDocling.TablesOf: a JSON `null` under `tables` gives no tables, as a missing key does. The source raises `TypeError` at `len(None)` (scripts/merge_docling_blocks.py:121); that crash is not modelled.
- EvaluateDocling.InfoOf: a JSON `null` under `text_items` or `tables` gives an empty list, as the source's own `or []` does (scripts/evaluate_docling.py:29-30).
- JSON values of the wrong shape are not modelled: a document or table that is not an object, or a truthy list field that is not a list. The source crashes or iterates over whatever it got, and the model's typed records cannot hold these values.
- The `error` text of an exception (`str(e)`) is only kept where the model receives it as a value. The chunk loader's directory errors record the file name alone.
- Floating point is not modelled. This covers the tools' score formatting (`:.3f`, which the model takes as an already formatted string), `rate_value` and `extract_numbers` in the markdown converter, and `calculate_reduction` in the cleaner. Resume backoff is modelled over `real`, without the `%d` logging.
- Timestamps (`datetime.now()`, Cypher `datetime()`) are a single `now` value given to each load.
- The file system is a value. A file that exists is a predicate taken before the run; directory listings are lists of names. Path ordering is string ordering. `glob` and `rglob` details are not modelled: hidden files, directories whose name matches, and recursion.
- `list(set(...))` in the entity linker has no defined order in Python; the model fixes first-occurrence order.
- Python's `True` is an `int` for `_infer_page_count`. The model has integer and list fields only: a boolean field is an integer field.
- Chunker.ChunkDoclingJson: requires `max_chunk_tokens` to be positive. With 0, the source raises `ZeroDivisionError` at the first table that needs splitting.
- Chunker: `Chunk.to_dict`, `chunk_directory` and `main` are not modelled. The loader calls the chunker directly on the parsed table list.
- ChunkLoader: `get_embedding_model`, `embed_text` and `embed_batch` are the embedder parameter; batching and model loading are not modelled.
- Loader: schema initialisation (`init_schema`) is not modelled; `schema.py` is not part of this model.
- Cleaner: `clean_file`'s choice of output path and `in_place`, and the percentage from `calculate_reduction`, are not modelled.
- LabelParser: `create_parser` (client configuration), `_document_text` (a document's text is given), `parse_single`, `load_metadata`, `save_metadata` and `main` are not modelled. Exceptions other than the parse service's own are not modelled: the service raising, returning no documents, or returning blank text.
- LocalParser: `parse_single`, the progress output and `main` are not modelled. An exception part-way through table detection keeps the tables found so far; this is modelled by giving the grids extracted before it. Only failures to open the PDF are modelled as errors, not failures while writing.
- MarkdownToGraph: `extract_numbers` and the numeric half of `extract_rate` (floats), and `main`, are not modelled.
- Extractor: the prompt text, the model name in the summary, the pydantic schemas, `get_client`, `_call_gemini`, the rate-limiting sleep and `main` are not modelled. A label field that is not a list is not modelled.
- ResumeGemini: `main` (argument parsing, the thread pool, the limit) and logging are not modelled.
- Tools: `text2cypher_tool` is not modelled. It has the model write a Cypher query, which the database runs; both are outside this model. The LangChain wrappers (`get_langchain_tools`) and the RAG nodes other than `route_query` are not modelled either; they only call the tools. The weed and crop listings and the herbicide report model every column their queries may return as null, and show it as `None`. The vector search, hybrid search and rotation tools take their rows as text. A null value in those rows, which the source prints as `None`, is not modelled. That includes a `product_name` key that is present but null, where the `.get` default `Unknown` is not used.
- Concurrency, logging and printing are not modelled anywhere.
- `gemini_parser.py`, `docling_parser.py`, `queries.py` and `schema.py` are not part of this model.

## Findings

| source | as written | input that shows it | evidently intended | confidence | as-written member | corrected member |
|---|---|---|---|---|---|---|
| packages/ingestion/src/ingestion/parser.py:172-174 | `value.replace('"', '\"')` replaces a quote by itself, because `'\"'` is a lone quote in Python | a value `a"b` gives the line `k: "a"b"`, a YAML string that ends early | quotes escaped as `\"`, as local_parser.py:180 does | not executed | LabelParser.QuoteLeftBare | LabelParser.FrontmatterLineSpec |
| scripts/merge_docling_blocks.py:46-55 | a closing brace at depth 0 is appended once before the `json.loads` test, and again at line 55 when the test fails | the text `x{}`, whose candidate `x{}` is not JSON, leaves the markdown block `x{}}` | the brace appended once, so the scanned text round-trips | not executed | MergeDocling.DoubledBrace | MergeDocling.SplitRoundTrip |

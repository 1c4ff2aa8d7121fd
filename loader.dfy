// Loading the structured herbicide records extracted from labels into the graph
// (packages/graph/src/graph/loader.py).

module Loader {
  import opened Base
  import opened Strings
  import opened GraphStore

  // ---------------------------------------------------------- name normalisation

  /** `normalize_crop_name`: lower-case, then strip. */
  function NormalizeCrop(name: string): string
  {
    Strip(Lower(name))
  }

  /** `normalize_weed_name`: lower-case, strip, then `'s` becomes `s` ("Paterson's" names "patersons"). */
  function NormalizeWeed(name: string): string
  {
    ReplaceAll(Strip(Lower(name)), "'s", "s")
  }

  /** A crop name comes out lower-case and without whitespace at either end. */
  lemma NormalizeCropShape(name: string)
    ensures var r := NormalizeCrop(name);
      NoUpper(r) && (r == [] || (!IsSpace(r[0]) && !IsSpace(r[|r| - 1])))
  {
    LowerHasNoUpper(name);
    StripKeepsNoUpper(Lower(name));
    StripEnds(Lower(name));
  }

  /** Normalising a normalised crop name changes nothing. */
  lemma NormalizeCropIdempotent(name: string)
    ensures NormalizeCrop(NormalizeCrop(name)) == NormalizeCrop(name)
  {
    var r := NormalizeCrop(name);
    NormalizeCropShape(name);
    LowerOfLowered(r);
    StripIdempotent(Lower(name));
  }

  /**
   * A weed name comes out lower-case and without whitespace at either end, and it is empty
   * exactly when the crop normalisation of the same text is.
   */
  lemma NormalizeWeedShape(name: string)
    ensures var r := NormalizeWeed(name);
      NoUpper(r) && (r == [] || (!IsSpace(r[0]) && !IsSpace(r[|r| - 1])))
      && (r == [] <==> NormalizeCrop(name) == [])
  {
    var s := NormalizeCrop(name);
    NormalizeCropShape(name);
    ReplaceKeepsNoUpper(s, "'s", "s");
    ReplaceFirst(s, "'s", "s");
    if s != [] {
      ReplaceKeepsLast(s, "'s", "s");
    }
  }

  /** Normalising a crop name brings in no character that is not a letter. */
  lemma NormalizeCropKeepsOut(name: string, c: char)
    requires c !in name && !IsUpperChar(c) && !IsLowerChar(c)
    ensures c !in NormalizeCrop(name)
  {
    var l := Lower(name);
    assert c !in l;
    StripIsTrimmedMiddle(l);
  }

  /** A name without an apostrophe is normalised the same way as a crop name. */
  lemma NormalizeWeedPlain(name: string)
    requires '\'' !in name
    ensures NormalizeWeed(name) == NormalizeCrop(name)
  {
    var s := NormalizeCrop(name);
    NormalizeCropKeepsOut(name, '\'');
    MissingHead(s, "'s");
    ReplaceAbsent(s, "'s", "s");
  }

  // --------------------------------------------------------------- the records

  /** One entry of `weed_control_entries`; `None` is a missing key. */
  datatype ControlEntry = ControlEntry(
    weedCommonName: Option<string>,
    weedScientificName: Option<string>,
    crop: Option<string>,
    ratePerHa: Option<string>,
    applicationTiming: Option<string>,
    controlLevel: Option<string>,
    criticalComments: Option<string>,
    states: seq<string>)

  /** An extracted herbicide file; `None` is a missing key and a missing list is empty. */
  datatype HerbicideData = HerbicideData(
    productNumber: Option<string>,
    productName: Option<string>,
    activeConstituent: Option<string>,
    chemicalGroup: Option<string>,
    withholdingPeriod: Option<string>,
    applicationMethods: Option<seq<string>>,
    modeOfActionGroup: Option<string>,
    registeredCrops: seq<string>,
    registeredWeeds: seq<string>,
    weedControlEntries: seq<ControlEntry>)

  /** The `stats` dictionary `load_from_json` returns. */
  datatype LoadStats = LoadStats(herbicide: nat, crops: nat, weeds: nat, controlsRels: nat, registeredForRels: nat)

  /** The product number: the record's own, else the file stem with `ELBL` removed. */
  function ProductNumber(data: HerbicideData, fileName: string): string
  {
    GetOr(data.productNumber, ReplaceAll(Stem(fileName), "ELBL", ""))
  }

  /** Removing a pattern from the end of a text that never holds the pattern's first character. */
  lemma {:induction false} RemoveTrailing(s: string, pat: string)
    requires 0 < |pat| && pat[0] !in s
    ensures ReplaceAll(s + pat, pat, "") == s
    decreases |s|
  {
    if s == [] {
      assert (s + pat)[..|pat|] == pat;
      assert (s + pat)[|pat|..] == [];
    } else {
      assert (s + pat)[0] == s[0] != pat[0];
      assert (s + pat)[1..] == s[1..] + pat;
      RemoveTrailing(s[1..], pat);
    }
  }

  /** A label file named `<digits>ELBL.json` without its own product number loads under the digits. */
  lemma ProductNumberOfLabelFile(data: HerbicideData, digits: string)
    requires data.productNumber.None? && forall i :: 0 <= i < |digits| ==> IsDigit(digits[i])
    ensures ProductNumber(data, digits + "ELBL.json") == digits
  {
    var name := digits + "ELBL.json";
    var i := LastIndexOfChar(name, '.');
    assert name[|digits| + 4] == '.';
    assert forall j :: |digits| + 4 < j < |name| ==> name[j] != '.';
    assert i == |digits| + 4;
    assert Stem(name) == digits + "ELBL";
    assert forall j :: 0 <= j < |digits| ==> digits[j] != 'E';
    RemoveTrailing(digits, "ELBL");
  }

  // ------------------------------------------------------------------- node keys

  function ActiveKey(name: string): NodeKey { NodeKey("ActiveConstituent", "name", name) }

  function ModeOfActionKey(group: string): NodeKey { NodeKey("ModeOfAction", "group", group) }

  function CropKey(name: string): NodeKey { NodeKey("Crop", "name", name) }

  function WeedKey(commonName: string): NodeKey { NodeKey("Weed", "common_name", commonName) }

  function StateKey(code: string): NodeKey { NodeKey("State", "code", code) }

  function TextOrNull(o: Option<string>): Option<Value> { if o.Some? then Some(Text(o.value)) else None }

  /** `MERGE (h)-[r:CONTROLS {crop: $crop}]->(w)`: one edge per herbicide, weed and crop. */
  function ControlsEdge(productNumber: string, weed: string, crop: string): EdgeKey
  {
    EdgeKey(HerbicideKey(productNumber), "CONTROLS", WeedKey(weed), Some(KeyProp("crop", crop)))
  }

  function RegisteredInEdge(productNumber: string, state: string): EdgeKey
  {
    EdgeKey(HerbicideKey(productNumber), "REGISTERED_IN", StateKey(Upper(state)), None)
  }

  // ------------------------------------------------------------- steps 1 to 3

  function HerbicideUpdates(data: HerbicideData, now: string): seq<Update>
  {
    [Update("product_name", Some(Text(GetOr(data.productName, "")))),
     Update("active_constituent", Some(Text(GetOr(data.activeConstituent, "")))),
     Update("chemical_group", TextOrNull(data.chemicalGroup)),
     Update("withholding_period", TextOrNull(data.withholdingPeriod)),
     Update("application_methods", Some(TextList(GetOr(data.applicationMethods, [])))),
     Update("updated_at", Some(Text(now)))]
  }

  /** Step 1: the Herbicide node, created if missing, its properties set. */
  function LoadHerbicide(g: Graph, productNumber: string, data: HerbicideData, now: string): Graph
  {
    var h := HerbicideKey(productNumber);
    SetNode(MergeNode(g, h), h, HerbicideUpdates(data, now))
  }

  /** Step 2: a non-empty active constituent gets its node and a CONTAINS link. */
  function LoadActive(g: Graph, productNumber: string, data: HerbicideData): Graph
  {
    var active := GetOr(data.activeConstituent, "");
    if active == "" then g
    else
      var a := ActiveKey(active);
      var g1 := SetNode(MergeNode(g, a), a, [Update("chemical_group", TextOrNull(data.chemicalGroup))]);
      MergeEdge(g1, EdgeKey(HerbicideKey(productNumber), "CONTAINS", a, None))
  }

  /** Step 3: a non-empty mode-of-action group links to the existing ModeOfAction of that group, upper-cased. */
  function LoadModeOfAction(g: Graph, productNumber: string, data: HerbicideData): Graph
  {
    var moa := GetOr(data.modeOfActionGroup, "");
    if moa == "" then g
    else MergeEdge(g, EdgeKey(HerbicideKey(productNumber), "HAS_MODE_OF_ACTION", ModeOfActionKey(Upper(moa)), None))
  }

  /**
   * Step 3 adds the HAS_MODE_OF_ACTION link only when a group is given and the Herbicide and the
   * ModeOfAction of the upper-cased group already exist; the group's case does not matter.
   */
  lemma LoadModeOfActionWrites(g: Graph, productNumber: string, data: HerbicideData)
    ensures var moa := GetOr(data.modeOfActionGroup, "");
      var e := EdgeKey(HerbicideKey(productNumber), "HAS_MODE_OF_ACTION", ModeOfActionKey(Upper(moa)), None);
      var r := LoadModeOfAction(g, productNumber, data);
      r.nodes == g.nodes
      && r.edges.Keys == if moa != "" && HerbicideKey(productNumber) in g.nodes && ModeOfActionKey(Upper(moa)) in g.nodes
                         then g.edges.Keys + {e} else g.edges.Keys
  {
    var moa := GetOr(data.modeOfActionGroup, "");
    if moa != "" {
      MergeEdgeSpec(g, EdgeKey(HerbicideKey(productNumber), "HAS_MODE_OF_ACTION", ModeOfActionKey(Upper(moa)), None));
    }
  }

  // ------------------------------------------------------------- steps 4 and 5

  /** One registered crop: its node under the normalised name, the display name, the REGISTERED_FOR link. */
  function AddCrop(g: Graph, productNumber: string, crop: string): Graph
  {
    var c := CropKey(NormalizeCrop(crop));
    var g1 := SetNode(MergeNode(g, c), c, [Update("display_name", Some(Text(crop)))]);
    MergeEdge(g1, EdgeKey(HerbicideKey(productNumber), "REGISTERED_FOR", c, None))
  }

  /** Step 4 over the first crops of the list. */
  function LoadCrops(g: Graph, productNumber: string, crops: seq<string>): Graph
    decreases |crops|
  {
    if |crops| == 0 then g else AddCrop(LoadCrops(g, productNumber, crops[..|crops| - 1]), productNumber, crops[|crops| - 1])
  }

  /** One registered weed: its node under the normalised name and the display name; no link. */
  function AddWeed(g: Graph, weed: string): Graph
  {
    var w := WeedKey(NormalizeWeed(weed));
    SetNode(MergeNode(g, w), w, [Update("display_name", Some(Text(weed)))])
  }

  /** Step 5 over the first weeds of the list. */
  function LoadWeeds(g: Graph, weeds: seq<string>): Graph
    decreases |weeds|
  {
    if |weeds| == 0 then g else AddWeed(LoadWeeds(g, weeds[..|weeds| - 1]), weeds[|weeds| - 1])
  }

  // ------------------------------------------------------------------- step 6

  function EntryWeed(e: ControlEntry): string { NormalizeWeed(GetOr(e.weedCommonName, "")) }

  function EntryCrop(e: ControlEntry): string { NormalizeCrop(GetOr(e.crop, "")) }

  /** The negation of the `continue`: an entry is loaded only when both its weed and its crop normalise to text. */
  predicate Named(e: ControlEntry) { EntryWeed(e) != "" && EntryCrop(e) != "" }

  /** `COALESCE($scientific_name, w.scientific_name)`: a missing scientific name leaves the old one. */
  function WeedUpdates(e: ControlEntry): seq<Update>
  {
    [Update("display_name", Some(Text(GetOr(e.weedCommonName, ""))))]
    + if e.weedScientificName.Some? then [Update("scientific_name", Some(Text(e.weedScientificName.value)))] else []
  }

  function ControlUpdates(e: ControlEntry): seq<Update>
  {
    [Update("rate_per_ha", Some(Text(GetOr(e.ratePerHa, "")))),
     Update("application_timing", TextOrNull(e.applicationTiming)),
     Update("control_level", Some(Text(GetOr(e.controlLevel, "control")))),
     Update("critical_comments", TextOrNull(e.criticalComments)),
     Update("states", Some(TextList(e.states)))]
  }

  /** The REGISTERED_IN links of the first states of an entry, each to an existing State of the upper-cased code. */
  function LinkStates(g: Graph, productNumber: string, states: seq<string>): Graph
    decreases |states|
  {
    if |states| == 0 then g
    else MergeEdge(LinkStates(g, productNumber, states[..|states| - 1]), RegisteredInEdge(productNumber, states[|states| - 1]))
  }

  /** The REGISTERED_IN links an entry's states can make in a graph with nodes `nodes`. */
  function StateEdges(nodes: map<NodeKey, Props>, productNumber: string, states: seq<string>): set<EdgeKey>
  {
    set s | s in states && StateKey(Upper(s)) in nodes :: RegisteredInEdge(productNumber, s)
  }

  /**
   * The two node MERGEs of a control entry under its normalised names: the weed, whose scientific
   * name is COALESCEd, and the crop.
   */
  function AddNames(g: Graph, e: ControlEntry, weed: string, crop: string): Graph
  {
    var w := WeedKey(weed);
    var c := CropKey(crop);
    var g1 := SetNode(MergeNode(g, w), w, WeedUpdates(e));
    SetNode(MergeNode(g1, c), c, [Update("display_name", Some(Text(GetOr(e.crop, ""))))])
  }

  /** The keyed CONTROLS MERGE of a control entry and the SET of its properties. */
  function AddControl(g: Graph, productNumber: string, e: ControlEntry, weed: string, crop: string): Graph
  {
    var ce := ControlsEdge(productNumber, weed, crop);
    SetEdge(MergeEdge(g, ce), ce, ControlUpdates(e))
  }

  /** The writes of a kept entry: weed and crop nodes, the keyed CONTROLS link with its properties, the state links. */
  function WriteEntry(g: Graph, productNumber: string, e: ControlEntry, weed: string, crop: string): Graph
  {
    LinkStates(AddControl(AddNames(g, e, weed, crop), productNumber, e, weed, crop), productNumber, e.states)
  }

  /** One control entry, skipped unless both names normalise to text. */
  function AddEntry(g: Graph, productNumber: string, e: ControlEntry): Graph
  {
    if !Named(e) then g else WriteEntry(g, productNumber, e, EntryWeed(e), EntryCrop(e))
  }

  function EntryStep(productNumber: string): (Graph, ControlEntry) -> Graph
  {
    (h, e) => AddEntry(h, productNumber, e)
  }

  /** Step 6: the entries in order. */
  function LoadEntries(g: Graph, productNumber: string, entries: seq<ControlEntry>): Graph
  {
    Fold(g, entries, EntryStep(productNumber))
  }

  /** `load_from_json` on a record read from `fileName`; `now` is the time `datetime()` gives. */
  function LoadJson(g: Graph, fileName: string, data: HerbicideData, now: string): Graph
  {
    var productNumber := ProductNumber(data, fileName);
    var g1 := LoadHerbicide(g, productNumber, data, now);
    var g2 := LoadModeOfAction(LoadActive(g1, productNumber, data), productNumber, data);
    LoadEntries(LoadWeeds(LoadCrops(g2, productNumber, data.registeredCrops), data.registeredWeeds),
                productNumber, data.weedControlEntries)
  }

  /** The entries that are not skipped, in order. */
  function Kept(entries: seq<ControlEntry>): seq<ControlEntry>
  {
    Filter(entries, Named)
  }

  /** Exactly the entries with a weed and a crop are kept, and no more of them than there are entries. */
  lemma KeptSpec(entries: seq<ControlEntry>)
    ensures forall e :: e in Kept(entries) <==> e in entries && Named(e)
    ensures |Kept(entries)| <= |entries|
  {
    FilterSpec(entries, Named);
  }

  /** Skipped entries write nothing: loading the list is loading its kept entries. */
  lemma SkippedWriteNothing(g: Graph, productNumber: string, entries: seq<ControlEntry>)
    ensures LoadEntries(g, productNumber, entries) == LoadEntries(g, productNumber, Kept(entries))
  {
    var step := EntryStep(productNumber);
    forall h, e | !Named(e)
      ensures step(h, e) == h
    {
    }
    FoldFilter(g, entries, step, Named);
  }

  // ------------------------------------------------------------- what step 6 writes

  /** An entry without a scientific name leaves the weed's scientific name as it was (`COALESCE`). */
  lemma ScientificNameKept(p: Props, e: ControlEntry)
    requires e.weedScientificName.None?
    ensures "scientific_name" in SetProps(p, WeedUpdates(e)) <==> "scientific_name" in p
    ensures "scientific_name" in p ==> SetProps(p, WeedUpdates(e))["scientific_name"] == p["scientific_name"]
  {
    SetPropsLast(p, WeedUpdates(e), "scientific_name");
  }

  /** The weed and the crop exist afterwards; the weed holds the entry's names over what it held. */
  lemma AddNamesWrites(g: Graph, e: ControlEntry, weed: string, crop: string)
    ensures var w := WeedKey(weed);
      var r := AddNames(g, e, weed, crop);
      r.edges == g.edges
      && r.nodes.Keys == g.nodes.Keys + {w, CropKey(crop)}
      && r.nodes[w] == SetProps(if w in g.nodes then g.nodes[w] else NewNodeProps(w), WeedUpdates(e))
  {
    var w := WeedKey(weed);
    var c := CropKey(crop);
    MergeNodeSpec(g, w);
    SetNodeSpec(MergeNode(g, w), w, WeedUpdates(e));
    var g1 := SetNode(MergeNode(g, w), w, WeedUpdates(e));
    MergeNodeSpec(g1, c);
    SetNodeSpec(MergeNode(g1, c), c, [Update("display_name", Some(Text(GetOr(e.crop, ""))))]);
  }

  /**
   * The CONTROLS edge is created when the Herbicide and the weed exist, and then holds the entry's
   * properties over what it held; its `crop` key is never overwritten.
   */
  lemma AddControlWrites(g: Graph, productNumber: string, e: ControlEntry, weed: string, crop: string)
    ensures var ce := ControlsEdge(productNumber, weed, crop);
      var r := AddControl(g, productNumber, e, weed, crop);
      r.nodes == g.nodes
      && r.edges.Keys == (if HerbicideKey(productNumber) in g.nodes && WeedKey(weed) in g.nodes
                          then g.edges.Keys + {ce} else g.edges.Keys)
      && (ce in r.edges ==> r.edges[ce] == SetProps(if ce in g.edges then g.edges[ce] else NewEdgeProps(ce), ControlUpdates(e)))
      && forall x :: x in g.edges && x != ce ==> r.edges[x] == g.edges[x]
  {
    MergeEdgeSpec(g, ControlsEdge(productNumber, weed, crop));
  }

  lemma StateEdgesNext(nodes: map<NodeKey, Props>, productNumber: string, states: seq<string>)
    requires |states| != 0
    ensures var last := states[|states| - 1];
      StateEdges(nodes, productNumber, states)
      == StateEdges(nodes, productNumber, states[..|states| - 1])
         + if StateKey(Upper(last)) in nodes then {RegisteredInEdge(productNumber, last)} else {}
  {
    assert states == states[..|states| - 1] + [states[|states| - 1]];
  }

  /** The state links add exactly the REGISTERED_IN edges to existing States, when the Herbicide exists. */
  lemma {:induction false} LinkStatesWrites(g: Graph, productNumber: string, states: seq<string>)
    ensures var r := LinkStates(g, productNumber, states);
      r.nodes == g.nodes
      && r.edges.Keys == g.edges.Keys + (if HerbicideKey(productNumber) in g.nodes then StateEdges(g.nodes, productNumber, states) else {})
      && forall x :: x in g.edges ==> r.edges[x] == g.edges[x]
    decreases |states|
  {
    if |states| != 0 {
      var init := states[..|states| - 1];
      LinkStatesWrites(g, productNumber, init);
      MergeEdgeSpec(LinkStates(g, productNumber, init), RegisteredInEdge(productNumber, states[|states| - 1]));
      StateEdgesNext(g.nodes, productNumber, states);
    }
  }

  /** New Weed and Crop nodes do not change which States an entry can link to. */
  lemma StateEdgesAfterNames(a: map<NodeKey, Props>, b: map<NodeKey, Props>, productNumber: string,
                             states: seq<string>, weed: string, crop: string)
    requires b.Keys == a.Keys + {WeedKey(weed), CropKey(crop)}
    ensures StateEdges(a, productNumber, states) == StateEdges(b, productNumber, states)
  {
  }

  /**
   * An entry written after its Herbicide: the weed and crop nodes exist afterwards, the CONTROLS edge
   * keyed by weed and crop exists and holds the entry's properties over whatever it held, and the
   * REGISTERED_IN links go to the existing States of the entry's codes.
   */
  lemma EntryWrites(g: Graph, productNumber: string, e: ControlEntry, weed: string, crop: string)
    requires HerbicideKey(productNumber) in g.nodes
    ensures var ce := ControlsEdge(productNumber, weed, crop);
      var r := WriteEntry(g, productNumber, e, weed, crop);
      r.nodes.Keys == g.nodes.Keys + {WeedKey(weed), CropKey(crop)}
      && r.edges.Keys == g.edges.Keys + {ce} + StateEdges(g.nodes, productNumber, e.states)
      && r.edges[ce] == SetProps(if ce in g.edges then g.edges[ce] else NewEdgeProps(ce), ControlUpdates(e))
  {
    var g1 := AddNames(g, e, weed, crop);
    AddNamesWrites(g, e, weed, crop);
    var g2 := AddControl(g1, productNumber, e, weed, crop);
    AddControlWrites(g1, productNumber, e, weed, crop);
    LinkStatesWrites(g2, productNumber, e.states);
    StateEdgesAfterNames(g.nodes, g2.nodes, productNumber, e.states, weed, crop);
  }

  /**
   * Writing a second entry under the same weed and crop names adds no CONTROLS edge: the one edge
   * keyed by herbicide, weed and crop takes the later entry's properties.
   */
  lemma EntryReload(g: Graph, productNumber: string, e: ControlEntry, e': ControlEntry, weed: string, crop: string)
    requires HerbicideKey(productNumber) in g.nodes
    ensures var ce := ControlsEdge(productNumber, weed, crop);
      var r := WriteEntry(g, productNumber, e, weed, crop);
      var r' := WriteEntry(r, productNumber, e', weed, crop);
      r'.nodes.Keys == r.nodes.Keys
      && (forall x :: x in r'.edges && x.rel == "CONTROLS" ==> x in r.edges)
      && ce in r.edges && ce in r'.edges && r'.edges[ce] == SetProps(r.edges[ce], ControlUpdates(e'))
  {
    EntryWrites(g, productNumber, e, weed, crop);
    EntryWrites(WriteEntry(g, productNumber, e, weed, crop), productNumber, e', weed, crop);
  }

  /** The counters `load_from_json` reports for a record. */
  function JsonStats(data: HerbicideData): LoadStats
  {
    LoadStats(1, |data.registeredCrops|, |data.registeredWeeds|, |Kept(data.weedControlEntries)|, |data.registeredCrops|)
  }

  // ------------------------------------------------------------------ methods

  /** Steps 1 to 3: the Herbicide node, the active constituent, the mode-of-action link. */
  method WriteHerbicide(store: Store, productNumber: string, data: HerbicideData, now: string)
    modifies store
    ensures store.State() == LoadModeOfAction(LoadActive(LoadHerbicide(old(store.State()), productNumber, data, now),
                                                         productNumber, data), productNumber, data)
  {
    var h := HerbicideKey(productNumber);
    store.MergeNodeOp(h);
    store.SetNodeOp(h, HerbicideUpdates(data, now));
    var active := GetOr(data.activeConstituent, "");
    if active != "" {
      var a := ActiveKey(active);
      store.MergeNodeOp(a);
      store.SetNodeOp(a, [Update("chemical_group", TextOrNull(data.chemicalGroup))]);
      store.MergeEdgeOp(EdgeKey(h, "CONTAINS", a, None));
    }
    var moa := GetOr(data.modeOfActionGroup, "");
    if moa != "" {
      store.MergeEdgeOp(EdgeKey(h, "HAS_MODE_OF_ACTION", ModeOfActionKey(Upper(moa)), None));
    }
  }

  /** Step 4, counting every crop in `crops` and in `registered_for_rels`. */
  method WriteCrops(store: Store, productNumber: string, crops: seq<string>) returns (count: nat)
    modifies store
    ensures store.State() == LoadCrops(old(store.State()), productNumber, crops)
    ensures count == |crops|
  {
    ghost var g := store.State();
    count := 0;
    for i := 0 to |crops|
      invariant store.State() == LoadCrops(g, productNumber, crops[..i])
      invariant count == i
    {
      assert crops[..i + 1][..i] == crops[..i];
      var c := CropKey(NormalizeCrop(crops[i]));
      store.MergeNodeOp(c);
      store.SetNodeOp(c, [Update("display_name", Some(Text(crops[i])))]);
      store.MergeEdgeOp(EdgeKey(HerbicideKey(productNumber), "REGISTERED_FOR", c, None));
      count := count + 1;
    }
    assert crops[..|crops|] == crops;
  }

  /** Step 5, counting every weed. */
  method WriteWeeds(store: Store, weeds: seq<string>) returns (count: nat)
    modifies store
    ensures store.State() == LoadWeeds(old(store.State()), weeds)
    ensures count == |weeds|
  {
    ghost var g := store.State();
    count := 0;
    for i := 0 to |weeds|
      invariant store.State() == LoadWeeds(g, weeds[..i])
      invariant count == i
    {
      assert weeds[..i + 1][..i] == weeds[..i];
      var w := WeedKey(NormalizeWeed(weeds[i]));
      store.MergeNodeOp(w);
      store.SetNodeOp(w, [Update("display_name", Some(Text(weeds[i])))]);
      count := count + 1;
    }
    assert weeds[..|weeds|] == weeds;
  }

  /** The inner loop of step 6: one REGISTERED_IN MERGE per state code. */
  method WriteStates(store: Store, productNumber: string, states: seq<string>)
    modifies store
    ensures store.State() == LinkStates(old(store.State()), productNumber, states)
  {
    ghost var g := store.State();
    for j := 0 to |states|
      invariant store.State() == LinkStates(g, productNumber, states[..j])
    {
      assert states[..j + 1][..j] == states[..j];
      store.MergeEdgeOp(RegisteredInEdge(productNumber, states[j]));
    }
    assert states[..|states|] == states;
  }

  /** The writes of one kept entry under its normalised names. */
  method WriteEntryOp(store: Store, productNumber: string, e: ControlEntry, weed: string, crop: string)
    modifies store
    ensures store.State() == WriteEntry(old(store.State()), productNumber, e, weed, crop)
  {
    var w := WeedKey(weed);
    var c := CropKey(crop);
    store.MergeNodeOp(w);
    store.SetNodeOp(w, WeedUpdates(e));
    store.MergeNodeOp(c);
    store.SetNodeOp(c, [Update("display_name", Some(Text(GetOr(e.crop, ""))))]);
    var ce := ControlsEdge(productNumber, weed, crop);
    store.MergeEdgeOp(ce);
    store.SetEdgeOp(ce, ControlUpdates(e));
    WriteStates(store, productNumber, e.states);
  }

  /** One turn of step 6; `written` tells whether the entry was kept and counted in `controls_rels`. */
  method AddEntryOp(store: Store, productNumber: string, e: ControlEntry) returns (written: bool)
    modifies store
    ensures store.State() == AddEntry(old(store.State()), productNumber, e)
    ensures written == Named(e)
  {
    var weed := NormalizeWeed(GetOr(e.weedCommonName, ""));
    var crop := NormalizeCrop(GetOr(e.crop, ""));
    if weed == "" || crop == "" {
      return false;
    }
    WriteEntryOp(store, productNumber, e, weed, crop);
    written := true;
  }

  lemma KeptNext(entries: seq<ControlEntry>, i: nat)
    requires i < |entries|
    ensures |Kept(entries[..i + 1])| == |Kept(entries[..i])| + if Named(entries[i]) then 1 else 0
  {
    assert entries[..i + 1][..i] == entries[..i];
  }

  lemma LoadEntriesNext(g: Graph, productNumber: string, entries: seq<ControlEntry>, i: nat)
    requires i < |entries|
    ensures LoadEntries(g, productNumber, entries[..i + 1])
         == AddEntry(LoadEntries(g, productNumber, entries[..i]), productNumber, entries[i])
  {
    assert entries[..i + 1][..i] == entries[..i];
  }

  /** Step 6, counting the kept entries. */
  method WriteEntries(store: Store, productNumber: string, entries: seq<ControlEntry>) returns (count: nat)
    modifies store
    ensures store.State() == LoadEntries(old(store.State()), productNumber, entries)
    ensures count == |Kept(entries)|
  {
    ghost var g := store.State();
    count := 0;
    for i := 0 to |entries|
      invariant store.State() == LoadEntries(g, productNumber, entries[..i])
      invariant count == |Kept(entries[..i])|
    {
      LoadEntriesNext(g, productNumber, entries, i);
      KeptNext(entries, i);
      var written := AddEntryOp(store, productNumber, entries[i]);
      if written {
        count := count + 1;
      }
    }
    assert entries[..|entries|] == entries;
  }

  /** `load_from_json` on a record read from `fileName`. */
  method LoadFromJson(store: Store, fileName: string, data: HerbicideData, now: string) returns (stats: LoadStats)
    modifies store
    ensures store.State() == LoadJson(old(store.State()), fileName, data, now)
    ensures stats == JsonStats(data)
  {
    var productNumber := GetOr(data.productNumber, ReplaceAll(Stem(fileName), "ELBL", ""));
    WriteHerbicide(store, productNumber, data, now);
    var crops := WriteCrops(store, productNumber, data.registeredCrops);
    var weeds := WriteWeeds(store, data.registeredWeeds);
    var controls := WriteEntries(store, productNumber, data.weedControlEntries);
    stats := LoadStats(1, crops, weeds, controls, crops);
  }

  // ----------------------------------------------------------- a directory of files

  /** The summary `load_directory` returns, less its timestamp; an error records the file's name. */
  datatype Summary = Summary(totalFiles: nat, succeeded: nat, errors: nat, totalCrops: nat, totalWeeds: nat,
                             totalControls: nat, errorFiles: seq<string>)

  datatype DirProgress = DirProgress(graph: Graph, summary: Summary)

  /** A `*.json` name that is not a summary file (those start with `_`). */
  predicate IsRecordFile(name: string) { EndsWith(name, ".json") && !StartsWith(name, "_") }

  /** The files loaded, in directory order, cut to `limit` when it is truthy. */
  function RecordFiles(names: seq<string>, limit: Option<int>): seq<string>
  {
    ApplyLimit(Filter(names, IsRecordFile), limit)
  }

  /** The file selection: only record files of the directory, all of them without a limit, at most `limit` with one. */
  lemma RecordFilesSpec(names: seq<string>, limit: Option<int>)
    ensures forall f :: f in RecordFiles(names, limit) ==> f in names && EndsWith(f, ".json") && !StartsWith(f, "_")
    ensures limit == None ==> forall f :: f in names && IsRecordFile(f) ==> f in RecordFiles(names, limit)
    ensures limit.Some? && 0 < limit.value ==> |RecordFiles(names, limit)| <= limit.value
  {
    var all := Filter(names, IsRecordFile);
    FilterSpec(names, IsRecordFile);
    var r := RecordFiles(names, limit);
    assert r == all[..|r|];
    assert forall f :: f in r ==> f in all;
  }

  /**
   * What `load_from_json` returns for one file: `read` gives the parsed record, or `None` when
   * opening or parsing the file raises, before anything is written.
   */
  function RecordResult(file: string, read: string -> Option<HerbicideData>): Option<LoadStats>
  {
    match read(file)
    case None => None
    case Some(data) => Some(JsonStats(data))
  }

  /** The graph after `load_from_json` on one file. */
  function RecordGraph(g: Graph, file: string, read: string -> Option<HerbicideData>, now: string): Graph
  {
    match read(file)
    case None => g
    case Some(data) => LoadJson(g, file, data, now)
  }

  /** One turn of the file loop: the totals take in the file's statistics, or its name as an error. */
  function AddResult(s: Summary, file: string, result: Option<LoadStats>): Summary
  {
    match result
    case None => s.(errors := s.errors + 1, errorFiles := s.errorFiles + [file])
    case Some(st) => s.(succeeded := s.succeeded + 1, totalCrops := s.totalCrops + st.crops,
                        totalWeeds := s.totalWeeds + st.weeds, totalControls := s.totalControls + st.controlsRels)
  }

  /** The summary after the first `k` files. */
  function SummaryUpTo(files: seq<string>, read: string -> Option<HerbicideData>, k: nat): Summary
    requires k <= |files|
  {
    if k == 0 then Summary(|files|, 0, 0, 0, 0, 0, [])
    else AddResult(SummaryUpTo(files, read, k - 1), files[k - 1], RecordResult(files[k - 1], read))
  }

  /** The graph after the first `k` files. */
  function GraphUpTo(g: Graph, files: seq<string>, read: string -> Option<HerbicideData>, now: string, k: nat): Graph
    requires k <= |files|
  {
    if k == 0 then g else RecordGraph(GraphUpTo(g, files, read, now, k - 1), files[k - 1], read, now)
  }

  /** `load_directory` over a directory holding `names`, schema initialisation aside. */
  function LoadDirectory(g: Graph, names: seq<string>, read: string -> Option<HerbicideData>, limit: Option<int>, now: string): DirProgress
  {
    var files := RecordFiles(names, limit);
    DirProgress(GraphUpTo(g, files, read, now, |files|), SummaryUpTo(files, read, |files|))
  }

  /** The files that cannot be read, in order. */
  function Unreadable(files: seq<string>, read: string -> Option<HerbicideData>): seq<string>
  {
    if |files| == 0 then []
    else Unreadable(files[..|files| - 1], read) + if read(files[|files| - 1]).None? then [files[|files| - 1]] else []
  }

  /** The CONTROLS entries the readable files report. */
  function ControlsTotal(files: seq<string>, read: string -> Option<HerbicideData>): nat
  {
    if |files| == 0 then 0
    else ControlsTotal(files[..|files| - 1], read)
         + match read(files[|files| - 1]) case None => 0 case Some(data) => |Kept(data.weedControlEntries)|
  }

  /** Every file either succeeds or is counted as an error. */
  lemma {:induction false} DirAccounting(files: seq<string>, read: string -> Option<HerbicideData>, k: nat)
    requires k <= |files|
    ensures var s := SummaryUpTo(files, read, k);
      s.totalFiles == |files| && s.succeeded + s.errors == k
    decreases k
  {
    if k != 0 {
      DirAccounting(files, read, k - 1);
    }
  }

  /** The files listed as errors are exactly the files that cannot be read, one per counted error. */
  lemma {:induction false} DirErrors(files: seq<string>, read: string -> Option<HerbicideData>, k: nat)
    requires k <= |files|
    ensures var s := SummaryUpTo(files, read, k);
      s.errors == |s.errorFiles| && s.errorFiles == Unreadable(files[..k], read)
    decreases k
  {
    if k != 0 {
      DirErrors(files, read, k - 1);
      assert files[..k][..k - 1] == files[..k - 1];
    }
  }

  /** The CONTROLS total counts the kept entries of the files that can be read. */
  lemma {:induction false} DirControls(files: seq<string>, read: string -> Option<HerbicideData>, k: nat)
    requires k <= |files|
    ensures SummaryUpTo(files, read, k).totalControls == ControlsTotal(files[..k], read)
    decreases k
  {
    if k != 0 {
      DirControls(files, read, k - 1);
      assert files[..k][..k - 1] == files[..k - 1];
    }
  }

  /** A whole directory: `succeeded` and `errors` add up to `total_files`. */
  lemma DirectoryAccounting(g: Graph, names: seq<string>, read: string -> Option<HerbicideData>, limit: Option<int>, now: string)
    ensures var s := LoadDirectory(g, names, read, limit, now).summary;
      var files := RecordFiles(names, limit);
      s.totalFiles == |files| && s.succeeded + s.errors == s.totalFiles && s.errorFiles == Unreadable(files, read)
  {
    var files := RecordFiles(names, limit);
    DirAccounting(files, read, |files|);
    DirErrors(files, read, |files|);
    assert files[..|files|] == files;
  }

  /** One file: read it, then load it unless reading raised. */
  method LoadRecordOp(store: Store, file: string, read: string -> Option<HerbicideData>, now: string)
    returns (result: Option<LoadStats>)
    modifies store
    ensures store.State() == RecordGraph(old(store.State()), file, read, now)
    ensures result == RecordResult(file, read)
  {
    var data := read(file);
    if data.None? {
      return None;
    }
    var stats := LoadFromJson(store, file, data.value, now);
    result := Some(stats);
  }

  /** One turn of the file loop on the summary dictionary. */
  method AddResultOp(s: Summary, file: string, result: Option<LoadStats>) returns (s': Summary)
    ensures s' == AddResult(s, file, result)
  {
    s' := s;
    if result.None? {
      s' := s'.(errors := s'.errors + 1);
      s' := s'.(errorFiles := s'.errorFiles + [file]);
      return;
    }
    var st := result.value;
    s' := s'.(succeeded := s'.succeeded + 1);
    s' := s'.(totalCrops := s'.totalCrops + st.crops);
    s' := s'.(totalWeeds := s'.totalWeeds + st.weeds);
    s' := s'.(totalControls := s'.totalControls + st.controlsRels);
  }

  /** `load_directory`: every selected file in turn, an exception recorded and the loop continued. */
  method LoadJsonDirectory(store: Store, names: seq<string>, read: string -> Option<HerbicideData>, limit: Option<int>, now: string)
    returns (summary: Summary)
    modifies store
    ensures DirProgress(store.State(), summary) == LoadDirectory(old(store.State()), names, read, limit, now)
  {
    ghost var g := store.State();
    var files := RecordFiles(names, limit);
    summary := Summary(|files|, 0, 0, 0, 0, 0, []);
    for i := 0 to |files|
      invariant store.State() == GraphUpTo(g, files, read, now, i)
      invariant summary == SummaryUpTo(files, read, i)
    {
      var result := LoadRecordOp(store, files[i], read, now);
      summary := AddResultOp(summary, files[i], result);
    }
  }
}

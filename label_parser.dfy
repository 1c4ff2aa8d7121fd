// The label parser's own logic: product metadata pulled from the parsed
// text, the YAML frontmatter written ahead of it, the page count read from
// the documents' metadata, the skip and error paths of one parse, and the
// failed-list bookkeeping of a directory run. The parsing service itself is a
// parameter: what it returned for a file.

module LabelParser {
  import opened Base
  import opened Strings

  // ------------------------------------------------------------- dictionaries

  /** A metadata value: text, or a page count. */
  datatype MetaValue = Str(s: string) | Num(n: nat)

  datatype Entry = Entry(key: string, value: MetaValue)

  /** A Python dict, in insertion order. */
  type Dict = seq<Entry>

  /** The keys, in insertion order. */
  function Keys(d: Dict): seq<string>
    decreases |d|
  {
    if d == [] then [] else [d[0].key] + Keys(d[1..])
  }

  lemma {:induction false} KeysAppend(d: Dict, e: Dict)
    ensures Keys(d + e) == Keys(d) + Keys(e)
    decreases |d|
  {
    if d != [] {
      assert (d + e)[1..] == d[1..] + e;
      KeysAppend(d[1..], e);
    } else {
      assert d + e == e;
    }
  }

  /** `d.get(key)` */
  function Get(d: Dict, key: string): Option<MetaValue>
    decreases |d|
  {
    if d == [] then None else if d[0].key == key then Some(d[0].value) else Get(d[1..], key)
  }

  /** `d[key] = value`: the value is replaced where the key already is, or the key is added at the end. */
  function Put(d: Dict, key: string, value: MetaValue): Dict
    decreases |d|
  {
    if d == [] then [Entry(key, value)]
    else if d[0].key == key then [Entry(key, value)] + d[1..]
    else [d[0]] + Put(d[1..], key, value)
  }

  /** An assigned key reads back its value, and every other key reads as before. */
  lemma {:induction false} PutGet(d: Dict, key: string, value: MetaValue, other: string)
    ensures Get(Put(d, key, value), key) == Some(value)
    ensures other != key ==> Get(Put(d, key, value), other) == Get(d, other)
    decreases |d|
  {
    if d != [] && d[0].key != key {
      PutGet(d[1..], key, value, other);
      assert ([d[0]] + Put(d[1..], key, value))[1..] == Put(d[1..], key, value);
    }
  }

  /** A new key is added at the end; an existing key keeps its place, so the keys do not change. */
  lemma {:induction false} PutKeys(d: Dict, key: string, value: MetaValue)
    ensures key !in Keys(d) ==> Put(d, key, value) == d + [Entry(key, value)]
    ensures key in Keys(d) ==> Keys(Put(d, key, value)) == Keys(d)
    decreases |d|
  {
    if d != [] {
      PutKeys(d[1..], key, value);
      var r := Put(d, key, value);
      if d[0].key != key {
        assert r == [d[0]] + Put(d[1..], key, value);
        assert r[1..] == Put(d[1..], key, value);
        assert d == [d[0]] + d[1..];
      } else {
        assert r[1..] == d[1..];
      }
    }
  }

  /** A dict built by assignments never repeats a key. */
  lemma PutKeepsKeysDistinct(d: Dict, key: string, value: MetaValue)
    requires NoDuplicates(Keys(d))
    ensures NoDuplicates(Keys(Put(d, key, value)))
  {
    PutKeys(d, key, value);
    if key !in Keys(d) {
      KeysAppend(d, [Entry(key, value)]);
      var ks := Keys(d) + [key];
      forall i, j | 0 <= i < j < |ks|
        ensures ks[i] != ks[j]
      {
        if j == |ks| - 1 {
          assert ks[i] == Keys(d)[i];
        }
      }
    }
  }

  /** `{**base, **extra}`: the entries of `extra` assigned in order over `base`. */
  function PutAll(base: Dict, extra: Dict): Dict
    decreases |extra|
  {
    if extra == [] then base
    else
      var last := extra[|extra| - 1];
      Put(PutAll(base, extra[..|extra| - 1]), last.key, last.value)
  }

  // ------------------------------------------------------------ product metadata

  /**
   * The four metadata searches, each giving the first match's group when the
   * pattern matches: product name, APVMA approval number, active
   * constituents and mode-of-action group.
   */
  datatype LabelPatterns = LabelPatterns(
    name: string -> Option<string>,
    apvma: string -> Option<string>,
    active: string -> Option<string>,
    group: string -> Option<string>)

  /** `filename.replace("ELBL", "").replace(".pdf", "")` */
  function ProductNumberOf(fileName: string): string
  {
    ReplaceAll(ReplaceAll(fileName, "ELBL", ""), ".pdf", "")
  }

  /** Assigns `key` only when the search matched. */
  function PutFound(d: Dict, key: string, found: Option<string>): Dict
  {
    if found.Some? then Put(d, key, Str(found.value)) else d
  }

  function MapOption(o: Option<string>, f: string -> string): Option<string>
  {
    if o.Some? then Some(f(o.value)) else None
  }

  /** A search: the key it fills and the group it found, if it matched. */
  datatype Match = Match(key: string, found: Option<string>)

  /** The conditional assignments `if match: d[key] = value`, one after the other. */
  function PutFounds(d: Dict, ms: seq<Match>): Dict
    decreases |ms|
  {
    if ms == [] then d else PutFound(PutFounds(d, ms[..|ms| - 1]), ms[|ms| - 1].key, ms[|ms| - 1].found)
  }

  /** The entries of the searches that matched, in order. */
  function FoundAll(ms: seq<Match>): Dict
    decreases |ms|
  {
    if ms == [] then [] else FoundAll(ms[..|ms| - 1]) + Found(ms[|ms| - 1].key, ms[|ms| - 1].found)
  }

  function MatchKeys(ms: seq<Match>): seq<string>
  {
    Map(ms, (m: Match) => m.key)
  }

  /** Searches for keys that are new and distinct add their matches at the end, in order, and keep the keys distinct. */
  lemma {:induction false} PutFoundsSpec(d: Dict, ms: seq<Match>)
    requires NoDuplicates(Keys(d) + MatchKeys(ms))
    ensures PutFounds(d, ms) == d + FoundAll(ms)
    ensures NoDuplicates(Keys(PutFounds(d, ms)))
    ensures forall k :: k in Keys(PutFounds(d, ms)) ==> k in Keys(d) || k in MatchKeys(ms)
    decreases |ms|
  {
    if ms == [] {
      assert Keys(d) + MatchKeys(ms) == Keys(d);
    } else {
      var init := ms[..|ms| - 1];
      var last := ms[|ms| - 1];
      assert MatchKeys(ms) == MatchKeys(init) + [last.key];
      AppendAssoc(Keys(d), MatchKeys(init), [last.key]);
      NoDuplicatesSnoc(Keys(d) + MatchKeys(init), last.key);
      PutFoundsSpec(d, init);
      var before := PutFounds(d, init);
      assert last.key !in Keys(before);
      PutFoundNew(before, last.key, last.found);
      AppendAssoc(d, FoundAll(init), Found(last.key, last.found));
    }
  }

  /** Searches for distinct keys, made into an empty dict, give their matches in order, keys distinct. */
  lemma PutFoundsFresh(ms: seq<Match>)
    requires NoDuplicates(MatchKeys(ms))
    ensures PutFounds([], ms) == FoundAll(ms)
    ensures NoDuplicates(Keys(PutFounds([], ms)))
  {
    assert Keys([]) + MatchKeys(ms) == MatchKeys(ms);
    PutFoundsSpec([], ms);
    assert [] + FoundAll(ms) == FoundAll(ms);
  }

  /** The four searches of `extract_product_metadata`, in order. */
  function LabelMatches(name: Option<string>, apvma: Option<string>, active: Option<string>, group: Option<string>): seq<Match>
  {
    [Match("product_name", name), Match("apvma_number", apvma), Match("active_constituent", active),
     Match("mode_of_action_group", group)]
  }

  /** The metadata dict from the product number, the file name and the four search results, in this order. */
  function Fields(number: string, fileName: string, name: Option<string>, apvma: Option<string>,
                  active: Option<string>, group: Option<string>): Dict
  {
    PutFounds([Entry("product_number", Str(number)), Entry("source_file", Str(fileName))],
      LabelMatches(name, apvma, active, group))
  }

  /** `" ".join(...)` of the active constituents: the match is stripped and its line breaks become spaces. */
  function ActiveText(a: string): string { ReplaceAll(Strip(a), "\n", " ") }

  /** What `extract_product_metadata` returns. */
  function ProductMetadata(lp: LabelPatterns, text: string, fileName: string): Dict
  {
    Fields(ProductNumberOf(fileName), fileName, MapOption(lp.name(text), Strip), MapOption(lp.apvma(text), Strip),
      MapOption(lp.active(text), ActiveText), lp.group(text))
  }

  /** The entry a successful search adds, and none for a failed one. */
  function Found(key: string, found: Option<string>): Dict
  {
    if found.Some? then [Entry(key, Str(found.value))] else []
  }

  /** Assigning a key that is new to the dict adds its entry, if any, at the end and keeps the keys distinct. */
  lemma PutFoundNew(d: Dict, key: string, found: Option<string>)
    requires NoDuplicates(Keys(d)) && key !in Keys(d)
    ensures PutFound(d, key, found) == d + Found(key, found)
    ensures Keys(PutFound(d, key, found)) == Keys(d) + Keys(Found(key, found))
    ensures NoDuplicates(Keys(PutFound(d, key, found)))
    ensures forall k :: k in Keys(PutFound(d, key, found)) <==> k in Keys(d) || (found.Some? && k == key)
  {
    KeysAppend(d, Found(key, found));
    if found.Some? {
      PutKeys(d, key, Str(found.value));
      PutKeepsKeysDistinct(d, key, Str(found.value));
    }
  }

  /** The fixed fields come first, then each found field in order; no key repeats. */
  lemma FieldsSpec(number: string, fileName: string, name: Option<string>, apvma: Option<string>,
                   active: Option<string>, group: Option<string>)
    ensures Fields(number, fileName, name, apvma, active, group) ==
      [Entry("product_number", Str(number)), Entry("source_file", Str(fileName))] +
      FoundAll(LabelMatches(name, apvma, active, group))
    ensures NoDuplicates(Keys(Fields(number, fileName, name, apvma, active, group)))
  {
    var d := [Entry("product_number", Str(number)), Entry("source_file", Str(fileName))];
    var ms := LabelMatches(name, apvma, active, group);
    assert Keys(d) == ["product_number", "source_file"] by {
      assert d[1..][1..] == [];
      assert Keys(d[1..]) == ["source_file"] + Keys(d[1..][1..]);
    }
    assert MatchKeys(ms) == ["product_name", "apvma_number", "active_constituent", "mode_of_action_group"];
    PutFoundsSpec(d, ms);
  }

  /**
   * The product number and source file come first, then each field whose
   * pattern matched, in this order, and only those; no key repeats.
   */
  lemma ProductMetadataSpec(lp: LabelPatterns, text: string, fileName: string)
    ensures ProductMetadata(lp, text, fileName) ==
      [Entry("product_number", Str(ProductNumberOf(fileName))), Entry("source_file", Str(fileName))] +
      FoundAll(LabelMatches(MapOption(lp.name(text), Strip), MapOption(lp.apvma(text), Strip),
        MapOption(lp.active(text), ActiveText), lp.group(text)))
    ensures NoDuplicates(Keys(ProductMetadata(lp, text, fileName)))
  {
    FieldsSpec(ProductNumberOf(fileName), fileName, MapOption(lp.name(text), Strip), MapOption(lp.apvma(text), Strip),
      MapOption(lp.active(text), ActiveText), lp.group(text));
  }

  /** A label file `<digits>ELBL.pdf` has the digits as its product number. */
  lemma LabelFileNumber(digits: string)
    requires forall i :: 0 <= i < |digits| ==> IsDigit(digits[i])
    ensures ProductNumberOf(digits + "ELBL.pdf") == digits
  {
    assert forall i :: 0 <= i < |digits| ==> digits[i] != 'E' && digits[i] != '.';
    DropMarker(digits);
    ReplaceSkipsPrefix(digits, ".pdf", ".pdf", "");
    ReplaceAtStart(".pdf", [], "");
    assert ".pdf" + [] == ".pdf";
  }

  /** Dropping `ELBL` from `<digits>ELBL.pdf` leaves `<digits>.pdf`. */
  lemma DropMarker(digits: string)
    requires 'E' !in digits
    ensures ReplaceAll(digits + "ELBL.pdf", "ELBL", "") == digits + ".pdf"
  {
    var e, p := "ELBL", ".pdf";
    assert digits + "ELBL.pdf" == digits + (e + p);
    ReplaceSkipsPrefix(digits, e + p, e, "");
    ReplaceAtStart(e, p, "");
    ReplaceSkipsPrefix(p, [], e, "");
    assert p + [] == p;
    assert "" + p == p;
  }

  // ---------------------------------------------------------------- frontmatter

  /** A value that is written in double quotes: it holds a colon, a line break or a double quote. */
  predicate NeedsQuotes(s: string) { ':' in s || '\n' in s || '"' in s }

  /** `str(value)` */
  function ValueText(v: MetaValue): string
  {
    match v
    case Str(s) => s
    case Num(n) => NatToString(n)
  }

  /** A quoted `key: "value"` line. */
  function QuotedLine(key: string, value: string): string
  {
    key + ": \"" + value + "\""
  }

  /**
   * One `key: value` line as `_build_frontmatter` writes it. The quote
   * "escape" there is `'\"'`, which in Python is a lone quote, so a quoted
   * value is written as it is, quotes and all.
   */
  function FrontmatterLine(e: Entry): string
  {
    if e.value.Str? && NeedsQuotes(e.value.s) then QuotedLine(e.key, e.value.s)
    else e.key + ": " + ValueText(e.value)
  }

  /**
   * A line starts with its key and a colon; a value is quoted exactly when it
   * holds a colon, a line break or a quote, and it is then written unchanged
   * between the quotes.
   */
  lemma FrontmatterLineCases(e: Entry)
    ensures StartsWith(FrontmatterLine(e), e.key + ": ")
    ensures e.value.Str? && NeedsQuotes(e.value.s) ==> FrontmatterLine(e) == e.key + ": " + "\"" + e.value.s + "\""
    ensures !(e.value.Str? && NeedsQuotes(e.value.s)) ==> FrontmatterLine(e) == e.key + ": " + ValueText(e.value)
  {
    var prefix := e.key + ": ";
    if e.value.Str? && NeedsQuotes(e.value.s) {
      assert FrontmatterLine(e) == prefix + ("\"" + e.value.s + "\"");
    } else {
      assert FrontmatterLine(e) == prefix + ValueText(e.value);
    }
  }

  /** A value holding a double quote ends its quoted string early: `k: "a"b"`. */
  lemma QuoteLeftBare()
    ensures var e := Entry("k", Str("a\"b"));
      FrontmatterLine(e) == QuotedLine("k", "a\"b") && !QuotesEscaped("a\"b")
  {
    assert "a\"b"[1] == '"' && "a\"b"[0] != '\\';
  }

  /** The lines `_build_frontmatter` joins: the opening fence, one per entry, the closing fence and a blank line. */
  function FrontmatterLines(d: Dict): seq<string>
  {
    ["---"] + Map(d, FrontmatterLine) + ["---\n\n"]
  }

  /** The fenced block of entry lines, joined by line breaks. */
  function Frontmatter(d: Dict): string
  {
    Join("\n", FrontmatterLines(d))
  }

  /** Each entry's line followed by a line break, one after the other. */
  function EntryLines(d: Dict): string
    decreases |d|
  {
    if d == [] then [] else EntryLines(d[..|d| - 1]) + FrontmatterLine(d[|d| - 1]) + "\n"
  }

  /** The opening fence and the entry lines, joined, then one more line break. */
  lemma {:induction false} OpenedEntries(d: Dict)
    ensures Join("\n", ["---"] + Map(d, FrontmatterLine)) + "\n" == "---\n" + EntryLines(d)
    decreases |d|
  {
    if d == [] {
      assert ["---"] + Map(d, FrontmatterLine) == ["---"];
    } else {
      var init := d[..|d| - 1];
      var line := FrontmatterLine(d[|d| - 1]);
      OpenedEntries(init);
      var body := ["---"] + Map(init, FrontmatterLine);
      assert ["---"] + Map(d, FrontmatterLine) == body + [line];
      JoinAppend("\n", body, line);
      calc {
        Join("\n", body + [line]) + "\n";
        Join("\n", body) + "\n" + line + "\n";
        ("---\n" + EntryLines(init)) + line + "\n";
        "---\n" + (EntryLines(init) + line + "\n");
      }
    }
  }

  /** Joining the lines is the same as fencing the entry lines. */
  lemma FrontmatterShape(d: Dict)
    ensures Frontmatter(d) == "---\n" + EntryLines(d) + "---\n\n"
  {
    var body := ["---"] + Map(d, FrontmatterLine);
    OpenedEntries(d);
    JoinAppend("\n", body, "---\n\n");
    AppendAssoc(Join("\n", body), "\n", "---\n\n");
  }

  /** One `key: value` line with the quotes in a quoted value escaped, as `'\\"'` would write it. */
  function EscapedLine(e: Entry): string
  {
    if e.value.Str? && NeedsQuotes(e.value.s) then QuotedLine(e.key, EscapeQuotes(e.value.s))
    else e.key + ": " + ValueText(e.value)
  }

  /** The frontmatter with every quoted value escaped. */
  function EscapedFrontmatter(d: Dict): string
  {
    Join("\n", ["---"] + Map(d, EscapedLine) + ["---\n\n"])
  }

  /**
   * With the escape in place, a quoted value is the escaped text, and no
   * quote inside it is left bare; removing the added backslashes gives back
   * the value.
   */
  lemma FrontmatterLineSpec(e: Entry)
    ensures StartsWith(EscapedLine(e), e.key + ": ")
    ensures e.value.Str? && NeedsQuotes(e.value.s) ==>
      EscapedLine(e) == e.key + ": " + "\"" + EscapeQuotes(e.value.s) + "\"" &&
      QuotesEscaped(EscapeQuotes(e.value.s)) &&
      RemoveChar(EscapeQuotes(e.value.s), '\\') == RemoveChar(e.value.s, '\\')
    ensures !(e.value.Str? && NeedsQuotes(e.value.s)) ==> EscapedLine(e) == e.key + ": " + ValueText(e.value)
  {
    var prefix := e.key + ": ";
    if e.value.Str? && NeedsQuotes(e.value.s) {
      var v := EscapeQuotes(e.value.s);
      EscapeQuotesSpec(e.value.s);
      EscapeKeepsText(e.value.s);
      assert EscapedLine(e) == prefix + "\"" + v + "\"";
      assert EscapedLine(e) == prefix + ("\"" + v + "\"");
    } else {
      assert EscapedLine(e) == prefix + ValueText(e.value);
    }
  }

  /** Without a double quote in any text value, the written frontmatter is already the escaped one. */
  lemma FrontmattersAgree(d: Dict)
    requires forall i :: 0 <= i < |d| && d[i].value.Str? ==> '"' !in d[i].value.s
    ensures Frontmatter(d) == EscapedFrontmatter(d)
  {
    forall i | 0 <= i < |d|
      ensures FrontmatterLine(d[i]) == EscapedLine(d[i])
    {
      if d[i].value.Str? {
        ReplaceCharAbsent(d[i].value.s, '"', "\\\"");
        assert [('"')] == "\"";
      }
    }
    assert Map(d, FrontmatterLine) == Map(d, EscapedLine);
  }

  /** `_build_frontmatter`: the lines are gathered in a list, then joined. */
  method BuildFrontmatter(d: Dict) returns (text: string)
    ensures text == Frontmatter(d)
  {
    var lines := ["---"];
    for i := 0 to |d|
      invariant lines == ["---"] + Map(d[..i], FrontmatterLine)
    {
      assert d[..i + 1][..i] == d[..i];
      lines := lines + [FrontmatterLine(d[i])];
    }
    assert d[..|d|] == d;
    lines := lines + ["---\n\n"];
    text := Join("\n", lines);
  }

  // ----------------------------------------------------------------- page count

  /** A metadata field as `_infer_page_count` sees it: an integer, a list or tuple (by its length), or anything else. */
  datatype Field = IntField(n: int) | ListField(size: nat) | OtherField

  type Payload = map<string, Field>

  /** A parsed document: its text, and its `metadata` and `extra_info` when they are dicts. */
  datatype Doc = Doc(text: string, metadata: Option<Payload>, extraInfo: Option<Payload>)

  const PageKeys: seq<string> := ["num_pages", "page_count", "pages", "total_pages"]

  /** The positive integers stored under `keys`, in order. */
  function KeyCandidates(p: Payload, keys: seq<string>): seq<nat>
    decreases |keys|
  {
    if keys == [] then []
    else
      var k := keys[|keys| - 1];
      KeyCandidates(p, keys[..|keys| - 1]) + if k in p && p[k].IntField? && p[k].n > 0 then [p[k].n] else []
  }

  /** The candidates of one payload: its page keys, then a non-empty `page_labels` list's length. */
  function PayloadCandidates(p: Payload): seq<nat>
  {
    KeyCandidates(p, PageKeys) +
      if "page_labels" in p && p["page_labels"].ListField? && p["page_labels"].size > 0 then [p["page_labels"].size] else []
  }

  /** `_ensure_mapping`: anything but a dict reads as the empty dict. */
  function AsPayload(o: Option<Payload>): Payload { if o.Some? then o.value else map[] }

  function DocCandidates(doc: Doc): seq<nat>
  {
    PayloadCandidates(AsPayload(doc.metadata)) + PayloadCandidates(AsPayload(doc.extraInfo))
  }

  function Candidates(docs: seq<Doc>): seq<nat>
    decreases |docs|
  {
    if docs == [] then [] else Candidates(docs[..|docs| - 1]) + DocCandidates(docs[|docs| - 1])
  }

  /** `max(xs)` */
  function MaxOf(xs: seq<nat>): (m: nat)
    requires xs != []
    ensures m in xs && forall x :: x in xs ==> x <= m
    decreases |xs|
  {
    if |xs| == 1 then xs[0]
    else
      var m := MaxOf(xs[..|xs| - 1]);
      assert xs == xs[..|xs| - 1] + [xs[|xs| - 1]];
      Max(m, xs[|xs| - 1])
  }

  /** What `_infer_page_count` returns. */
  function PageCount(docs: seq<Doc>): nat
  {
    var c := Candidates(docs);
    if c != [] then MaxOf(c) else |docs|
  }

  /** Every candidate is a positive count. */
  lemma {:induction false} CandidatesPositive(docs: seq<Doc>)
    ensures forall x :: x in Candidates(docs) ==> x > 0
    decreases |docs|
  {
    if docs != [] {
      CandidatesPositive(docs[..|docs| - 1]);
      var d := docs[|docs| - 1];
      KeyCandidatesPositive(AsPayload(d.metadata), PageKeys);
      KeyCandidatesPositive(AsPayload(d.extraInfo), PageKeys);
    }
  }

  lemma {:induction false} KeyCandidatesPositive(p: Payload, keys: seq<string>)
    ensures forall x :: x in KeyCandidates(p, keys) ==> x > 0
    decreases |keys|
  {
    if keys != [] {
      KeyCandidatesPositive(p, keys[..|keys| - 1]);
    }
  }

  /**
   * The page count is the largest candidate, which is positive, when there is
   * one, and otherwise the number of documents.
   */
  lemma PageCountSpec(docs: seq<Doc>)
    ensures Candidates(docs) != [] ==>
      PageCount(docs) in Candidates(docs) && PageCount(docs) > 0 && forall x :: x in Candidates(docs) ==> x <= PageCount(docs)
    ensures Candidates(docs) == [] ==> PageCount(docs) == |docs|
  {
    CandidatesPositive(docs);
  }

  /** An empty payload has no page keys. */
  lemma {:induction false} NoKeyCandidates(keys: seq<string>)
    ensures KeyCandidates(map[], keys) == []
    decreases |keys|
  {
    if keys != [] {
      NoKeyCandidates(keys[..|keys| - 1]);
    }
  }

  /** A document whose metadata are not dicts counts as one page, as the parser's test expects. */
  lemma SingleDocumentPage(text: string)
    ensures PageCount([Doc(text, None, None)]) == 1
  {
    var docs := [Doc(text, None, None)];
    assert docs[..0] == [];
    NoKeyCandidates(PageKeys);
    assert Candidates(docs) == [];
  }

  /** The inner loops of `_infer_page_count` over one payload. */
  method PayloadPages(p: Payload) returns (candidates: seq<nat>)
    ensures candidates == PayloadCandidates(p)
  {
    candidates := [];
    for i := 0 to |PageKeys|
      invariant candidates == KeyCandidates(p, PageKeys[..i])
    {
      assert PageKeys[..i + 1][..i] == PageKeys[..i];
      var key := PageKeys[i];
      if key in p && p[key].IntField? && p[key].n > 0 {
        candidates := candidates + [p[key].n];
      }
    }
    assert PageKeys[..|PageKeys|] == PageKeys;
    if "page_labels" in p && p["page_labels"].ListField? && p["page_labels"].size > 0 {
      candidates := candidates + [p["page_labels"].size];
    }
  }

  /** `_infer_page_count` */
  method InferPageCount(docs: seq<Doc>) returns (pages: nat)
    ensures pages == PageCount(docs)
  {
    var candidates := [];
    for i := 0 to |docs|
      invariant candidates == Candidates(docs[..i])
    {
      assert docs[..i + 1][..i] == docs[..i];
      var fromMetadata := PayloadPages(AsPayload(docs[i].metadata));
      var fromExtra := PayloadPages(AsPayload(docs[i].extraInfo));
      candidates := candidates + (fromMetadata + fromExtra);
    }
    assert docs[..|docs|] == docs;
    if candidates != [] {
      pages := MaxOf(candidates);
    } else {
      pages := |docs|;
    }
  }

  // ------------------------------------------------------------------- one file

  /** What the parsing service did for a file: raised with a message, or returned documents. */
  datatype Loaded = Raised(message: string) | Documents(docs: seq<Doc>)

  /** The output file: absent, or present with its text. */
  datatype Output = Absent | Present(content: string)

  /** The `result` dict `parse_pdf` returns. */
  datatype ParseResult = ParseResult(success: bool, skipped: bool, error: Option<string>, pages: nat, metadata: Dict)

  function Texts(docs: seq<Doc>): seq<string>
  {
    Map(docs, (d: Doc) => d.text)
  }

  /** The metadata of a parsed file: the product metadata, then the page count and the parser's name. */
  function ParsedMetadata(lp: LabelPatterns, combined: string, pdfName: string, docs: seq<Doc>): Dict
  {
    Put(Put(ProductMetadata(lp, combined, pdfName), "pages", Num(PageCount(docs))), "parser", Str("llama-parse"))
  }

  /** A raised error: its message is kept, and the output file is deleted. */
  function Failure(message: string): (ParseResult, Output)
  {
    (ParseResult(false, false, Some(message), 0, []), Absent)
  }

  /**
   * What `parse_pdf` returns, and the output file after it: a skip happens
   * exactly for an existing output without `force`, and a failure leaves no
   * output file.
   */
  function ParsePdf(lp: LabelPatterns, pdfName: string, output: Output, force: bool, loaded: Loaded)
    : (o: (ParseResult, Output))
    ensures o.0.skipped <==> output.Present? && !force
    ensures !o.0.success ==> o.1 == Absent && o.0.error != None
  {
    if output.Present? && !force then (ParseResult(true, true, None, 0, []), output)
    else match loaded
      case Raised(message) => Failure(message)
      case Documents(docs) =>
        if docs == [] then Failure("LlamaParse returned no documents")
        else
          var combined := Join("\n\n", Texts(docs));
          if IsBlankString(combined) then Failure("Parsed output is empty")
          else
            var metadata := ParsedMetadata(lp, combined, pdfName, docs);
            (ParseResult(true, false, None, PageCount(docs), metadata), Present(Frontmatter(metadata) + combined))
  }

  /**
   * An existing output without `force` is a skipped success that leaves the
   * file alone and does not depend on the parsing service at all.
   */
  lemma ParsePdfSkips(lp: LabelPatterns, pdfName: string, output: Output, loaded: Loaded, other: Loaded)
    requires output.Present?
    ensures var (r, after) := ParsePdf(lp, pdfName, output, false, loaded);
      r.success && r.skipped && r.error == None && after == output
    ensures ParsePdf(lp, pdfName, output, false, loaded) == ParsePdf(lp, pdfName, output, false, other)
  {
  }

  /** The parsed metadata hold the page count and the parser's name, and repeat no key. */
  lemma ParsedMetadataSpec(lp: LabelPatterns, combined: string, pdfName: string, docs: seq<Doc>)
    ensures Get(ParsedMetadata(lp, combined, pdfName, docs), "pages") == Some(Num(PageCount(docs)))
    ensures Get(ParsedMetadata(lp, combined, pdfName, docs), "parser") == Some(Str("llama-parse"))
    ensures NoDuplicates(Keys(ParsedMetadata(lp, combined, pdfName, docs)))
  {
    var pm := ProductMetadata(lp, combined, pdfName);
    var withPages := Put(pm, "pages", Num(PageCount(docs)));
    PutGet(pm, "pages", Num(PageCount(docs)), "parser");
    PutGet(withPages, "parser", Str("llama-parse"), "pages");
    ProductMetadataSpec(lp, combined, pdfName);
    PutKeepsKeysDistinct(pm, "pages", Num(PageCount(docs)));
    PutKeepsKeysDistinct(withPages, "parser", Str("llama-parse"));
  }

  /** A result is a success exactly when it has no error, and a skip is a success. */
  lemma ParsePdfResult(lp: LabelPatterns, pdfName: string, output: Output, force: bool, loaded: Loaded)
    ensures var r := ParsePdf(lp, pdfName, output, force, loaded).0;
      (r.success <==> r.error == None) && (r.skipped ==> r.success)
  {
  }

  /** A failure keeps the service's error message, or names the empty result, and removes the output. */
  lemma ParsePdfFailure(lp: LabelPatterns, pdfName: string, output: Output, force: bool, loaded: Loaded)
    requires !ParsePdf(lp, pdfName, output, force, loaded).0.success
    ensures ParsePdf(lp, pdfName, output, force, loaded).1 == Absent
    ensures loaded.Raised? ==> ParsePdf(lp, pdfName, output, force, loaded).0.error == Some(loaded.message)
    ensures loaded.Documents? && loaded.docs == [] ==>
      ParsePdf(lp, pdfName, output, force, loaded).0.error == Some("LlamaParse returned no documents")
    ensures loaded.Documents? && loaded.docs != [] ==>
      ParsePdf(lp, pdfName, output, force, loaded).0.error == Some("Parsed output is empty") &&
      IsBlankString(Join("\n\n", Texts(loaded.docs)))
  {
  }

  /**
   * A parse that is not skipped succeeds exactly when the service returned
   * documents whose joined text is not blank; it then writes the frontmatter
   * ahead of that text and reports the page count.
   */
  lemma ParsePdfSuccess(lp: LabelPatterns, pdfName: string, output: Output, force: bool, loaded: Loaded)
    requires output.Absent? || force
    ensures var r := ParsePdf(lp, pdfName, output, force, loaded).0;
      r.success <==> loaded.Documents? && loaded.docs != [] && !IsBlankString(Join("\n\n", Texts(loaded.docs)))
    ensures var (r, after) := ParsePdf(lp, pdfName, output, force, loaded);
      r.success ==>
        (!r.skipped && r.pages == PageCount(loaded.docs) &&
         Get(r.metadata, "pages") == Some(Num(r.pages)) && Get(r.metadata, "parser") == Some(Str("llama-parse")) &&
         after == Present(Frontmatter(r.metadata) + Join("\n\n", Texts(loaded.docs))))
  {
    if loaded.Documents? && loaded.docs != [] {
      ParsedMetadataSpec(lp, Join("\n\n", Texts(loaded.docs)), pdfName, loaded.docs);
    }
  }

  // ------------------------------------------------------------- the directory

  datatype ParseStats = ParseStats(parsed: nat, skipped: nat, failed: nat)

  /** The metadata store: what was parsed, under each stem, and the stems that failed. */
  datatype Store = Store(parsed: map<string, Dict>, failed: seq<string>)

  /** `xs.remove(x)`: the first occurrence goes. */
  function RemoveFirst(xs: seq<string>, x: string): seq<string>
    requires x in xs
    decreases |xs|
  {
    if xs[0] == x then xs[1..] else [xs[0]] + RemoveFirst(xs[1..], x)
  }

  /** In a list without duplicates, removing an element removes exactly it. */
  lemma {:induction false} RemoveFirstSpec(xs: seq<string>, x: string)
    requires x in xs && NoDuplicates(xs)
    ensures NoDuplicates(RemoveFirst(xs, x))
    ensures forall y :: y in RemoveFirst(xs, x) <==> y in xs && y != x
    decreases |xs|
  {
    if xs[0] == x {
      assert forall y :: y in xs <==> y == xs[0] || y in xs[1..];
    } else {
      assert NoDuplicates(xs[1..]) by {
        forall i, j | 0 <= i < j < |xs[1..]|
          ensures xs[1..][i] != xs[1..][j]
        {
          assert xs[1..][i] == xs[i + 1] && xs[1..][j] == xs[j + 1];
        }
      }
      RemoveFirstSpec(xs[1..], x);
      var rest := RemoveFirst(xs[1..], x);
      assert xs[0] !in xs[1..] by {
        forall k | 0 <= k < |xs[1..]|
          ensures xs[1..][k] != xs[0]
        {
          assert xs[1..][k] == xs[k + 1];
        }
      }
      assert forall y :: y in xs <==> y == xs[0] || y in xs[1..];
      assert NoDuplicates([xs[0]] + rest) by {
        var r := [xs[0]] + rest;
        forall i, j | 0 <= i < j < |r|
          ensures r[i] != r[j]
        {
          if i == 0 {
            assert r[j] == rest[j - 1];
          } else {
            assert r[i] == rest[i - 1] && r[j] == rest[j - 1];
          }
        }
      }
    }
  }

  /** The store after one file: a success records its metadata and clears the stem from `failed`; a failure adds it once. */
  function StoreAfter(store: Store, stem: string, r: ParseResult): Store
  {
    if r.skipped then store
    else if r.success then
      var entry := PutAll([Entry("pages", Num(r.pages)), Entry("output", Str(stem + ".md"))], r.metadata);
      Store(store.parsed[stem := entry], if stem in store.failed then RemoveFirst(store.failed, stem) else store.failed)
    else Store(store.parsed, AppendAbsent(store.failed, stem))
  }

  function StatsAfter(stats: ParseStats, r: ParseResult): ParseStats
  {
    if r.skipped then stats.(skipped := stats.skipped + 1)
    else if r.success then stats.(parsed := stats.parsed + 1)
    else stats.(failed := stats.failed + 1)
  }

  /** The stats and the store after `parse_directory` has seen `stems` with these results. */
  function Tally(stems: seq<string>, results: seq<ParseResult>, store: Store): (ParseStats, Store)
    requires |stems| == |results|
    decreases |stems|
  {
    if stems == [] then (ParseStats(0, 0, 0), store)
    else
      var n := |stems| - 1;
      var (stats, s) := Tally(stems[..n], results[..n], store);
      (StatsAfter(stats, results[n]), StoreAfter(s, stems[n], results[n]))
  }

  /**
   * `failed` never gains a duplicate; after a file, its stem is listed exactly
   * when it failed (a skipped file changes nothing), and every other stem's
   * membership is unchanged.
   */
  lemma StoreAfterSpec(store: Store, stem: string, r: ParseResult)
    requires NoDuplicates(store.failed)
    ensures var after := StoreAfter(store, stem, r); NoDuplicates(after.failed)
    ensures var after := StoreAfter(store, stem, r);
      !r.skipped ==> (stem in after.failed <==> !r.success)
    ensures var after := StoreAfter(store, stem, r);
      forall x :: x != stem ==> (x in after.failed <==> x in store.failed)
    ensures var after := StoreAfter(store, stem, r);
      r.skipped ==> after == store
  {
    if !r.skipped {
      if r.success {
        if stem in store.failed {
          RemoveFirstSpec(store.failed, stem);
        }
      } else {
        AppendAbsentSpec(store.failed, stem);
      }
    }
  }

  /** Every file is counted once: parsed, skipped or failed. */
  lemma {:induction false} TallyCounts(stems: seq<string>, results: seq<ParseResult>, store: Store)
    requires |stems| == |results|
    ensures var (stats, s) := Tally(stems, results, store); stats.parsed + stats.skipped + stats.failed == |stems|
    ensures NoDuplicates(store.failed) ==> NoDuplicates(Tally(stems, results, store).1.failed)
    decreases |stems|
  {
    if stems != [] {
      var n := |stems| - 1;
      TallyCounts(stems[..n], results[..n], store);
      var (stats, s) := Tally(stems[..n], results[..n], store);
      if NoDuplicates(store.failed) {
        StoreAfterSpec(s, stems[n], results[n]);
      }
    }
  }

  /** `parse_directory` over the stems of the sorted PDFs and what `parse_pdf` returned for each. */
  method ParseDirectory(stems: seq<string>, results: seq<ParseResult>, store0: Store) returns (stats: ParseStats, store: Store)
    requires |stems| == |results|
    ensures (stats, store) == Tally(stems, results, store0)
  {
    stats, store := ParseStats(0, 0, 0), store0;
    for i := 0 to |stems|
      invariant (stats, store) == Tally(stems[..i], results[..i], store0)
    {
      assert stems[..i + 1][..i] == stems[..i] && results[..i + 1][..i] == results[..i];
      var r := results[i];
      if r.skipped {
        stats := stats.(skipped := stats.skipped + 1);
        continue;
      }
      if r.success {
        stats := stats.(parsed := stats.parsed + 1);
        var entry := PutAll([Entry("pages", Num(r.pages)), Entry("output", Str(stems[i] + ".md"))], r.metadata);
        var failed := store.failed;
        if stems[i] in failed {
          failed := RemoveFirst(failed, stems[i]);
        }
        store := Store(store.parsed[stems[i] := entry], failed);
      } else {
        stats := stats.(failed := stats.failed + 1);
        if stems[i] !in store.failed {
          store := store.(failed := store.failed + [stems[i]]);
        }
      }
    }
    assert stems[..|stems|] == stems && results[..|results|] == results;
  }
}

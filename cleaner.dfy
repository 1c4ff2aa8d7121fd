/**
 * The document cleaner that runs over parsed label markdown before it is
 * chunked: frontmatter is set aside, noise patterns are substituted away,
 * repeated boilerplate sections and product headers are cut down to their
 * first occurrence, repeated paragraphs are dropped, and the whitespace is
 * tidied. The regular expressions themselves are left abstract: a `Regexes`
 * value supplies what `re.sub` and `finditer` return for each pattern.
 */
module Cleaner {
  import opened Base
  import opened Strings

  // --------------------------------------------------------- normalisation

  /** `re.sub(r'\s+', ' ', s)`: every run of whitespace becomes one space. */
  function CollapseSpace(s: string): string
    decreases |s|
  {
    if s == [] then []
    else if IsSpace(s[0]) then " " + CollapseSpace(TrimStart(s))
    else [s[0]] + CollapseSpace(s[1..])
  }

  /**
   * The collapse keeps whether the text starts and ends with whitespace,
   * leaves only single spaces as whitespace, and adds no upper case.
   */
  lemma {:induction false} CollapseSpaceShape(s: string)
    ensures var r := CollapseSpace(s); r == [] <==> s == []
    ensures var r := CollapseSpace(s);
      r != [] ==> (IsSpace(r[0]) <==> IsSpace(s[0])) && (IsSpace(r[|r| - 1]) <==> IsSpace(s[|s| - 1]))
    ensures var r := CollapseSpace(s); forall i :: 0 <= i < |r| && IsSpace(r[i]) ==> r[i] == ' '
    ensures var r := CollapseSpace(s); forall i :: 0 <= i < |r| - 1 ==> !IsSpace(r[i]) || !IsSpace(r[i + 1])
    ensures NoUpper(s) ==> NoUpper(CollapseSpace(s))
    decreases |s|
  {
    if s != [] {
      if IsSpace(s[0]) {
        var t := TrimStart(s);
        CollapseSpaceShape(t);
        assert CollapseSpace(s) == " " + CollapseSpace(t);
        CollapsedSpace(s, t, CollapseSpace(t));
      } else {
        CollapseSpaceShape(s[1..]);
        assert CollapseSpace(s) == [s[0]] + CollapseSpace(s[1..]);
        CollapsedChar(s, CollapseSpace(s[1..]));
      }
    }
  }

  /** The properties `CollapseSpaceShape` states of `r`, the collapse of `s`. */
  predicate Collapsed(s: string, r: string)
  {
    (r == [] <==> s == [])
    && (r != [] ==> (IsSpace(r[0]) <==> IsSpace(s[0])) && (IsSpace(r[|r| - 1]) <==> IsSpace(s[|s| - 1])))
    && (forall i :: 0 <= i < |r| && IsSpace(r[i]) ==> r[i] == ' ')
    && (forall i :: 0 <= i < |r| - 1 ==> !IsSpace(r[i]) || !IsSpace(r[i + 1]))
    && (NoUpper(s) ==> NoUpper(r))
  }

  /** A leading whitespace run, cut to the suffix `t` that starts with no whitespace, becomes one space. */
  lemma CollapsedSpace(s: string, t: string, r: string)
    requires s != [] && IsSpace(s[0])
    requires |t| <= |s| && t == s[|s| - |t|..] && (t == [] || !IsSpace(t[0]))
    requires forall i :: 0 <= i < |s| - |t| ==> IsSpace(s[i])
    requires Collapsed(t, r)
    ensures Collapsed(s, " " + r)
  {
    var r' := " " + r;
    if t != [] {
      assert s[|s| - 1] == t[|t| - 1];
    }
    forall i | 0 <= i < |r'| - 1
      ensures !IsSpace(r'[i]) || !IsSpace(r'[i + 1])
    {
      if 0 < i {
        assert r'[i] == r[i - 1] && r'[i + 1] == r[i];
      }
    }
    if NoUpper(s) {
      forall i | 0 <= i < |t|
        ensures !IsUpperChar(t[i])
      {
        assert t[i] == s[|s| - |t| + i];
      }
    }
  }

  /** A character that is not whitespace is kept in front of the collapse of the rest. */
  lemma CollapsedChar(s: string, r: string)
    requires s != [] && !IsSpace(s[0]) && Collapsed(s[1..], r)
    ensures Collapsed(s, [s[0]] + r)
  {
    var r' := [s[0]] + r;
    forall i | 0 <= i < |r'| - 1
      ensures !IsSpace(r'[i]) || !IsSpace(r'[i + 1])
    {
      if 0 < i {
        assert r'[i] == r[i - 1] && r'[i + 1] == r[i];
      }
    }
    if NoUpper(s) {
      assert NoUpper(s[1..]);
    }
  }

  /** Text whose only whitespace is single spaces is left alone by the collapse. */
  lemma {:induction false} CollapseFixed(s: string)
    requires forall i :: 0 <= i < |s| && IsSpace(s[i]) ==> s[i] == ' '
    requires forall i :: 0 <= i < |s| - 1 ==> !IsSpace(s[i]) || !IsSpace(s[i + 1])
    ensures CollapseSpace(s) == s
    decreases |s|
  {
    if s != [] {
      CollapseFixed(s[1..]);
      if IsSpace(s[0]) {
        assert TrimStart(s) == TrimStart(s[1..]);
        assert TrimStart(s[1..]) == s[1..];
        assert CollapseSpace(s) == " " + CollapseSpace(s[1..]);
      } else {
        assert CollapseSpace(s) == [s[0]] + CollapseSpace(s[1..]);
      }
      assert s == [s[0]] + s[1..];
    }
  }

  /** `normalize_text`: lower-cased, stripped, whitespace runs collapsed. */
  function NormalizeText(text: string): string
  {
    CollapseSpace(Strip(Lower(text)))
  }

  /**
   * A normal form has no upper case, no whitespace at either end, and no two
   * whitespace characters in a row; what whitespace it has is plain spaces.
   */
  lemma NormalizeTextShape(text: string)
    ensures NoUpper(NormalizeText(text))
    ensures var r := NormalizeText(text); r == [] || (!IsSpace(r[0]) && !IsSpace(r[|r| - 1]))
    ensures var r := NormalizeText(text); forall i :: 0 <= i < |r| - 1 ==> !IsSpace(r[i]) || !IsSpace(r[i + 1])
    ensures var r := NormalizeText(text); forall i :: 0 <= i < |r| && IsSpace(r[i]) ==> r[i] == ' '
  {
    LowerHasNoUpper(text);
    StripKeepsNoUpper(Lower(text));
    StripEnds(Lower(text));
    CollapseSpaceShape(Strip(Lower(text)));
  }

  /** Normalising twice is normalising once. */
  lemma NormalizeTextIdempotent(text: string)
    ensures NormalizeText(NormalizeText(text)) == NormalizeText(text)
  {
    var r := NormalizeText(text);
    NormalizeTextShape(text);
    LowerOfLowered(r);
    StripClean(r);
    CollapseFixed(r);
  }

  // ----------------------------------------------------------- frontmatter

  /**
   * `extract_frontmatter`: text opening with `---` and holding a second `---`
   * further on is split into the block between them (re-wrapped in `---`
   * lines) and the body after; anything else has no frontmatter.
   */
  function ExtractFrontmatter(content: string): (string, string)
  {
    if StartsWith(content, "---") then
      var i := IndexFrom(content, "---", 3);
      if i == -1 then ("", content) else ("---" + content[3..i] + "---\n", content[i + 3..])
    else ("", content)
  }

  /**
   * Frontmatter is found exactly when the text starts with `---` and has a
   * second `---` after it; nothing is lost: the frontmatter, less its added
   * newline, followed by the body is the text again.
   */
  lemma FrontmatterSplit(content: string)
    ensures ExtractFrontmatter(content).0 != [] <==>
      StartsWith(content, "---") && exists i :: 3 <= i && OccursAt(content, "---", i)
    ensures var front := ExtractFrontmatter(content).0;
      front == [] ==> ExtractFrontmatter(content).1 == content
    ensures var front := ExtractFrontmatter(content).0;
      front != [] ==> (StartsWith(front, "---") && EndsWith(front, "---\n") &&
        front[..|front| - 1] + ExtractFrontmatter(content).1 == content)
  {
    if StartsWith(content, "---") {
      var i := IndexFrom(content, "---", 3);
      if i != -1 {
        var front := "---" + content[3..i] + "---\n";
        assert front[..|front| - 1] == content[..3] + content[3..i] + content[i..i + 3];
        assert content == content[..3] + content[3..i] + content[i..i + 3] + content[i + 3..];
      }
    }
  }

  // ----------------------------------------------------- matches and cuts

  /** A regular-expression match: the characters `[start, end)`. */
  datatype Span = Span(start: nat, end: nat)

  /** Matches as `finditer` yields them: inside a text of length `n`, left to right, not overlapping. */
  predicate Ordered(spans: seq<Span>, n: nat)
  {
    (forall i :: 0 <= i < |spans| ==> spans[i].start <= spans[i].end <= n) &&
    (forall i, j :: 0 <= i < j < |spans| ==> spans[i].end <= spans[j].start)
  }

  /** Where the first match starts, or the end of the text when there is none. */
  function FirstStart(spans: seq<Span>, n: nat): nat
  {
    if spans == [] then n else spans[0].start
  }

  /** Characters covered by the matches. */
  function Covered(spans: seq<Span>): int
    decreases |spans|
  {
    if spans == [] then 0 else spans[0].end - spans[0].start + Covered(spans[1..])
  }

  /** The text from `from` on with every match cut out, read left to right. */
  function Excise(c: string, spans: seq<Span>, from: nat): (r: string)
    requires Ordered(spans, |c|) && from <= FirstStart(spans, |c|) <= |c|
    ensures |r| == |c| - from - Covered(spans)
    decreases |spans|
  {
    if spans == [] then c[from..]
    else c[from..spans[0].start] + Excise(c, spans[1..], spans[0].end)
  }

  /** Everything before the first match survives the cuts unchanged. */
  lemma ExcisePrefix(c: string, spans: seq<Span>)
    requires Ordered(spans, |c|)
    ensures StartsWith(Excise(c, spans, 0), c[..FirstStart(spans, |c|)])
  {
  }

  lemma OrderedSuffix(spans: seq<Span>, n: nat, k: nat)
    requires Ordered(spans, n) && k <= |spans|
    ensures Ordered(spans[k..], n)
  {
  }

  /** The text up to the first match is kept as is; the rest is cut from there on. */
  lemma ExciseHead(c: string, spans: seq<Span>, from: nat)
    requires Ordered(spans, |c|) && from <= FirstStart(spans, |c|) <= |c|
    ensures Excise(c, spans, from) == c[from..FirstStart(spans, |c|)] + Excise(c, spans, FirstStart(spans, |c|))
  {
    if spans != [] {
      var st := spans[0].start;
      assert c[st..st] == [];
      assert Excise(c, spans, st) == c[st..st] + Excise(c, spans[1..], spans[0].end);
    }
  }

  /**
   * Cutting a match that lies before all the others out of the text they
   * have already been cut from gives the left-to-right result: deleting from
   * the last match backwards leaves the earlier positions valid.
   */
  lemma ExciseFront(c: string, s: Span, later: seq<Span>)
    requires Ordered([s] + later, |c|)
    ensures Ordered(later, |c|)
    ensures s.start <= s.end <= FirstStart(later, |c|) <= |Excise(c, later, 0)|
    ensures var x := Excise(c, later, 0); x[..s.start] + x[s.end..] == Excise(c, [s] + later, 0)
  {
    var all := [s] + later;
    assert all[0] == s && all[1..] == later;
    OrderedSuffix(all, |c|, 1);
    var n := FirstStart(later, |c|);
    assert s.end <= n by {
      if later != [] {
        assert all[0].end <= all[1].start;
      }
    }
    var rest := Excise(c, later, n);
    ExciseHead(c, later, 0);
    ExciseHead(c, later, s.end);
    assert Excise(c, all, 0) == c[..s.start] + Excise(c, later, s.end);
    CutInPrefix(c[..n], rest, s.start, s.end);
    assert c[..n][..s.start] == c[..s.start];
    assert c[..n][s.end..] == c[s.end..n];
  }

  // ------------------------------------------------------- the patterns

  /** Entries in `NOISE_PATTERNS` and `DEDUPE_PATTERNS`. */
  const NoiseCount: nat := 43
  const DedupeCount: nat := 5

  /**
   * The cleaner's regular expressions, left abstract: `noise(k, s)` is the
   * substitution of the k-th noise pattern over `s`, `dedupe(k, s)` the
   * matches of the k-th boilerplate pattern in `s`, and `header(s)` the
   * matches of the product-header pattern.
   */
  datatype Regexes = Regexes(
    noise: (nat, string) -> string,
    dedupe: (nat, string) -> seq<Span>,
    header: string -> seq<Span>)

  /** `finditer` yields ordered, non-overlapping matches inside the text. */
  ghost predicate Sound(rx: Regexes)
  {
    (forall k, s :: Ordered(rx.dedupe(k, s), |s|)) && (forall s :: Ordered(rx.header(s), |s|))
  }

  /** The cleaner's patterns: any regular expressions whose matches behave as `finditer`'s do. */
  type Patterns = rx: Regexes | Sound(rx)
    witness Regexes((k: nat, s: string) => s, (k: nat, s: string) => [], (s: string) => [])

  /** Every noise substitution, in list order, up to the k-th. */
  function NoiseUpTo(rx: Regexes, body: string, k: nat): string
  {
    if k == 0 then body else rx.noise(k - 1, NoiseUpTo(rx, body, k - 1))
  }

  // ------------------------------------------------------ deduplication

  /** One boilerplate pattern: all matches after the first are cut. */
  function KeepFirst(c: string, matches: seq<Span>): string
    requires Ordered(matches, |c|)
  {
    if |matches| > 1 then Excise(c, matches[1..], 0) else c
  }

  /** The first match survives in place: everything up to the second match is kept. */
  lemma KeepFirstKeepsFirst(c: string, matches: seq<Span>)
    requires Ordered(matches, |c|) && |matches| > 1
    ensures matches[0].end <= matches[1].start
    ensures StartsWith(KeepFirst(c, matches), c[..matches[1].start])
    ensures |KeepFirst(c, matches)| == |c| - Covered(matches[1..])
  {
    OrderedSuffix(matches, |c|, 1);
  }

  /** The boilerplate patterns applied in order, up to the k-th, each to the previous result. */
  function DedupeUpTo(rx: Patterns, content: string, k: nat): string
  {
    if k == 0 then content
    else
      var c := DedupeUpTo(rx, content, k - 1);
      KeepFirst(c, rx.dedupe(k - 1, c))
  }

  /** The inner loop of `deduplicate_sections`: the matches after the first are deleted, last one first. */
  method CutLaterMatches(c: string, matches: seq<Span>) returns (r: string)
    requires Ordered(matches, |c|)
    ensures r == KeepFirst(c, matches)
  {
    r := c;
    if |matches| > 1 {
      var j := |matches|;
      while j > 1
        invariant 1 <= j <= |matches|
        invariant Ordered(matches[j..], |c|)
        invariant r == Excise(c, matches[j..], 0)
      {
        j := j - 1;
        OrderedSuffix(matches, |c|, j);
        assert matches[j..] == [matches[j]] + matches[j + 1..];
        ExciseFront(c, matches[j], matches[j + 1..]);
        r := r[..matches[j].start] + r[matches[j].end..];
      }
    }
  }

  /** `deduplicate_sections`: each boilerplate pattern in turn, matched against the text as it stands. */
  method DeduplicateSections(rx: Patterns, content: string) returns (r: string)
    ensures r == DedupeUpTo(rx, content, DedupeCount)
  {
    r := content;
    for k := 0 to DedupeCount
      invariant r == DedupeUpTo(rx, content, k)
    {
      var matches := rx.dedupe(k, r);
      r := CutLaterMatches(r, matches);
    }
  }

  // ------------------------------------------------------ product headers

  /** How the header comparison sees a match: `group(0).lower().strip()`. */
  function HeaderText(c: string, m: Span): string
    requires m.start <= m.end <= |c|
  {
    Strip(Lower(c[m.start..m.end]))
  }

  /** The test applied to each later header match: its text equals the first header's. */
  function SameHeader(c: string, first: string): Span -> bool
  {
    (m: Span) => m.start <= m.end <= |c| && HeaderText(c, m) == first
  }

  /** A selection of ordered matches, in their order, is ordered. */
  lemma {:induction false} FilterOrdered(spans: seq<Span>, keep: Span -> bool, n: nat)
    requires Ordered(spans, n)
    ensures Ordered(Filter(spans, keep), n)
    decreases |spans|
  {
    if spans != [] {
      var init := spans[..|spans| - 1];
      var last := spans[|spans| - 1];
      FilterOrdered(init, keep, n);
      FilterSpec(init, keep);
      var f := Filter(init, keep);
      forall i | 0 <= i < |f|
        ensures f[i].end <= last.start
      {
        assert f[i] in init;
      }
    }
  }

  /**
   * One step of a backward deletion loop that deletes only the matches
   * passing `keep`: a passing match is cut from the text the later ones were
   * cut from, a failing one changes nothing.
   */
  lemma CutStep(c: string, m: Span, rest: seq<Span>, keep: Span -> bool)
    requires Ordered([m] + rest, |c|)
    ensures Ordered(Filter([m] + rest, keep), |c|) && Ordered(Filter(rest, keep), |c|)
    ensures keep(m) ==> m.start <= m.end <= |Excise(c, Filter(rest, keep), 0)|
    ensures keep(m) ==> var x := Excise(c, Filter(rest, keep), 0);
      Excise(c, Filter([m] + rest, keep), 0) == x[..m.start] + x[m.end..]
    ensures !keep(m) ==> Excise(c, Filter([m] + rest, keep), 0) == Excise(c, Filter(rest, keep), 0)
  {
    FilterCons(m, rest, keep);
    FilterOrdered([m] + rest, keep, |c|);
    OrderedSuffix([m] + rest, |c|, 1);
    assert ([m] + rest)[1..] == rest;
    FilterOrdered(rest, keep, |c|);
    if keep(m) {
      ExciseFront(c, m, Filter(rest, keep));
    } else {
      assert Filter([m] + rest, keep) == Filter(rest, keep);
    }
  }

  /** A selection of the matches after a first one starts after it. */
  lemma SelectionAfterFirst(first: Span, later: seq<Span>, keep: Span -> bool, n: nat)
    requires Ordered([first] + later, n)
    ensures first.end <= FirstStart(Filter(later, keep), n)
  {
    var all := [first] + later;
    assert all[0] == first;
    var cut := Filter(later, keep);
    if cut != [] {
      FilterSpec(later, keep);
      assert cut[0] in later;
      var k :| 0 <= k < |later| && later[k] == cut[0];
      assert all[k + 1] == cut[0];
    }
  }

  /** Cutting any selection of the matches after a first one keeps the text up to the end of that first one. */
  lemma SelectionKeepsFirst(c: string, first: Span, later: seq<Span>, keep: Span -> bool)
    requires Ordered([first] + later, |c|)
    ensures Ordered(Filter(later, keep), |c|)
    ensures first.end <= |c| && StartsWith(Excise(c, Filter(later, keep), 0), c[..first.end])
  {
    var all := [first] + later;
    assert all[1..] == later;
    OrderedSuffix(all, |c|, 1);
    var cut := Filter(later, keep);
    FilterOrdered(later, keep, |c|);
    SelectionAfterFirst(first, later, keep, |c|);
    ExcisePrefix(c, cut);
    StartsWithShorter(Excise(c, cut, 0), c, first.end, FirstStart(cut, |c|));
  }

  /**
   * A backward deletion loop that deletes only the matches passing `keep`:
   * the result is the left-to-right cut of the passing matches.
   */
  method CutSelected(c: string, matches: seq<Span>, keep: Span -> bool) returns (r: string)
    requires Ordered(matches, |c|)
    ensures Ordered(Filter(matches, keep), |c|)
    ensures r == Excise(c, Filter(matches, keep), 0)
  {
    r := c;
    var j := |matches|;
    while j > 0
      invariant 0 <= j <= |matches|
      invariant Ordered(Filter(matches[j..], keep), |c|)
      invariant r == Excise(c, Filter(matches[j..], keep), 0)
    {
      var rest := matches[j..];
      j := j - 1;
      var m := matches[j];
      OrderedSuffix(matches, |c|, j);
      assert matches[j..] == [m] + rest;
      CutStep(c, m, rest, keep);
      if keep(m) {
        r := r[..m.start] + r[m.end..];
      }
    }
    assert matches[0..] == matches;
  }

  /** `remove_duplicate_product_headers` as a function of the header matches. */
  function DropRepeatedHeaders(c: string, matches: seq<Span>): string
    requires Ordered(matches, |c|)
  {
    if |matches| > 1 then
      var cut := Filter(matches[1..], SameHeader(c, HeaderText(c, matches[0])));
      FilterOrdered(matches[1..], SameHeader(c, HeaderText(c, matches[0])), |c|);
      Excise(c, cut, 0)
    else c
  }

  /** The first header is always kept, unchanged and in place. */
  lemma DropRepeatedHeadersKeepsFirst(c: string, matches: seq<Span>)
    requires Ordered(matches, |c|) && |matches| > 1
    ensures StartsWith(DropRepeatedHeaders(c, matches), c[..matches[0].end])
  {
    assert matches == [matches[0]] + matches[1..];
    SelectionKeepsFirst(c, matches[0], matches[1..], SameHeader(c, HeaderText(c, matches[0])));
  }

  /** A later header is cut exactly when its lower-cased, stripped text equals the first one's. */
  lemma DropRepeatedHeadersCuts(c: string, matches: seq<Span>, m: Span)
    requires Ordered(matches, |c|) && |matches| > 1
    ensures m in Filter(matches[1..], SameHeader(c, HeaderText(c, matches[0]))) <==>
      m in matches[1..] && HeaderText(c, m) == HeaderText(c, matches[0])
  {
    FilterSpec(matches[1..], SameHeader(c, HeaderText(c, matches[0])));
  }

  /**
   * `remove_duplicate_product_headers`: when there is more than one header,
   * the later ones are compared with the first and deleted from the last one
   * backwards.
   */
  method RemoveDuplicateProductHeaders(rx: Patterns, content: string) returns (r: string)
    ensures r == DropRepeatedHeaders(content, rx.header(content))
  {
    var matches := rx.header(content);
    r := content;
    if |matches| > 1 {
      var first := HeaderText(content, matches[0]);
      OrderedSuffix(matches, |content|, 1);
      r := CutSelected(content, matches[1..], SameHeader(content, first));
    }
  }

  // --------------------------------------------------- repeated paragraphs

  /** `re.split(r'\n{2,}', s)`: the pieces between the runs of two or more newlines. */
  function SplitBlocks(s: string): (r: seq<string>)
    ensures 0 < |r| && |r[0]| <= |s| && r[0] == s[..|r[0]|]
    decreases |s|
  {
    var i := IndexOf(s, "\n\n");
    if i == -1 then [s]
    else
      assert s[i..][0] == '\n';
      [s[..i]] + SplitBlocks(DropNewlines(s[i..]))
  }

  /** What `\n{2,}` matches: a run of two or more newlines. */
  predicate NewlineRun(t: string)
  {
    2 <= |t| && forall j :: 0 <= j < |t| ==> t[j] == '\n'
  }

  /** The leading newlines of `t`. */
  function Gap(t: string): string
  {
    t[..|t| - |DropNewlines(t)|]
  }

  /** The runs `SplitBlocks` splits at, in order. */
  function Separators(s: string): seq<string>
    decreases |s|
  {
    var i := IndexOf(s, "\n\n");
    if i == -1 then []
    else
      assert s[i..][0] == '\n';
      [Gap(s[i..])] + Separators(DropNewlines(s[i..]))
  }

  /** The pieces with the separators put back between them. */
  function Interleave(ps: seq<string>, seps: seq<string>): string
    requires |ps| == |seps| + 1
    decreases |seps|
  {
    if seps == [] then ps[0] else ps[0] + seps[0] + Interleave(ps[1..], seps[1..])
  }

  /** The first split of `s`: its first paragraph, the separator after it, and the rest. */
  lemma SplitBlocksStep(s: string, i: int, t: string, d: string)
    requires i == IndexOf(s, "\n\n") && i != -1 && t == s[i..] && d == DropNewlines(t)
    ensures SplitBlocks(s) == [s[..i]] + SplitBlocks(d)
    ensures Separators(s) == [Gap(t)] + Separators(d)
  {
  }

  /** The run of newlines at the front of the text after the first `\n\n`. */
  lemma GapAfter(s: string, i: int, t: string, d: string)
    requires i == IndexOf(s, "\n\n") && i != -1 && t == s[i..] && d == DropNewlines(t)
    ensures NewlineRun(Gap(t)) && s == s[..i] + Gap(t) + d && |d| < |s|
  {
    assert OccursAt(s, "\n\n", i);
    assert s[i..i + 2][0] == s[i] && s[i..i + 2][1] == s[i + 1];
    RunBeforeRest(s, i, t, d);
  }

  /** A run of newlines that starts with two, cut off the front of a suffix. */
  lemma RunBeforeRest(s: string, i: nat, t: string, d: string)
    requires i + 2 <= |s| && t == s[i..] && s[i] == '\n' && s[i + 1] == '\n'
    requires |d| <= |t| && d == t[|t| - |d|..] && (d == [] || d[0] != '\n')
    requires forall j :: 0 <= j < |t| - |d| ==> t[j] == '\n'
    ensures NewlineRun(t[..|t| - |d|]) && s == s[..i] + t[..|t| - |d|] + d && |d| < |s|
  {
    assert s == s[..i] + t;
    assert t == t[..|t| - |d|] + d;
  }

  /**
   * Splitting drops only the separators: each one is a run of two or more
   * newlines, and putting them back between the paragraphs gives the text.
   */
  lemma {:induction false} SplitBlocksRejoin(s: string)
    ensures |SplitBlocks(s)| == |Separators(s)| + 1
    ensures Interleave(SplitBlocks(s), Separators(s)) == s
    ensures forall k :: 0 <= k < |Separators(s)| ==> NewlineRun(Separators(s)[k])
    decreases |s|
  {
    var i := IndexOf(s, "\n\n");
    if i != -1 {
      var t := s[i..];
      var d := DropNewlines(t);
      SplitBlocksStep(s, i, t, d);
      GapAfter(s, i, t, d);
      SplitBlocksRejoin(d);
      var r, seps := SplitBlocks(s), Separators(s);
      assert r[1..] == SplitBlocks(d) && seps[1..] == Separators(d);
    }
  }

  /**
   * No paragraph holds two newlines in a row; each but the last does not
   * end in a newline, and each but the first does not begin with one, so
   * every run of newlines between them is taken whole.
   */
  lemma {:induction false} SplitBlocksPieces(s: string)
    ensures forall k :: 0 <= k < |SplitBlocks(s)| ==> !Contains(SplitBlocks(s)[k], "\n\n")
    ensures forall k :: 0 <= k < |SplitBlocks(s)| - 1 ==> !EndsWith(SplitBlocks(s)[k], "\n")
    ensures forall k :: 0 < k < |SplitBlocks(s)| ==> !StartsWith(SplitBlocks(s)[k], "\n")
    decreases |s|
  {
    var i := IndexOf(s, "\n\n");
    if i != -1 {
      var d := DropNewlines(s[i..]);
      SplitBlocksStep(s, i, s[i..], d);
      GapAfter(s, i, s[i..], d);
      SplitBlocksPieces(d);
      FirstBreakFree(s, i);
      PiecesCons(SplitBlocks(s), s[..i], SplitBlocks(d), d);
    }
  }

  /** A first paragraph, then the paragraphs of what follows its separator. */
  lemma PiecesCons(r: seq<string>, p: string, rest: seq<string>, d: string)
    requires r == [p] + rest && 0 < |rest| && |rest[0]| <= |d| && rest[0] == d[..|rest[0]|]
    requires d == [] || d[0] != '\n'
    requires !Contains(p, "\n\n") && !EndsWith(p, "\n")
    requires forall k :: 0 <= k < |rest| ==> !Contains(rest[k], "\n\n")
    requires forall k :: 0 <= k < |rest| - 1 ==> !EndsWith(rest[k], "\n")
    requires forall k :: 0 < k < |rest| ==> !StartsWith(rest[k], "\n")
    ensures forall k :: 0 <= k < |r| ==> !Contains(r[k], "\n\n")
    ensures forall k :: 0 <= k < |r| - 1 ==> !EndsWith(r[k], "\n")
    ensures forall k :: 0 < k < |r| ==> !StartsWith(r[k], "\n")
  {
    if rest[0] != [] {
      assert rest[0][0] == d[0];
    }
    forall k | 0 < k < |r|
      ensures r[k] == rest[k - 1]
    {
    }
  }

  /** The text before the first `\n\n` holds none and does not end in a newline. */
  lemma FirstBreakFree(s: string, i: int)
    requires i == IndexOf(s, "\n\n") && i != -1
    ensures !Contains(s[..i], "\n\n") && !EndsWith(s[..i], "\n")
  {
    var p := s[..i];
    if Contains(p, "\n\n") {
      ContainsWitness(p, "\n\n");
      var j := IndexOf(p, "\n\n");
      assert p[j..j + 2] == s[j..j + 2];
      assert OccursAt(s, "\n\n", j);
      assert false;
    }
    if EndsWith(p, "\n") {
      assert OccursAt(s, "\n\n", i);
      assert s[i..i + 2][0] == s[i];
      assert p[i - 1] == s[i - 1] == '\n';
      assert s[i - 1..i + 1] == "\n\n";
      assert OccursAt(s, "\n\n", i - 1);
      assert false;
    }
  }

  /** A paragraph shorter than 50 characters once stripped is always kept. */
  predicate Short(p: string)
  {
    |Strip(p)| < 50
  }

  /*
   * The paragraph pass is stated over any "short" test and any normaliser;
   * `remove_duplicate_blocks` uses `Short` and `NormalizeText`.
   */

  /** The normal forms of the long paragraphs among `ps`. */
  function LongForms(ps: seq<string>, short: string -> bool, norm: string -> string): set<string>
  {
    set p | p in ps && !short(p) :: norm(p)
  }

  /**
   * The paragraphs `remove_duplicate_blocks` keeps, in order: every short
   * one, and a long one unless a long paragraph before it has the same
   * normal form.
   */
  function UniqueBlocks(ps: seq<string>, short: string -> bool, norm: string -> string): seq<string>
    decreases |ps|
  {
    if ps == [] then []
    else
      var p := ps[|ps| - 1];
      UniqueBlocks(ps[..|ps| - 1], short, norm) +
        if short(p) || norm(p) !in LongForms(ps[..|ps| - 1], short, norm) then [p] else []
  }

  lemma LongFormsNext(ps: seq<string>, p: string, short: string -> bool, norm: string -> string)
    ensures LongForms(ps + [p], short, norm) == LongForms(ps, short, norm) + if short(p) then {} else {norm(p)}
  {
    var ps' := ps + [p];
    forall q | q in ps' ensures q in ps || q == p {
    }
  }

  /** One more paragraph: kept if short or of a normal form not seen among the long ones before it. */
  lemma UniqueBlocksNext(ps: seq<string>, i: nat, short: string -> bool, norm: string -> string)
    requires i < |ps|
    ensures UniqueBlocks(ps[..i + 1], short, norm) == UniqueBlocks(ps[..i], short, norm) +
      if short(ps[i]) || norm(ps[i]) !in LongForms(ps[..i], short, norm) then [ps[i]] else []
    ensures short(ps[i]) || norm(ps[i]) in LongForms(ps[..i], short, norm) ==>
      LongForms(ps[..i + 1], short, norm) == LongForms(ps[..i], short, norm)
    ensures !short(ps[i]) ==> LongForms(ps[..i + 1], short, norm) == LongForms(ps[..i], short, norm) + {norm(ps[i])}
  {
    assert ps[..i + 1] == ps[..i] + [ps[i]];
    LongFormsNext(ps[..i], ps[i], short, norm);
  }

  /** Every short paragraph survives, in its place among the other short ones. */
  lemma {:induction false} UniqueBlocksKeepsShort(ps: seq<string>, short: string -> bool, norm: string -> string)
    ensures Filter(UniqueBlocks(ps, short, norm), short) == Filter(ps, short)
    decreases |ps|
  {
    if ps != [] {
      var init := ps[..|ps| - 1];
      var p := ps[|ps| - 1];
      UniqueBlocksKeepsShort(init, short, norm);
      var kept := if short(p) || norm(p) !in LongForms(init, short, norm) then [p] else [];
      FilterAppend(UniqueBlocks(init, short, norm), kept, short);
    }
  }

  /** Every normal form of a long paragraph is still represented after the cut. */
  lemma {:induction false} UniqueBlocksKeepsForms(ps: seq<string>, short: string -> bool, norm: string -> string)
    ensures LongForms(UniqueBlocks(ps, short, norm), short, norm) == LongForms(ps, short, norm)
    decreases |ps|
  {
    if ps != [] {
      var init := ps[..|ps| - 1];
      var p := ps[|ps| - 1];
      var u := UniqueBlocks(init, short, norm);
      assert ps == init + [p];
      UniqueBlocksKeepsForms(init, short, norm);
      LongFormsNext(init, p, short, norm);
      if short(p) || norm(p) !in LongForms(init, short, norm) {
        LongFormsNext(u, p, short, norm);
      }
    }
  }

  /** No two long paragraphs that survive have the same normal form. */
  lemma {:induction false} UniqueBlocksDistinct(ps: seq<string>, short: string -> bool, norm: string -> string)
    ensures var r := UniqueBlocks(ps, short, norm);
      forall i, j :: 0 <= i < j < |r| && !short(r[i]) && !short(r[j]) ==> norm(r[i]) != norm(r[j])
    decreases |ps|
  {
    if ps != [] {
      var init := ps[..|ps| - 1];
      var p := ps[|ps| - 1];
      UniqueBlocksDistinct(init, short, norm);
      UniqueBlocksKeepsForms(init, short, norm);
      var u := UniqueBlocks(init, short, norm);
      var r := UniqueBlocks(ps, short, norm);
      forall i, j | 0 <= i < j < |r| && !short(r[i]) && !short(r[j])
        ensures norm(r[i]) != norm(r[j])
      {
        if j == |u| {
          assert r[i] == u[i] && r[j] == p;
          assert norm(u[i]) in LongForms(u, short, norm);
        } else {
          assert r[i] == u[i] && r[j] == u[j];
        }
      }
    }
  }

  /** `remove_duplicate_blocks`, with the set of normal forms seen so far. */
  method RemoveDuplicateBlocks(content: string) returns (r: string)
    ensures r == Join("\n\n", UniqueBlocks(SplitBlocks(content), Short, NormalizeText))
  {
    var paragraphs := SplitBlocks(content);
    var seen: set<string> := {};
    var unique: seq<string> := [];
    for i := 0 to |paragraphs|
      invariant unique == UniqueBlocks(paragraphs[..i], Short, NormalizeText)
      invariant seen == LongForms(paragraphs[..i], Short, NormalizeText)
    {
      var para := paragraphs[i];
      UniqueBlocksNext(paragraphs, i, Short, NormalizeText);
      if Short(para) {
        unique := unique + [para];
      } else {
        var normalized := NormalizeText(para);
        if normalized !in seen {
          seen := seen + {normalized};
          unique := unique + [para];
        }
      }
    }
    assert paragraphs[..|paragraphs|] == paragraphs;
    r := Join("\n\n", unique);
  }

  // ------------------------------------------------------------- tidying

  /** A line of only spaces and tabs, or an empty one. */
  predicate AllBlank(l: string)
  {
    forall i :: 0 <= i < |l| ==> IsBlank(l[i])
  }

  /** `re.sub(r'^[ \t]+$', '', s, flags=re.MULTILINE)` on one line: a blank line becomes empty. */
  function EmptyIfBlank(l: string): (r: string)
    ensures r == [] || !AllBlank(r)
    ensures StartsWith(l, r)
  {
    if AllBlank(l) then [] else l
  }

  /** `re.sub(r'[ \t]+$', '', s, flags=re.MULTILINE)` on one line: trailing blanks removed. */
  function TrimBlanks(l: string): (r: string)
    ensures |r| <= |l| && r == l[..|r|]
    ensures r == [] || !IsBlank(r[|r| - 1])
    ensures forall i :: |r| <= i < |l| ==> IsBlank(l[i])
    decreases |l|
  {
    if l != [] && IsBlank(l[|l| - 1]) then TrimBlanks(l[..|l| - 1]) else l
  }

  /** Each empty line that directly follows another empty line is dropped. */
  function Collapse(ms: seq<string>): (r: seq<string>)
    ensures forall i :: 0 <= i < |r| - 1 ==> r[i] != [] || r[i + 1] != []
    ensures forall x :: x in r ==> x in ms
    ensures ms != [] ==> r != [] && r[|r| - 1] == ms[|ms| - 1]
    decreases |ms|
  {
    if |ms| <= 1 then ms
    else
      Collapse(ms[..|ms| - 1]) + if ms[|ms| - 1] == [] && ms[|ms| - 2] == [] then [] else [ms[|ms| - 1]]
  }

  /**
   * `re.sub(r'\n{3,}', '\n\n', s)` on the lines of `s`: three or more
   * newlines in a row are two or more empty lines between the first and the
   * last line, and they become one.
   */
  function SquashEmpty(ls: seq<string>): seq<string>
  {
    if |ls| <= 2 then ls else [ls[0]] + Collapse(ls[1..|ls| - 1]) + [ls[|ls| - 1]]
  }

  /** No line holds a newline. */
  predicate NoNewlines(ls: seq<string>)
  {
    forall k :: 0 <= k < |ls| ==> '\n' !in ls[k]
  }

  /** No two empty lines follow each other, the first and the last line aside. */
  predicate NoEmptyPair(ls: seq<string>)
  {
    forall k :: 1 <= k < |ls| - 2 ==> ls[k] != [] || ls[k + 1] != []
  }

  /** The squash leaves no two empty lines in a row inside the text, and adds no line. */
  lemma SquashEmptySpec(ls: seq<string>)
    ensures NoEmptyPair(SquashEmpty(ls))
    ensures forall x :: x in SquashEmpty(ls) ==> x in ls
  {
    if |ls| > 2 {
      SquashFrame(ls, Collapse(ls[1..|ls| - 1]));
    }
  }

  /** The first and the last line put back around collapsed middle lines. */
  lemma SquashFrame(ls: seq<string>, c: seq<string>)
    requires |ls| > 2
    requires forall i :: 0 <= i < |c| - 1 ==> c[i] != [] || c[i + 1] != []
    requires forall x :: x in c ==> x in ls[1..|ls| - 1]
    ensures var r := [ls[0]] + c + [ls[|ls| - 1]]; NoEmptyPair(r) && forall x :: x in r ==> x in ls
  {
    var r := [ls[0]] + c + [ls[|ls| - 1]];
    forall k | 1 <= k < |r| - 2
      ensures r[k] != [] || r[k + 1] != []
    {
      assert r[k] == c[k - 1] && r[k + 1] == c[k];
    }
    forall x | x in r
      ensures x in ls
    {
      if x in c {
        var j :| 0 <= j < |ls| - 2 && ls[1..|ls| - 1][j] == x;
        assert ls[j + 1] == x;
      }
    }
  }

  /** The lines of the body after the three multi-line substitutions. */
  function TidyLines(body: string): seq<string>
  {
    var ls := Split(body, '\n');
    var emptied := seq(|ls|, i requires 0 <= i < |ls| => EmptyIfBlank(ls[i]));
    var squashed := SquashEmpty(emptied);
    seq(|squashed|, i requires 0 <= i < |squashed| => TrimBlanks(squashed[i]))
  }

  /** The whitespace clean-up that ends `clean_content`, stripped at both ends. */
  function Tidy(body: string): string
  {
    Strip(Join("\n", TidyLines(body)))
  }

  /** A joined text that starts with a newline starts with an empty line followed by more. */
  lemma JoinStart(ls: seq<string>)
    requires NoNewlines(ls)
    ensures var j := Join("\n", ls); j != [] && j[0] == '\n' ==> 1 < |ls| && ls[0] == []
  {
    if 0 < |ls| && ls[0] != [] {
      assert ls[0][0] in ls[0];
      assert Join("\n", ls)[0] == ls[0][0];
    }
  }

  /** Where the first line ends, the joined text does not go on with three newlines. */
  lemma JoinSeam(ls: seq<string>)
    requires 2 <= |ls| && NoNewlines(ls) && NoEmptyPair(ls)
    ensures !OccursAt(Join("\n", ls), "\n\n\n", |ls[0]|)
  {
    var j := Join("\n", ls);
    var rest := ls[1..];
    var jr := Join("\n", rest);
    var p := |ls[0]|;
    assert j == ls[0] + "\n" + jr;
    if p + 3 <= |j| {
      JoinStart(rest);
      if 1 < |rest| {
        JoinStart(rest[1..]);
        assert jr == rest[0] + "\n" + Join("\n", rest[1..]);
      }
      assert j[p..p + 3][1] == j[p + 1] == jr[0];
      assert j[p..p + 3][2] == j[p + 2] == jr[1];
      if 1 < |rest| && rest[0] == [] {
        assert jr == "\n" + Join("\n", rest[1..]);
      }
    }
  }

  /**
   * Lines without newlines and without two empty lines in a row inside the
   * text join into a text without three newlines in a row.
   */
  lemma {:induction false} NoTripleNewline(ls: seq<string>)
    requires NoNewlines(ls) && NoEmptyPair(ls)
    ensures !Contains(Join("\n", ls), "\n\n\n")
    decreases |ls|
  {
    var j := Join("\n", ls);
    if |ls| < 2 {
      if |ls| == 1 {
        assert j == ls[0];
      }
      MissingHead(j, "\n\n\n");
    } else {
      var rest := ls[1..];
      var jr := Join("\n", rest);
      assert j == ls[0] + "\n" + jr;
      NoTripleNewline(rest);
      forall p | 0 <= p
        ensures !OccursAt(j, "\n\n\n", p)
      {
        if p + 3 <= |j| {
          if p < |ls[0]| {
            assert j[p] == ls[0][p];
            assert ls[0][p] in ls[0];
          } else if p > |ls[0]| {
            var q := p - |ls[0]| - 1;
            assert j[p..p + 3] == jr[q..q + 3];
            assert !OccursAt(jr, "\n\n\n", q);
          } else {
            JoinSeam(ls);
          }
        }
      }
    }
  }

  /** The tidied body has no whitespace at either end and never three newlines in a row. */
  lemma TidyShape(body: string)
    ensures var t := Tidy(body); t == [] || (!IsSpace(t[0]) && !IsSpace(t[|t| - 1]))
    ensures !Contains(Tidy(body), "\n\n\n")
  {
    var ls := Split(body, '\n');
    SplitJoin(body, '\n');
    var emptied := seq(|ls|, i requires 0 <= i < |ls| => EmptyIfBlank(ls[i]));
    var squashed := SquashEmpty(emptied);
    SquashEmptySpec(emptied);
    var lines := TidyLines(body);
    forall k | 0 <= k < |lines|
      ensures '\n' !in lines[k] && (lines[k] == [] <==> squashed[k] == [])
    {
      assert squashed[k] in emptied;
      var e :| 0 <= e < |emptied| && emptied[e] == squashed[k];
      assert forall c :: c in emptied[e] ==> c in ls[e];
    }
    assert NoNewlines(lines);
    NoTripleNewline(lines);
    var joined := Join("\n", lines);
    StripEnds(joined);
    StripIsTrimmedMiddle(joined);
    var a, b :| 0 <= a <= b <= |joined| && Strip(joined) == joined[a..b];
    if Contains(Tidy(body), "\n\n\n") {
      ContainsInSlice(joined, "\n\n\n", a, b);
    }
  }

  // -------------------------------------------------------- clean_content

  /** `remove_duplicate_blocks` as a function. */
  function UniqueParagraphs(content: string): string
  {
    Join("\n\n", UniqueBlocks(SplitBlocks(content), Short, NormalizeText))
  }

  /** The body after the noise, boilerplate, header and paragraph passes. */
  function CleanedBody(rx: Patterns, body: string): string
  {
    var denoised := NoiseUpTo(rx, body, NoiseCount);
    var deduped := DedupeUpTo(rx, denoised, DedupeCount);
    UniqueParagraphs(DropRepeatedHeaders(deduped, rx.header(deduped)))
  }

  /** What `clean_content` returns. */
  function Cleaned(rx: Patterns, content: string): string
  {
    var (front, body) := ExtractFrontmatter(content);
    front + "\n" + Tidy(CleanedBody(rx, body)) + "\n"
  }

  /** A body as `clean_content` leaves it: no outer whitespace, no three newlines in a row. */
  predicate TidyBody(t: string)
  {
    (t == [] || (!IsSpace(t[0]) && !IsSpace(t[|t| - 1]))) && !Contains(t, "\n\n\n")
  }

  /**
   * The cleaned document is the frontmatter, a newline, a tidy body and a
   * final newline.
   */
  lemma CleanedShape(rx: Patterns, content: string)
    ensures exists t :: TidyBody(t) && Cleaned(rx, content) == ExtractFrontmatter(content).0 + "\n" + t + "\n"
  {
    var t := Tidy(CleanedBody(rx, ExtractFrontmatter(content).1));
    TidyShape(CleanedBody(rx, ExtractFrontmatter(content).1));
    assert TidyBody(t);
  }

  /** `clean_content`: frontmatter set aside, the noise patterns applied in order, the passes, the tidy-up. */
  method CleanContent(rx: Patterns, content: string) returns (r: string)
    ensures r == Cleaned(rx, content)
  {
    var (front, body) := ExtractFrontmatter(content);
    var start := body;
    for k := 0 to NoiseCount
      invariant body == NoiseUpTo(rx, start, k)
    {
      body := rx.noise(k, body);
    }
    body := DeduplicateSections(rx, body);
    body := RemoveDuplicateProductHeaders(rx, body);
    body := RemoveDuplicateBlocks(body);
    r := front + "\n" + Tidy(body) + "\n";
  }

  // ------------------------------------------------------ clean_directory

  /** `clean_directory` skips files already cleaned and the parser's metadata file. */
  predicate Cleanable(name: string)
  {
    !EndsWith(name, ".cleaned.md") && name != "parsing_metadata.json"
  }

  /** One entry of `results`: the sizes in characters, or the failure. */
  datatype FileReport =
    | Done(file: string, originalSize: nat, cleanedSize: nat)
    | Failed(file: string)

  predicate Succeeded(r: FileReport) { r.Done? }

  predicate Erred(r: FileReport) { r.Failed? }

  /** The summary `clean_directory` returns, without its timestamp and percentages. */
  datatype CleanSummary = CleanSummary(
    processed: nat,
    succeeded: nat,
    failed: nat,
    originalBytes: nat,
    cleanedBytes: nat,
    results: seq<FileReport>)

  /**
   * `clean_file` on one name: `read(name)` is its text when reading it and
   * writing the cleaned copy both succeed, `None` when either raises.
   */
  function Report(clean: string -> string, read: string -> Option<string>, name: string): (r: FileReport)
    ensures r.file == name
    ensures r.Done? <==> read(name).Some?
  {
    match read(name)
    case None => Failed(name)
    case Some(text) => Done(name, |text|, |clean(text)|)
  }

  /** The reports for the files, in order. */
  function Reports(clean: string -> string, read: string -> Option<string>, files: seq<string>): (r: seq<FileReport>)
    ensures |r| == |files|
    decreases |files|
  {
    if files == [] then []
    else Reports(clean, read, files[..|files| - 1]) + [Report(clean, read, files[|files| - 1])]
  }

  /** One report per file, in the files' order, each succeeding exactly when the file could be read. */
  lemma {:induction false} ReportsSpec(clean: string -> string, read: string -> Option<string>, files: seq<string>)
    ensures forall i :: 0 <= i < |files| ==> Reports(clean, read, files)[i] == Report(clean, read, files[i])
    decreases |files|
  {
    if files != [] {
      var init := files[..|files| - 1];
      ReportsSpec(clean, read, init);
      var rs := Reports(clean, read, files);
      assert rs == Reports(clean, read, init) + [Report(clean, read, files[|files| - 1])];
      forall i | 0 <= i < |files|
        ensures rs[i] == Report(clean, read, files[i])
      {
        if i < |files| - 1 {
          assert files[i] == init[i];
          assert rs[i] == Reports(clean, read, init)[i];
        }
      }
    }
  }

  lemma ReportsNext(clean: string -> string, read: string -> Option<string>, files: seq<string>, i: nat)
    requires i < |files|
    ensures Reports(clean, read, files[..i + 1]) == Reports(clean, read, files[..i]) + [Report(clean, read, files[i])]
  {
    assert files[..i + 1][..i] == files[..i];
  }

  function ReadSize(r: FileReport): nat
  {
    match r case Done(_, n, _) => n case Failed(_) => 0
  }

  function WrittenSize(r: FileReport): nat
  {
    match r case Done(_, _, n) => n case Failed(_) => 0
  }

  /** Characters read, over the files cleaned. */
  function OriginalBytes(rs: seq<FileReport>): nat
    decreases |rs|
  {
    if rs == [] then 0
    else OriginalBytes(rs[..|rs| - 1]) + ReadSize(rs[|rs| - 1])
  }

  /** One turn of the `clean_directory` loop: the next report extends the reports and the totals. */
  lemma CleanFilesStep(clean: string -> string, read: string -> Option<string>, files: seq<string>, i: nat,
                       results: seq<FileReport>, report: FileReport)
    requires i < |files| && results == Reports(clean, read, files[..i]) && report == Report(clean, read, files[i])
    ensures results + [report] == Reports(clean, read, files[..i + 1])
    ensures OriginalBytes(results + [report]) == OriginalBytes(results) + ReadSize(report)
    ensures CleanedBytes(results + [report]) == CleanedBytes(results) + WrittenSize(report)
  {
    ReportsNext(clean, read, files, i);
    BytesNext(results, report);
  }

  /** Appending one report adds its sizes to the totals. */
  lemma BytesNext(rs: seq<FileReport>, r: FileReport)
    ensures OriginalBytes(rs + [r]) == OriginalBytes(rs) + ReadSize(r)
    ensures CleanedBytes(rs + [r]) == CleanedBytes(rs) + WrittenSize(r)
  {
    assert (rs + [r])[..|rs|] == rs;
  }

  /** Characters written, over the files cleaned. */
  function CleanedBytes(rs: seq<FileReport>): nat
    decreases |rs|
  {
    if rs == [] then 0
    else CleanedBytes(rs[..|rs| - 1]) + WrittenSize(rs[|rs| - 1])
  }

  /** What `clean_directory` returns for the names the glob produced. */
  function DirectorySummary(clean: string -> string, read: string -> Option<string>, globbed: seq<string>): CleanSummary
  {
    var files := Filter(globbed, Cleanable);
    var results := Reports(clean, read, files);
    CleanSummary(|files|, |Filter(results, Succeeded)|, |Filter(results, Erred)|,
      OriginalBytes(results), CleanedBytes(results), results)
  }

  /**
   * Every file processed is a cleanable name the glob produced, each gets
   * exactly one report, and every report counts as a success or a failure.
   */
  lemma DirectorySummaryAccounting(clean: string -> string, read: string -> Option<string>, globbed: seq<string>)
    ensures var s := DirectorySummary(clean, read, globbed);
      s.succeeded + s.failed == s.processed == |s.results|
    ensures var s := DirectorySummary(clean, read, globbed);
      forall i :: 0 <= i < |s.results| ==> s.results[i].file in globbed && Cleanable(s.results[i].file)
  {
    var files := Filter(globbed, Cleanable);
    FilterSpec(globbed, Cleanable);
    var results := Reports(clean, read, files);
    FilterComplement(results, Succeeded, Erred);
    ReportsSpec(clean, read, files);
    forall i | 0 <= i < |results|
      ensures results[i].file in globbed && Cleanable(results[i].file)
    {
      assert files[i] in files;
    }
  }

  /** `clean_content` as a function value, for the directory layer. */
  function CleanerOf(rx: Patterns): string -> string
  {
    (t: string) => Cleaned(rx, t)
  }

  /** `clean_file`: read the file, clean it, and report the sizes before and after. */
  method CleanFile(rx: Patterns, read: string -> Option<string>, name: string) returns (report: FileReport)
    ensures report == Report(CleanerOf(rx), read, name)
  {
    match read(name)
    case None =>
      report := Failed(name);
    case Some(text) =>
      var cleaned := CleanContent(rx, text);
      report := Done(name, |text|, |cleaned|);
  }

  /** The loop of `clean_directory`: each file cleaned in turn, the totals kept as it goes. */
  method CleanFiles(rx: Patterns, read: string -> Option<string>, files: seq<string>)
    returns (results: seq<FileReport>, totalOriginal: nat, totalCleaned: nat)
    ensures results == Reports(CleanerOf(rx), read, files)
    ensures totalOriginal == OriginalBytes(results) && totalCleaned == CleanedBytes(results)
  {
    results, totalOriginal, totalCleaned := [], 0, 0;
    for i := 0 to |files|
      invariant results == Reports(CleanerOf(rx), read, files[..i])
      invariant totalOriginal == OriginalBytes(results)
      invariant totalCleaned == CleanedBytes(results)
    {
      results, totalOriginal, totalCleaned := CleanNext(rx, read, files, i, results, totalOriginal, totalCleaned);
    }
    assert files[..|files|] == files;
  }

  /** One turn of the loop: file `i` cleaned, its report appended and its sizes added to the totals. */
  method CleanNext(rx: Patterns, read: string -> Option<string>, files: seq<string>, i: nat,
                   results: seq<FileReport>, totalOriginal: nat, totalCleaned: nat)
    returns (results': seq<FileReport>, totalOriginal': nat, totalCleaned': nat)
    requires i < |files| && results == Reports(CleanerOf(rx), read, files[..i])
    requires totalOriginal == OriginalBytes(results) && totalCleaned == CleanedBytes(results)
    ensures results' == Reports(CleanerOf(rx), read, files[..i + 1])
    ensures totalOriginal' == OriginalBytes(results') && totalCleaned' == CleanedBytes(results')
  {
    var report := CleanFile(rx, read, files[i]);
    results', totalOriginal', totalCleaned' := AddReport(CleanerOf(rx), read, files, i, results, totalOriginal, totalCleaned, report);
  }

  /** The report of file `i` appended to the reports of the files before it, its sizes added to the totals. */
  method AddReport(clean: string -> string, read: string -> Option<string>, files: seq<string>, i: nat,
                   results: seq<FileReport>, totalOriginal: nat, totalCleaned: nat, report: FileReport)
    returns (results': seq<FileReport>, totalOriginal': nat, totalCleaned': nat)
    requires i < |files| && results == Reports(clean, read, files[..i]) && report == Report(clean, read, files[i])
    requires totalOriginal == OriginalBytes(results) && totalCleaned == CleanedBytes(results)
    ensures results' == Reports(clean, read, files[..i + 1])
    ensures totalOriginal' == OriginalBytes(results') && totalCleaned' == CleanedBytes(results')
  {
    CleanFilesStep(clean, read, files, i, results, report);
    results' := results + [report];
    totalOriginal' := totalOriginal + ReadSize(report);
    totalCleaned' := totalCleaned + WrittenSize(report);
  }

  /** `clean_directory`: the cleanable files of the glob, cleaned in turn, and the summary of the run. */
  method CleanDirectory(rx: Patterns, read: string -> Option<string>, globbed: seq<string>)
    returns (s: CleanSummary)
    ensures s == DirectorySummary(CleanerOf(rx), read, globbed)
  {
    var files := Filter(globbed, Cleanable);
    var results, totalOriginal, totalCleaned := CleanFiles(rx, read, files);
    s := CleanSummary(|files|, |Filter(results, Succeeded)|, |Filter(results, Erred)|,
      totalOriginal, totalCleaned, results);
  }
}

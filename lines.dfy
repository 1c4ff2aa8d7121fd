// Python's `str.splitlines()`, written out over `seq<char>`.

module Lines {
  import opened Strings

  /**
   * The characters `str.splitlines()` breaks at: line feed, vertical tab,
   * form feed, carriage return, the separators U+001C to U+001E, and the
   * Unicode next-line, line and paragraph separators.
   */
  predicate IsLineBreak(c: char)
  {
    ('\n' <= c <= '\r') || ('\U{1C}' <= c <= '\U{1E}') || c == '\U{85}' || c == '\U{2028}' || c == '\U{2029}'
  }

  /** Where the first line of `s` ends: at its first line break, or at the end. */
  function LineEnd(s: string): (r: nat)
    ensures r <= |s| && (r < |s| ==> IsLineBreak(s[r]))
    ensures forall i :: 0 <= i < r ==> !IsLineBreak(s[i])
    decreases |s|
  {
    if s == [] || IsLineBreak(s[0]) then 0 else LineEnd(s[1..]) + 1
  }

  /** How many characters the break at `e` takes: two for `\r\n`, otherwise one. */
  function BreakWidth(s: string, e: nat): (w: nat)
    requires e < |s|
    ensures 1 <= w <= 2 && e + w <= |s|
  {
    if s[e] == '\r' && e + 1 < |s| && s[e + 1] == '\n' then 2 else 1
  }

  /**
   * `s.splitlines()`: the text between line breaks, where `\r\n` is one
   * break; a break at the very end does not start another line.
   */
  function SplitLines(s: string): (r: seq<string>)
    ensures r == [] <==> s == []
    ensures forall k, j :: 0 <= k < |r| && 0 <= j < |r[k]| ==> !IsLineBreak(r[k][j])
    decreases |s|
  {
    if s == [] then []
    else
      var e := LineEnd(s);
      [s[..e]] + if e == |s| then [] else SplitLines(s[e + BreakWidth(s, e)..])
  }

  /** A line ended by `\n` is followed by the lines after that break. */
  lemma SplitLinesAtFeed(s: string, e: nat)
    requires e == LineEnd(s) && e < |s| && s[e] == '\n'
    ensures SplitLines(s) == [s[..e]] + SplitLines(s[e + 1..])
  {
    assert BreakWidth(s, e) == 1;
  }

  /** Text with no line break is one line. */
  lemma SplitLinesWhole(s: string, e: nat)
    requires s != [] && e == LineEnd(s) && e == |s|
    ensures SplitLines(s) == [s]
  {
    assert s[..e] == s;
  }

  /** Text whose only line break is `\n` and that does not end in one. */
  predicate FeedsOnly(s: string)
  {
    (forall i :: 0 <= i < |s| && IsLineBreak(s[i]) ==> s[i] == '\n') && (s == [] || s[|s| - 1] != '\n')
  }

  /** What follows a break in such text is again such text, and not empty. */
  lemma FeedsOnlyRest(s: string, e: nat)
    requires FeedsOnly(s) && e < |s| && IsLineBreak(s[e])
    ensures s[e] == '\n' && e + 1 < |s| && FeedsOnly(s[e + 1..])
    ensures s == s[..e] + "\n" + s[e + 1..]
  {
    var rest := s[e + 1..];
    forall i | 0 <= i < |rest| && IsLineBreak(rest[i])
      ensures rest[i] == '\n'
    {
      assert rest[i] == s[e + 1 + i];
    }
  }

  /**
   * Text whose only line break is `\n` and that does not end in one is
   * recovered by joining its lines with `\n`.
   */
  lemma {:induction false} SplitLinesJoin(s: string)
    requires FeedsOnly(s)
    ensures Join("\n", SplitLines(s)) == s
    decreases |s|
  {
    if s != [] {
      var e := LineEnd(s);
      if e == |s| {
        SplitLinesWhole(s, e);
      } else {
        FeedsOnlyRest(s, e);
        var rest := s[e + 1..];
        SplitLinesJoin(rest);
        SplitLinesAtFeed(s, e);
        JoinLine(s, s[..e], rest, SplitLines(rest));
      }
    }
  }

  /** A line, a line feed, and text that its lines join back to. */
  lemma JoinLine(s: string, line: string, rest: string, lines: seq<string>)
    requires lines != [] && Join("\n", lines) == rest && s == line + "\n" + rest
    ensures Join("\n", [line] + lines) == s
  {
    JoinFront("\n", line, lines);
  }
}

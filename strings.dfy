// The handful of Python `str` operations the pipeline relies on, written out
// over `seq<char>`.  Whitespace is Python's; case mapping covers the ASCII
// letters only.

module Strings {

  // ---------------------------------------------------------------- characters

  /**
   * The characters `str.isspace()` accepts, which `str.strip()`,
   * `str.split()` and the regex `\s` treat as whitespace: tab to carriage
   * return, the four separators U+001C to U+001F, the space, and the
   * Unicode spaces and line and paragraph separators.
   */
  predicate IsSpace(c: char)
  {
    ('\t' <= c <= '\r') || ('\U{1C}' <= c <= ' ') || c == '\U{85}' || c == '\U{A0}' || c == '\U{1680}'
    || ('\U{2000}' <= c <= '\U{200A}') || c == '\U{2028}' || c == '\U{2029}' || c == '\U{202F}'
    || c == '\U{205F}' || c == '\U{3000}'
  }

  /** The character class `[ \t]`. */
  predicate IsBlank(c: char) { c == ' ' || c == '\t' }

  predicate IsUpperChar(c: char) { 'A' <= c <= 'Z' }

  predicate IsLowerChar(c: char) { 'a' <= c <= 'z' }

  predicate IsDigit(c: char) { '0' <= c <= '9' }

  /** The regex class `\w`. */
  predicate IsWordChar(c: char) { IsUpperChar(c) || IsLowerChar(c) || IsDigit(c) || c == '_' }

  function LowerChar(c: char): char
  {
    if IsUpperChar(c) then (c as int - 'A' as int + 'a' as int) as char else c
  }

  function UpperChar(c: char): char
  {
    if IsLowerChar(c) then (c as int - 'a' as int + 'A' as int) as char else c
  }

  // ------------------------------------------------------------ case mapping

  /** `s.lower()` */
  function Lower(s: string): (r: string)
    ensures |r| == |s|
    ensures forall i :: 0 <= i < |s| ==> r[i] == LowerChar(s[i])
  {
    seq(|s|, i requires 0 <= i < |s| => LowerChar(s[i]))
  }

  /** `s.upper()` */
  function Upper(s: string): (r: string)
    ensures |r| == |s|
    ensures forall i :: 0 <= i < |s| ==> r[i] == UpperChar(s[i])
  {
    seq(|s|, i requires 0 <= i < |s| => UpperChar(s[i]))
  }

  predicate NoUpper(s: string) { forall i :: 0 <= i < |s| ==> !IsUpperChar(s[i]) }

  lemma LowerHasNoUpper(s: string)
    ensures NoUpper(Lower(s))
  {
  }

  lemma LowerIdempotent(s: string)
    ensures Lower(Lower(s)) == Lower(s)
  {
  }

  /** Lowering a string that has no upper-case letter changes nothing. */
  lemma LowerOfLowered(s: string)
    requires NoUpper(s)
    ensures Lower(s) == s
  {
  }

  lemma LowerAppend(a: string, b: string)
    ensures Lower(a + b) == Lower(a) + Lower(b)
  {
  }

  /** Python's `s.isupper()`: some cased character and none of them lower-case. */
  predicate IsUpperString(s: string)
  {
    (exists i :: 0 <= i < |s| && IsUpperChar(s[i])) && forall i :: 0 <= i < |s| ==> !IsLowerChar(s[i])
  }

  // -------------------------------------------------------------- stripping

  /** `s.lstrip()` */
  function TrimStart(s: string): (r: string)
    ensures |r| <= |s| && r == s[|s| - |r|..]
    ensures r == [] || !IsSpace(r[0])
    ensures forall i :: 0 <= i < |s| - |r| ==> IsSpace(s[i])
    decreases |s|
  {
    if 0 < |s| && IsSpace(s[0]) then TrimStart(s[1..]) else s
  }

  /** `s.rstrip()` */
  function TrimEnd(s: string): (r: string)
    ensures |r| <= |s| && r == s[..|r|]
    ensures r == [] || !IsSpace(r[|r| - 1])
    ensures forall i :: |r| <= i < |s| ==> IsSpace(s[i])
    decreases |s|
  {
    if 0 < |s| && IsSpace(s[|s| - 1]) then TrimEnd(s[..|s| - 1]) else s
  }

  /** `s.strip()` */
  function Strip(s: string): string
  {
    TrimEnd(TrimStart(s))
  }

  /** What `strip` returns: the middle of `s` between two runs of whitespace. */
  lemma StripIsTrimmedMiddle(s: string)
    ensures exists a, b :: 0 <= a <= b <= |s| && Strip(s) == s[a..b]
              && (forall i :: 0 <= i < a ==> IsSpace(s[i]))
              && (forall i :: b <= i < |s| ==> IsSpace(s[i]))
  {
    var t := TrimStart(s);
    TrimmedMiddle(s, t, Strip(s));
    assert SpaceAround(s, Strip(s), |s| - |t|, |s| - |t| + |Strip(s)|);
  }

  /** `r` is `s[a..b]` and `s` has only whitespace before `a` and from `b` on. */
  predicate SpaceAround(s: string, r: string, a: int, b: int)
  {
    0 <= a <= b <= |s| && r == s[a..b]
    && (forall i :: 0 <= i < a ==> IsSpace(s[i]))
    && (forall i :: b <= i < |s| ==> IsSpace(s[i]))
  }

  /** A suffix after leading whitespace, cut before trailing whitespace, is the middle of the string. */
  lemma TrimmedMiddle(s: string, t: string, r: string)
    requires |t| <= |s| && t == s[|s| - |t|..] && (forall i :: 0 <= i < |s| - |t| ==> IsSpace(s[i]))
    requires |r| <= |t| && r == t[..|r|] && (forall i :: |r| <= i < |t| ==> IsSpace(t[i]))
    ensures SpaceAround(s, r, |s| - |t|, |s| - |t| + |r|)
  {
    var a := |s| - |t|;
    var b := a + |r|;
    assert s[a..b] == r;
    forall i | b <= i < |s|
      ensures IsSpace(s[i])
    {
      assert s[i] == t[i - a];
    }
  }

  /** A stripped string neither starts nor ends with whitespace. */
  lemma StripEnds(s: string)
    ensures Strip(s) == [] || (!IsSpace(Strip(s)[0]) && !IsSpace(Strip(s)[|Strip(s)| - 1]))
  {
    var t := TrimStart(s);
    var r := TrimEnd(t);
    if r != [] {
      assert r[0] == t[0];
    }
  }

  /** A string stripped once has nothing left to strip. */
  lemma StripIdempotent(s: string)
    ensures Strip(Strip(s)) == Strip(s)
  {
    StripEnds(s);
    var r := Strip(s);
    if r != [] {
      assert TrimStart(r) == r;
      assert TrimEnd(r) == r;
    }
  }

  lemma TrimStartClean(s: string)
    requires s == [] || !IsSpace(s[0])
    ensures TrimStart(s) == s
  {
  }

  lemma TrimEndClean(s: string)
    requires s == [] || !IsSpace(s[|s| - 1])
    ensures TrimEnd(s) == s
  {
  }

  /** A string with no whitespace at either end is its own strip. */
  lemma StripClean(s: string)
    requires s == [] || (!IsSpace(s[0]) && !IsSpace(s[|s| - 1]))
    ensures Strip(s) == s
  {
    TrimStartClean(s);
    TrimEndClean(s);
  }

  /** A stripped string of an upper-case-free string is upper-case free: it is a slice of it. */
  lemma StripKeepsNoUpper(s: string)
    requires NoUpper(s)
    ensures NoUpper(Strip(s))
  {
    StripIsTrimmedMiddle(s);
  }

  /** The empty-after-strip test the pipeline uses to mean "blank". */
  predicate IsBlankString(s: string) { Strip(s) == [] }

  lemma BlankIffAllSpace(s: string)
    ensures IsBlankString(s) <==> forall i :: 0 <= i < |s| ==> IsSpace(s[i])
  {
    if forall i :: 0 <= i < |s| ==> IsSpace(s[i]) {
      AllSpaceTrimsAway(s);
    }
  }

  lemma {:induction false} AllSpaceTrimsAway(s: string)
    requires forall i :: 0 <= i < |s| ==> IsSpace(s[i])
    ensures TrimStart(s) == []
    decreases |s|
  {
    if 0 < |s| {
      AllSpaceTrimsAway(s[1..]);
    }
  }

  // ------------------------------------------------------- prefixes and search

  predicate StartsWith(s: string, p: string) { |p| <= |s| && s[..|p|] == p }

  predicate EndsWith(s: string, p: string) { |p| <= |s| && s[|s| - |p|..] == p }

  /** A string that starts with a prefix of `c` starts with every shorter prefix of `c`. */
  lemma StartsWithShorter(s: string, c: string, e: nat, f: nat)
    requires e <= f <= |c| && StartsWith(s, c[..f])
    ensures StartsWith(s, c[..e])
  {
    assert s[..e] == s[..f][..e];
    assert c[..f][..e] == c[..e];
  }

  /** Text added at the end keeps a prefix. */
  lemma StartsWithExtend(s: string, p: string, a: string)
    requires StartsWith(s, p)
    ensures StartsWith(s + a, p)
  {
    assert (s + a)[..|p|] == s[..|p|];
  }

  /** `p` occurs in `s` at position `i`. */
  predicate OccursAt(s: string, p: string, i: int)
  {
    0 <= i && i + |p| <= |s| && s[i..i + |p|] == p
  }

  /** `s.find(p, from)`: the first occurrence at or after `from`, or -1. */
  function IndexFrom(s: string, p: string, from: nat): (r: int)
    requires from <= |s|
    ensures r == -1 || (from <= r && OccursAt(s, p, r))
    ensures r == -1 ==> forall i :: from <= i ==> !OccursAt(s, p, i)
    ensures r != -1 ==> forall i :: from <= i < r ==> !OccursAt(s, p, i)
    decreases |s| - from
  {
    if |s| < from + |p| then -1
    else if s[from..from + |p|] == p then from
    else IndexFrom(s, p, from + 1)
  }

  /** `s.find(p)` */
  function IndexOf(s: string, p: string): int
  {
    IndexFrom(s, p, 0)
  }

  /** `p in s` */
  predicate Contains(s: string, p: string)
  {
    IndexOf(s, p) != -1
  }

  lemma ContainsAt(s: string, p: string, i: int)
    requires OccursAt(s, p, i)
    ensures Contains(s, p)
  {
  }

  lemma ContainsWitness(s: string, p: string)
    requires Contains(s, p)
    ensures OccursAt(s, p, IndexOf(s, p))
  {
  }

  /** A text without the first character of a pattern does not contain the pattern. */
  lemma MissingHead(s: string, p: string)
    requires 0 < |p| && p[0] !in s
    ensures !Contains(s, p)
  {
    forall i | 0 <= i
      ensures !OccursAt(s, p, i)
    {
      if i + |p| <= |s| {
        assert s[i..i + |p|][0] == s[i];
      }
    }
  }

  /** An occurrence in a part is an occurrence in the whole. */
  lemma ContainsInSlice(s: string, p: string, lo: nat, hi: nat)
    requires lo <= hi <= |s| && Contains(s[lo..hi], p)
    ensures Contains(s, p)
  {
    var t := s[lo..hi];
    var i := IndexOf(t, p);
    assert OccursAt(t, p, i);
    forall j | 0 <= j < |p|
      ensures s[lo + i + j] == p[j]
    {
      assert t[i..i + |p|][j] == t[i + j];
    }
    assert s[lo + i..lo + i + |p|] == p;
    ContainsAt(s, p, lo + i);
  }

  /** What is left after a leading run of line feeds: the text without them. */
  function DropNewlines(s: string): (r: string)
    ensures |r| <= |s| && r == s[|s| - |r|..]
    ensures r == [] || r[0] != '\n'
    ensures forall i :: 0 <= i < |s| - |r| ==> s[i] == '\n'
    decreases |s|
  {
    if s != [] && s[0] == '\n' then DropNewlines(s[1..]) else s
  }

  /** `s.find(c)` for one character. */
  function IndexOfChar(s: string, c: char): (r: int)
    ensures r == -1 || (0 <= r < |s| && s[r] == c)
    ensures r == -1 ==> forall i :: 0 <= i < |s| ==> s[i] != c
    ensures r != -1 ==> forall i :: 0 <= i < r ==> s[i] != c
    decreases |s|
  {
    if |s| == 0 then -1
    else if s[0] == c then 0
    else var k := IndexOfChar(s[1..], c); if k == -1 then -1 else k + 1
  }

  // ---------------------------------------------------------------- rewriting

  /** `s.replace(pat, rep)`: every occurrence, left to right, without overlap. */
  function ReplaceAll(s: string, pat: string, rep: string): string
    requires 0 < |pat|
    decreases |s|
  {
    if |s| < |pat| then s
    else if s[..|pat|] == pat then rep + ReplaceAll(s[|pat|..], pat, rep)
    else [s[0]] + ReplaceAll(s[1..], pat, rep)
  }

  /** Replacing a pattern that never occurs leaves the string as it was. */
  lemma {:induction false} ReplaceAbsent(s: string, pat: string, rep: string)
    requires 0 < |pat| && !Contains(s, pat)
    ensures ReplaceAll(s, pat, rep) == s
    decreases |s|
  {
    if |pat| <= |s| {
      assert !OccursAt(s, pat, 0);
      if Contains(s[1..], pat) {
        assert s[1..|s|] == s[1..];
        ContainsInSlice(s, pat, 1, |s|);
        assert false;
      }
      ReplaceAbsent(s[1..], pat, rep);
    }
  }

  /** A double quote inside a YAML double-quoted value: every quote has a backslash before it. */
  predicate QuotesEscaped(r: string)
  {
    forall i :: 0 <= i < |r| && r[i] == '"' ==> 0 < i && r[i - 1] == '\\'
  }

  /** `s.replace('"', '\\"')` */
  function EscapeQuotes(s: string): string
  {
    ReplaceAll(s, "\"", "\\\"")
  }

  /** After escaping, no double quote is left bare. */
  lemma {:induction false} EscapeQuotesSpec(s: string)
    ensures QuotesEscaped(EscapeQuotes(s))
    decreases |s|
  {
    if s != [] {
      EscapeQuotesSpec(s[1..]);
      var rest := EscapeQuotes(s[1..]);
      if s[..1] == "\"" {
        assert EscapeQuotes(s) == "\\\"" + rest;
      } else {
        assert EscapeQuotes(s) == [s[0]] + rest;
        assert s[0] != '"';
      }
    }
  }

  /** Escaping only adds backslashes. */
  lemma {:induction false} EscapeKeepsText(s: string)
    ensures RemoveChar(EscapeQuotes(s), '\\') == RemoveChar(s, '\\')
    decreases |s|
  {
    if s != [] {
      EscapeKeepsText(s[1..]);
      if s[..1] == "\"" {
        assert EscapeQuotes(s) == "\\\"" + EscapeQuotes(s[1..]);
        assert s[0] == '"';
        var r := EscapeQuotes(s);
        assert r[1..] == "\"" + EscapeQuotes(s[1..]);
        assert r[1..][1..] == EscapeQuotes(s[1..]);
      } else {
        assert EscapeQuotes(s) == [s[0]] + EscapeQuotes(s[1..]);
      }
    }
  }

  /** Replacing a character by text without it leaves none of it behind. */
  lemma {:induction false} ReplaceCharGone(s: string, c: char, rep: string)
    requires c !in rep
    ensures c !in ReplaceAll(s, [c], rep)
    decreases |s|
  {
    if s != [] {
      ReplaceCharGone(s[1..], c, rep);
      if s[..1] == [c] {
        assert ReplaceAll(s, [c], rep) == rep + ReplaceAll(s[1..], [c], rep);
      } else {
        assert ReplaceAll(s, [c], rep) == [s[0]] + ReplaceAll(s[1..], [c], rep);
        assert s[0] != c;
      }
    }
  }

  /** Replacing a character that does not occur changes nothing. */
  lemma {:induction false} ReplaceCharAbsent(s: string, c: char, rep: string)
    requires c !in s
    ensures ReplaceAll(s, [c], rep) == s
    decreases |s|
  {
    if s != [] {
      ReplaceCharAbsent(s[1..], c, rep);
      assert s[..1] != [c] by {
        assert s[..1][0] == s[0];
      }
    }
  }

  /** A prefix without the pattern's first character passes through a replacement untouched. */
  lemma {:induction false} ReplaceSkipsPrefix(s: string, t: string, pat: string, rep: string)
    requires 0 < |pat| && pat[0] !in s
    ensures ReplaceAll(s + t, pat, rep) == s + ReplaceAll(t, pat, rep)
    decreases |s|
  {
    if s == [] {
      assert s + t == t;
    } else {
      var u := s + t;
      assert u[0] == s[0] && u[1..] == s[1..] + t;
      if |pat| <= |u| {
        assert u[..|pat|][0] == s[0];
      }
      ReplaceSkipsPrefix(s[1..], t, pat, rep);
      assert [s[0]] + (s[1..] + ReplaceAll(t, pat, rep)) == s + ReplaceAll(t, pat, rep);
    }
  }

  /** A text that starts with the pattern loses it to the replacement. */
  lemma ReplaceAtStart(pat: string, t: string, rep: string)
    requires 0 < |pat|
    ensures ReplaceAll(pat + t, pat, rep) == rep + ReplaceAll(t, pat, rep)
  {
    assert (pat + t)[..|pat|] == pat;
    assert (pat + t)[|pat|..] == t;
  }

  /** Replacing with a text free of upper-case letters keeps a string free of them. */
  lemma {:induction false} ReplaceKeepsNoUpper(s: string, pat: string, rep: string)
    requires 0 < |pat| && NoUpper(s) && NoUpper(rep)
    ensures NoUpper(ReplaceAll(s, pat, rep))
    decreases |s|
  {
    if |pat| <= |s| {
      if s[..|pat|] == pat {
        ReplaceKeepsNoUpper(s[|pat|..], pat, rep);
      } else {
        ReplaceKeepsNoUpper(s[1..], pat, rep);
      }
    }
  }

  /**
   * With a non-empty replacement the result is empty exactly when the input is, and it starts
   * with the input's first character or, when the input starts with the pattern, the replacement's.
   */
  lemma ReplaceFirst(s: string, pat: string, rep: string)
    requires 0 < |pat| && 0 < |rep|
    ensures ReplaceAll(s, pat, rep) == [] <==> s == []
    ensures s != [] ==> ReplaceAll(s, pat, rep)[0] == (if StartsWith(s, pat) then rep[0] else s[0])
  {
  }

  /** When the pattern and its replacement end in the same character, the last character is kept. */
  lemma {:induction false} ReplaceKeepsLast(s: string, pat: string, rep: string)
    requires 0 < |pat| && 0 < |rep| && pat[|pat| - 1] == rep[|rep| - 1] && s != []
    ensures ReplaceAll(s, pat, rep) != []
    ensures ReplaceAll(s, pat, rep)[|ReplaceAll(s, pat, rep)| - 1] == s[|s| - 1]
    decreases |s|
  {
    ReplaceFirst(s, pat, rep);
    if |pat| <= |s| {
      if s[..|pat|] == pat {
        if |pat| < |s| {
          ReplaceKeepsLast(s[|pat|..], pat, rep);
        }
      } else if 1 < |s| {
        ReplaceKeepsLast(s[1..], pat, rep);
      }
    }
  }

  /** `s.replace(c, "")` for one character. */
  function RemoveChar(s: string, c: char): (r: string)
    ensures |r| <= |s|
    ensures forall i :: 0 <= i < |r| ==> r[i] != c
    ensures (forall i :: 0 <= i < |s| ==> s[i] != c) ==> r == s
    decreases |s|
  {
    if |s| == 0 then []
    else if s[0] == c then RemoveChar(s[1..], c)
    else [s[0]] + RemoveChar(s[1..], c)
  }

  lemma {:induction false} RemoveCharKeepsNoUpper(s: string, c: char)
    requires NoUpper(s)
    ensures NoUpper(RemoveChar(s, c))
    decreases |s|
  {
    if |s| > 0 {
      RemoveCharKeepsNoUpper(s[1..], c);
    }
  }

  // ------------------------------------------------------- joining, splitting

  /** `sep.join(parts)` */
  function Join(sep: string, parts: seq<string>): string
    decreases |parts|
  {
    if |parts| == 0 then []
    else if |parts| == 1 then parts[0]
    else parts[0] + sep + Join(sep, parts[1..])
  }

  lemma {:induction false} JoinAppend(sep: string, parts: seq<string>, last: string)
    requires 0 < |parts|
    ensures Join(sep, parts + [last]) == Join(sep, parts) + sep + last
    decreases |parts|
  {
    if |parts| == 1 {
      assert parts + [last] == [parts[0], last];
    } else {
      assert (parts + [last])[1..] == parts[1..] + [last];
      JoinAppend(sep, parts[1..], last);
    }
  }

  /** A character in neither the separator nor any part is not in the joined text. */
  lemma {:induction false} JoinAvoids(sep: string, parts: seq<string>, c: char)
    requires c !in sep && forall k :: 0 <= k < |parts| ==> c !in parts[k]
    ensures c !in Join(sep, parts)
    decreases |parts|
  {
    if |parts| > 1 {
      JoinAvoids(sep, parts[1..], c);
      assert parts[1..][0] == parts[1];
    }
  }

  /** `s.split(c)` for one separator character. */
  function Split(s: string, c: char): (r: seq<string>)
    ensures 0 < |r|
    decreases |s|
  {
    var i := IndexOfChar(s, c);
    if i == -1 then [s] else [s[..i]] + Split(s[i + 1..], c)
  }

  /** Splitting and re-joining with the same separator is the identity; no piece holds the separator. */
  lemma {:induction false} SplitJoin(s: string, c: char)
    ensures Join([c], Split(s, c)) == s
    ensures forall k, j :: 0 <= k < |Split(s, c)| && 0 <= j < |Split(s, c)[k]| ==> Split(s, c)[k][j] != c
    decreases |s|
  {
    var i := IndexOfChar(s, c);
    if i != -1 {
      var rest := Split(s[i + 1..], c);
      SplitJoin(s[i + 1..], c);
      assert Split(s, c) == [s[..i]] + rest;
      assert s == s[..i] + [c] + s[i + 1..];
      forall k, j | 0 <= k < |Split(s, c)| && 0 <= j < |Split(s, c)[k]|
        ensures Split(s, c)[k][j] != c
      {
        if k > 0 {
          assert Split(s, c)[k] == rest[k - 1];
        }
      }
    }
  }

  /** Joining a part ahead of a non-empty list puts the separator after it. */
  lemma JoinFront(sep: string, first: string, parts: seq<string>)
    requires parts != []
    ensures Join(sep, [first] + parts) == first + sep + Join(sep, parts)
  {
    assert ([first] + parts)[1..] == parts;
  }

  // ------------------------------------------------------------------ paths

  /** `s.rfind(c)` */
  function LastIndexOfChar(s: string, c: char): (r: int)
    ensures r == -1 || (0 <= r < |s| && s[r] == c)
    ensures r == -1 ==> forall i :: 0 <= i < |s| ==> s[i] != c
    ensures r != -1 ==> forall i :: r < i < |s| ==> s[i] != c
    decreases |s|
  {
    if |s| == 0 then -1
    else if s[|s| - 1] == c then |s| - 1
    else LastIndexOfChar(s[..|s| - 1], c)
  }

  /** `PurePath(name).stem`: the name without its last suffix; a leading or trailing dot is no suffix. */
  function Stem(name: string): (r: string)
    ensures StartsWith(name, r)
  {
    var i := LastIndexOfChar(name, '.');
    if 0 < i < |name| - 1 then name[..i] else name
  }

  /** `PurePath(name).suffix` */
  function Suffix(name: string): (r: string)
    ensures Stem(name) + r == name
  {
    var i := LastIndexOfChar(name, '.');
    if 0 < i < |name| - 1 then name[i..] else []
  }

  // ----------------------------------------------------------------- words

  /** `len(s.split())`: the number of maximal runs of non-whitespace. */
  function WordCount(s: string): nat
    decreases |s|
  {
    if |s| == 0 then 0
    else if IsSpace(s[0]) then WordCount(s[1..])
    else if |s| == 1 || IsSpace(s[1]) then 1 + WordCount(s[1..])
    else WordCount(s[1..])
  }

  // --------------------------------------------------------------- numerals

  function DigitChar(d: nat): char
    requires d < 10
  {
    ('0' as int + d) as char
  }

  /** `str(n)` for a natural number. */
  function NatToString(n: nat): (r: string)
    ensures 0 < |r|
    ensures forall i :: 0 <= i < |r| ==> IsDigit(r[i])
  {
    if n < 10 then [DigitChar(n)] else NatToString(n / 10) + [DigitChar(n % 10)]
  }

  /** `int(s)` for a string of decimal digits. */
  function ParseDecimal(s: string): nat
    requires forall i :: 0 <= i < |s| ==> IsDigit(s[i])
  {
    if |s| == 0 then 0
    else assert IsDigit(s[|s| - 1]); 10 * ParseDecimal(s[..|s| - 1]) + (s[|s| - 1] as int - '0' as int)
  }

  lemma {:induction false} ParseNatToString(n: nat)
    ensures ParseDecimal(NatToString(n)) == n
  {
    if 10 <= n {
      var s := NatToString(n);
      assert s[..|s| - 1] == NatToString(n / 10);
      ParseNatToString(n / 10);
    }
  }

  /** Different numbers print differently. */
  lemma NatToStringInjective(m: nat, n: nat)
    requires m != n
    ensures NatToString(m) != NatToString(n)
  {
    ParseNatToString(m);
    ParseNatToString(n);
  }
}

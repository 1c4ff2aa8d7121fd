// Python's `sorted` on strings (lexicographic order on code points) and the sorted
// directory listings the scripts iterate over.

module Sorting {
  import opened Strings

  /** `a <= b` for Python strings. */
  predicate LexLessEq(a: string, b: string)
    decreases |a|
  {
    |a| == 0 || (|b| != 0 && (a[0] < b[0] || (a[0] == b[0] && LexLessEq(a[1..], b[1..]))))
  }

  lemma {:induction false} LexTotal(a: string, b: string)
    ensures LexLessEq(a, b) || LexLessEq(b, a)
    decreases |a|
  {
    if |a| != 0 && |b| != 0 && a[0] == b[0] {
      LexTotal(a[1..], b[1..]);
    }
  }

  lemma {:induction false} LexTransitive(a: string, b: string, c: string)
    requires LexLessEq(a, b) && LexLessEq(b, c)
    ensures LexLessEq(a, c)
    decreases |a|
  {
    if |a| != 0 && a[0] == b[0] && b[0] == c[0] {
      LexTransitive(a[1..], b[1..], c[1..]);
    }
  }

  predicate Sorted(xs: seq<string>)
  {
    forall i, j :: 0 <= i < j < |xs| ==> LexLessEq(xs[i], xs[j])
  }

  /** An element no greater than every element of a sorted list can go in front of it. */
  lemma SortedCons(x: string, xs: seq<string>)
    requires Sorted(xs) && forall y :: y in multiset(xs) ==> LexLessEq(x, y)
    ensures Sorted([x] + xs)
  {
    forall i, j | 0 <= i < j < |[x] + xs|
      ensures LexLessEq(([x] + xs)[i], ([x] + xs)[j])
    {
      if i == 0 {
        assert xs[j - 1] in multiset(xs);
      }
    }
  }

  /** A string below the head of a sorted list is below all of it. */
  lemma BelowHead(x: string, xs: seq<string>)
    requires Sorted(xs) && |xs| != 0 && LexLessEq(x, xs[0])
    ensures forall y :: y in multiset(xs) ==> LexLessEq(x, y)
  {
    forall y | y in multiset(xs) ensures LexLessEq(x, y) {
      var j :| 0 <= j < |xs| && xs[j] == y;
      if j > 0 { LexTransitive(x, xs[0], xs[j]); }
    }
  }

  /** The head of a sorted list is below `x` and the rest of the list. */
  lemma HeadBelow(xs: seq<string>, x: string, rest: seq<string>)
    requires Sorted(xs) && |xs| != 0 && LexLessEq(xs[0], x)
    requires multiset(rest) == multiset(xs[1..]) + multiset{x}
    ensures forall y :: y in multiset(rest) ==> LexLessEq(xs[0], y)
  {
    forall y | y in multiset(rest) ensures LexLessEq(xs[0], y) {
      if y != x {
        assert y in multiset(xs[1..]);
        var j :| 0 <= j < |xs[1..]| && xs[1..][j] == y;
        assert xs[j + 1] == y;
      }
    }
  }

  function Insert(x: string, xs: seq<string>): (r: seq<string>)
    requires Sorted(xs)
    ensures Sorted(r) && multiset(r) == multiset(xs) + multiset{x}
    ensures |r| == |xs| + 1
  {
    if |xs| == 0 then [x]
    else if LexLessEq(x, xs[0]) then
      BelowHead(x, xs);
      SortedCons(x, xs);
      [x] + xs
    else
      LexTotal(x, xs[0]);
      var rest := Insert(x, xs[1..]);
      HeadBelow(xs, x, rest);
      SortedCons(xs[0], rest);
      assert xs == [xs[0]] + xs[1..];
      [xs[0]] + rest
  }

  /** `sorted(xs)`, by insertion. */
  function Sort(xs: seq<string>): (r: seq<string>)
    ensures Sorted(r) && multiset(r) == multiset(xs)
    ensures |r| == |xs|
    decreases |xs|
  {
    if |xs| == 0 then []
    else
      assert xs == xs[..|xs| - 1] + [xs[|xs| - 1]];
      Insert(xs[|xs| - 1], Sort(xs[..|xs| - 1]))
  }

  /** The names of a listing that end with `suffix`, in listing order. */
  function WithSuffix(names: seq<string>, suffix: string): (r: seq<string>)
    ensures |r| <= |names|
    ensures forall x :: x in r <==> x in names && EndsWith(x, suffix)
    decreases |names|
  {
    if |names| == 0 then []
    else
      var prev := WithSuffix(names[..|names| - 1], suffix);
      assert forall x :: x in names <==> x in names[..|names| - 1] || x == names[|names| - 1];
      if EndsWith(names[|names| - 1], suffix) then prev + [names[|names| - 1]] else prev
  }

  /** `sorted(directory.glob("*" + suffix))`, given the names in the directory. */
  function Glob(names: seq<string>, suffix: string): seq<string>
  {
    Sort(WithSuffix(names, suffix))
  }

  /** The listing is sorted and holds exactly the names with the suffix. */
  lemma GlobSpec(names: seq<string>, suffix: string)
    ensures Sorted(Glob(names, suffix))
    ensures forall x :: x in Glob(names, suffix) <==> x in names && EndsWith(x, suffix)
  {
    var w := WithSuffix(names, suffix);
    assert forall x :: x in Glob(names, suffix) <==> x in multiset(w);
  }
}

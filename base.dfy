// Small value types shared by every module of the model.

module Base {

  datatype Option<+T> = None | Some(value: T)

  /** `d.get(key, fallback)` on a field that is `None` when the key is missing. */
  function GetOr<T>(o: Option<T>, fallback: T): T { if o.Some? then o.value else fallback }

  function Min(a: int, b: int): int { if a <= b then a else b }

  function Max(a: int, b: int): int { if a >= b then a else b }

  /** Python's `xs[:n]`: a negative `n` counts from the end. */
  function SliceTo<T>(xs: seq<T>, n: int): (r: seq<T>)
    ensures |r| <= |xs| && r == xs[..|r|]
    ensures 0 <= n ==> |r| == Min(n, |xs|)
    ensures n < 0 ==> |r| == Max(|xs| + n, 0)
  {
    if 0 <= n then (if n < |xs| then xs[..n] else xs)
    else if -n < |xs| then xs[..|xs| + n] else []
  }

  /** The scripts' `if limit: files = files[:limit]`; `None` and `0` are falsy. */
  function ApplyLimit<T>(xs: seq<T>, limit: Option<int>): (r: seq<T>)
    ensures |r| <= |xs| && r == xs[..|r|]
    ensures limit == None || limit == Some(0) ==> r == xs
    ensures limit.Some? && 0 < limit.value ==> |r| == Min(limit.value, |xs|)
  {
    if limit.Some? && limit.value != 0 then SliceTo(xs, limit.value) else xs
  }

  /** Sum of a sequence of naturals, summed from the left as a Python loop does. */
  function Sum(xs: seq<nat>): nat
  {
    if |xs| == 0 then 0 else Sum(xs[..|xs| - 1]) + xs[|xs| - 1]
  }

  /** No element occurs twice. */
  predicate NoDuplicates<T(==)>(xs: seq<T>)
  {
    forall i, j :: 0 <= i < j < |xs| ==> xs[i] != xs[j]
  }

  /** The elements of `xs` in order of first occurrence, each once. */
  function Dedup<T(==,!new)>(xs: seq<T>): (r: seq<T>)
    ensures NoDuplicates(r) && |r| <= |xs|
    ensures forall x :: x in r <==> x in xs
    decreases |xs|
  {
    if |xs| == 0 then []
    else
      var d := Dedup(xs[..|xs| - 1]);
      assert forall x :: x in xs ==> x in xs[..|xs| - 1] || x == xs[|xs| - 1];
      if xs[|xs| - 1] in d then d else d + [xs[|xs| - 1]]
  }

  /** A sequence without duplicates is its own deduplication. */
  lemma {:induction false} DedupOfDistinct<T(!new)>(xs: seq<T>)
    requires NoDuplicates(xs)
    ensures Dedup(xs) == xs
    decreases |xs|
  {
    if |xs| != 0 {
      DedupOfDistinct(xs[..|xs| - 1]);
    }
  }
  /** `if x not in xs: xs.append(x)` */
  function AppendAbsent<T(==)>(xs: seq<T>, x: T): seq<T>
  {
    if x in xs then xs else xs + [x]
  }

  /** Appending only what is absent keeps a list free of duplicates, and the element is then present. */
  lemma AppendAbsentSpec<T>(xs: seq<T>, x: T)
    requires NoDuplicates(xs)
    ensures NoDuplicates(AppendAbsent(xs, x))
    ensures forall y :: y in AppendAbsent(xs, x) <==> y in xs || y == x
  {
    if x !in xs {
      var r := xs + [x];
      forall i, j | 0 <= i < j < |r|
        ensures r[i] != r[j]
      {
        if j == |xs| {
          assert r[i] == xs[i];
        }
      }
    }
  }

  /** Where the first element that satisfies `p` sits, if any. */
  function FirstSatisfying<T>(xs: seq<T>, p: T -> bool): (r: Option<nat>)
    ensures r.Some? ==> r.value < |xs| && p(xs[r.value]) && forall k :: 0 <= k < r.value ==> !p(xs[k])
    ensures r.None? ==> forall k :: 0 <= k < |xs| ==> !p(xs[k])
    decreases |xs|
  {
    if xs == [] then None
    else if p(xs[0]) then Some(0)
    else
      var rest := FirstSatisfying(xs[1..], p);
      assert forall k :: 1 <= k < |xs| ==> xs[k] == xs[1..][k - 1];
      if rest.Some? then Some(rest.value + 1) else None
  }

  /** Scanning one more element: the first match stays, or is the new element, or there is still none. */
  lemma FirstSatisfyingNext<T>(xs: seq<T>, i: nat, p: T -> bool)
    requires i < |xs| && FirstSatisfying(xs[..i], p) == None
    ensures FirstSatisfying(xs[..i + 1], p) == if p(xs[i]) then Some(i) else None
  {
    var r := FirstSatisfying(xs[..i + 1], p);
    assert forall k :: 0 <= k < i ==> xs[..i + 1][k] == xs[..i][k];
    assert xs[..i + 1][i] == xs[i];
  }

  /** A match that is first in a prefix is first in the whole sequence. */
  lemma FirstSatisfyingPrefix<T>(xs: seq<T>, i: nat, p: T -> bool)
    requires i < |xs| && FirstSatisfying(xs[..i + 1], p) == Some(i)
    ensures FirstSatisfying(xs, p) == Some(i)
  {
    var pre := xs[..i + 1];
    assert p(xs[i]) by { assert pre[i] == xs[i]; }
    forall k | 0 <= k < i
      ensures !p(xs[k])
    {
      assert pre[k] == xs[k];
    }
    var r := FirstSatisfying(xs, p);
    assert r.Some?;
    assert !(r.value < i);
    assert !(r.value > i);
  }

  /** One more element keeps a sequence free of duplicates exactly when it is new. */
  lemma NoDuplicatesSnoc<T>(xs: seq<T>, x: T)
    ensures NoDuplicates(xs + [x]) <==> NoDuplicates(xs) && x !in xs
  {
    var r := xs + [x];
    assert forall i :: 0 <= i < |xs| ==> r[i] == xs[i];
    if NoDuplicates(xs) && x !in xs {
      forall i, j | 0 <= i < j < |r|
        ensures r[i] != r[j]
      {
        if j == |xs| {
          assert r[i] == xs[i];
        }
      }
    }
    if NoDuplicates(r) {
      forall i | 0 <= i < |xs|
        ensures xs[i] != x
      {
        assert r[i] == xs[i] && r[|xs|] == x;
      }
    }
  }

  /** `xs.index(x)`: where `x` first occurs. */
  function FirstIndex<T(==)>(xs: seq<T>, x: T): (k: nat)
    requires x in xs
    ensures k < |xs| && xs[k] == x && x !in xs[..k]
  {
    if xs[0] == x then 0
    else
      assert xs == [xs[0]] + xs[1..];
      var k := 1 + FirstIndex(xs[1..], x);
      assert xs[..k] == [xs[0]] + xs[1..][..k - 1];
      k
  }

  /** A longer sequence does not move the first occurrence of an element already present. */
  lemma FirstIndexOfPrefix<T>(xs: seq<T>, ys: seq<T>, x: T)
    requires x in xs
    ensures FirstIndex(xs + ys, x) == FirstIndex(xs, x)
  {
    var k := FirstIndex(xs, x);
    var m := FirstIndex(xs + ys, x);
    assert (xs + ys)[..k] == xs[..k];
    assert (xs + ys)[k] == x;
  }

  /** The kept elements appear in the order of their first occurrence. */
  lemma {:induction false} DedupFirstOrder<T(!new)>(xs: seq<T>)
    ensures forall i, j :: 0 <= i < j < |Dedup(xs)| ==> FirstIndex(xs, Dedup(xs)[i]) < FirstIndex(xs, Dedup(xs)[j])
    decreases |xs|
  {
    if |xs| != 0 {
      var init := xs[..|xs| - 1];
      var last := xs[|xs| - 1];
      assert xs == init + [last];
      DedupFirstOrder(init);
      var d := Dedup(init);
      var r := Dedup(xs);
      forall i, j | 0 <= i < j < |r|
        ensures FirstIndex(xs, r[i]) < FirstIndex(xs, r[j])
      {
        assert r[i] == d[i];
        FirstIndexOfPrefix(init, [last], r[i]);
        if j < |d| {
          assert r[j] == d[j];
          FirstIndexOfPrefix(init, [last], r[j]);
        } else {
          assert r[j] == last && last !in init;
        }
      }
    }
  }

  /** In a sequence without duplicates every element occurs once. */
  lemma {:induction false} DistinctOnce<T>(xs: seq<T>)
    requires NoDuplicates(xs)
    ensures forall x :: multiset(xs)[x] <= 1
    decreases |xs|
  {
    if |xs| != 0 {
      var init := xs[..|xs| - 1];
      DistinctOnce(init);
      assert xs == init + [xs[|xs| - 1]];
      assert xs[|xs| - 1] !in init;
    }
  }

  /** A rearrangement of a sequence without duplicates has none either. */
  lemma DistinctPermutation<T>(xs: seq<T>, ys: seq<T>)
    requires NoDuplicates(xs) && multiset(xs) == multiset(ys)
    ensures NoDuplicates(ys)
  {
    DistinctOnce(xs);
    forall i, j | 0 <= i < j < |ys|
      ensures ys[i] != ys[j]
    {
      var y := ys[j];
      assert ys == ys[..j] + [y] + ys[j + 1..];
      assert multiset(ys)[y] == multiset(ys[..j])[y] + 1 + multiset(ys[j + 1..])[y];
      assert ys[..j][i] == ys[i];
      assert multiset(ys[..j])[ys[i]] >= 1;
    }
  }

  /** `[x for x in xs if keep(x)]`. */
  function Filter<T>(xs: seq<T>, keep: T -> bool): seq<T>
    decreases |xs|
  {
    if |xs| == 0 then []
    else Filter(xs[..|xs| - 1], keep) + if keep(xs[|xs| - 1]) then [xs[|xs| - 1]] else []
  }

  /** `[f(x) for x in xs]`. */
  function Map<T, U>(xs: seq<T>, f: T -> U): (r: seq<U>)
    ensures |r| == |xs| && forall k :: 0 <= k < |xs| ==> r[k] == f(xs[k])
    decreases |xs|
  {
    if |xs| == 0 then [] else Map(xs[..|xs| - 1], f) + [f(xs[|xs| - 1])]
  }

  /** The lists of `xss`, one after the other. */
  function Concat<T>(xss: seq<seq<T>>): seq<T>
    decreases |xss|
  {
    if |xss| == 0 then [] else Concat(xss[..|xss| - 1]) + xss[|xss| - 1]
  }

  /** Filtering, mapping and concatenating one more element. */
  lemma FilterMapNext<T, U>(xs: seq<T>, i: nat, keep: T -> bool, f: T -> U)
    requires i < |xs|
    ensures Filter(xs[..i + 1], keep) == Filter(xs[..i], keep) + if keep(xs[i]) then [xs[i]] else []
    ensures Map(Filter(xs[..i + 1], keep), f) == Map(Filter(xs[..i], keep), f) + if keep(xs[i]) then [f(xs[i])] else []
  {
    assert xs[..i + 1][..i] == xs[..i];
    var before := Filter(xs[..i], keep);
    if keep(xs[i]) {
      assert (before + [xs[i]])[..|before|] == before;
    }
  }

  lemma ConcatNext<T>(xss: seq<seq<T>>, xs: seq<T>)
    ensures Concat(xss + [xs]) == Concat(xss) + xs
  {
    assert (xss + [xs])[..|xss|] == xss;
  }

  /** Mapping and concatenating one more element. */
  lemma ConcatMapNext<T, U>(xs: seq<T>, i: nat, f: T -> seq<U>)
    requires i < |xs|
    ensures Concat(Map(xs[..i + 1], f)) == Concat(Map(xs[..i], f)) + f(xs[i])
  {
    assert xs[..i + 1][..i] == xs[..i];
    ConcatNext(Map(xs[..i], f), f(xs[i]));
  }

  /** Every element of every part is in the concatenation. */
  lemma {:induction false} ConcatMember<T>(xss: seq<seq<T>>, k: nat, j: nat)
    requires k < |xss| && j < |xss[k]|
    ensures xss[k][j] in Concat(xss)
    decreases |xss|
  {
    var n := |xss| - 1;
    if k < n {
      ConcatMember(xss[..n], k, j);
      assert xss[..n][k] == xss[k];
    } else {
      var c := Concat(xss[..n]);
      assert (c + xss[n])[|c| + j] == xss[n][j];
    }
  }

  /** A concatenation is at least as long as each of its parts. */
  lemma {:induction false} ConcatCovers<T>(xss: seq<seq<T>>, k: nat)
    requires k < |xss|
    ensures |xss[k]| <= |Concat(xss)|
    decreases |xss|
  {
    if k < |xss| - 1 {
      ConcatCovers(xss[..|xss| - 1], k);
    }
  }

  /** A filter keeps exactly the elements that pass, and never more of them than there are. */
  lemma {:induction false} FilterSpec<T>(xs: seq<T>, keep: T -> bool)
    ensures forall x :: x in Filter(xs, keep) <==> x in xs && keep(x)
    ensures |Filter(xs, keep)| <= |xs|
    decreases |xs|
  {
    if |xs| != 0 {
      FilterSpec(xs[..|xs| - 1], keep);
      assert xs == xs[..|xs| - 1] + [xs[|xs| - 1]];
    }
  }

  lemma AppendAssoc<T>(a: seq<T>, b: seq<T>, c: seq<T>)
    ensures a + b + c == a + (b + c)
  {
  }

  /** Cutting `[a, b)` out of a sequence whose first part holds the cut. */
  lemma CutInPrefix<T>(p: seq<T>, t: seq<T>, a: nat, b: nat)
    requires a <= b <= |p|
    ensures (p + t)[..a] + (p + t)[b..] == p[..a] + (p[b..] + t)
  {
    assert (p + t)[..a] == p[..a];
    assert (p + t)[b..] == p[b..] + t;
  }

  /** Filtering distributes over concatenation. */
  lemma {:induction false} FilterAppend<T>(xs: seq<T>, ys: seq<T>, keep: T -> bool)
    ensures Filter(xs + ys, keep) == Filter(xs, keep) + Filter(ys, keep)
    decreases |ys|
  {
    if |ys| > 0 {
      var init := ys[..|ys| - 1];
      var last := ys[|ys| - 1];
      FilterAppend(xs, init, keep);
      assert (xs + ys)[..|xs + ys| - 1] == xs + init;
      assert (xs + ys)[|xs + ys| - 1] == last;
      var tail := if keep(last) then [last] else [];
      assert Filter(xs + ys, keep) == Filter(xs + init, keep) + tail;
      assert Filter(ys, keep) == Filter(init, keep) + tail;
    } else {
      assert xs + ys == xs;
    }
  }

  /** Filtering a sequence with one more element in front. */
  lemma {:induction false} FilterCons<T>(x: T, xs: seq<T>, keep: T -> bool)
    ensures Filter([x] + xs, keep) == (if keep(x) then [x] else []) + Filter(xs, keep)
    decreases |xs|
  {
    if |xs| > 0 {
      var init := xs[..|xs| - 1];
      FilterCons(x, init, keep);
      assert ([x] + xs)[..|xs|] == [x] + init;
    }
  }

  /** The loop `for x in xs: s = step(s, x)`, as a left fold. */
  function Fold<S, T>(s: S, xs: seq<T>, step: (S, T) -> S): S
    decreases |xs|
  {
    if |xs| == 0 then s else step(Fold(s, xs[..|xs| - 1], step), xs[|xs| - 1])
  }

  /** Elements on which the step does nothing can be filtered out before folding. */
  lemma {:induction false} FoldFilter<S, T>(s: S, xs: seq<T>, step: (S, T) -> S, keep: T -> bool)
    requires forall t, x :: !keep(x) ==> step(t, x) == t
    ensures Fold(s, xs, step) == Fold(s, Filter(xs, keep), step)
    decreases |xs|
  {
    if |xs| != 0 {
      var init := xs[..|xs| - 1];
      FoldFilter(s, init, step, keep);
      if keep(xs[|xs| - 1]) {
        var f := Filter(init, keep) + [xs[|xs| - 1]];
        assert f[..|f| - 1] == Filter(init, keep);
      } else {
        assert Filter(xs, keep) == Filter(init, keep);
        assert step(Fold(s, init, step), xs[|xs| - 1]) == Fold(s, init, step);
      }
    }
  }

  /** Filtering by a test and by its negation splits a sequence without loss. */
  lemma {:induction false} FilterComplement<T>(xs: seq<T>, keep: T -> bool, drop: T -> bool)
    requires forall x :: drop(x) == !keep(x)
    ensures |Filter(xs, keep)| + |Filter(xs, drop)| == |xs|
    decreases |xs|
  {
    if |xs| > 0 {
      FilterComplement(xs[..|xs| - 1], keep, drop);
    }
  }
}

/** Sequence helpers shared by the model: the `reduce`, `filter`, `sort` and
    `slice` of the source, each with the facts the rest of the model needs. */
module SeqUtil {

  /** `xs.reduce((sum, x) => sum + f(x), 0)`. */
  function Sum<T>(xs: seq<T>, f: T -> real): real {
    if xs == [] then 0.0 else Sum(xs[..|xs| - 1], f) + f(xs[|xs| - 1])
  }

  lemma {:induction false} SumAppend<T>(a: seq<T>, b: seq<T>, f: T -> real)
    ensures Sum(a + b, f) == Sum(a, f) + Sum(b, f)
    decreases |b|
  {
    if b == [] {
      assert a + b == a;
    } else {
      assert (a + b)[..|a + b| - 1] == a + b[..|b| - 1];
      SumAppend(a, b[..|b| - 1], f);
    }
  }

  lemma SumCons<T>(x: T, xs: seq<T>, f: T -> real)
    ensures Sum([x] + xs, f) == f(x) + Sum(xs, f)
  {
    SumAppend([x], xs, f);
    assert [x][..0] == [];
  }

  lemma {:induction false} SumNonNegative<T>(xs: seq<T>, f: T -> real)
    requires forall i :: 0 <= i < |xs| ==> f(xs[i]) >= 0.0
    ensures Sum(xs, f) >= 0.0
    decreases |xs|
  {
    if xs != [] {
      SumNonNegative(xs[..|xs| - 1], f);
    }
  }

  /** Taking one element out of a list takes its term out of the sum. */
  lemma SumRemoveAt<T>(b: seq<T>, i: int, f: T -> real)
    requires 0 <= i < |b|
    ensures Sum(b, f) == Sum(b[..i] + b[i + 1..], f) + f(b[i])
  {
    var pre, post := b[..i], b[i + 1..];
    var rest := [b[i]] + post;
    assert b == pre + rest;
    var whole := Sum(pre + rest, f);
    SumAppend(pre, rest, f);
    assert whole == Sum(pre, f) + Sum(rest, f);
    SumCons(b[i], post, f);
    assert Sum(rest, f) == f(b[i]) + Sum(post, f);
    SumAppend(pre, post, f);
    assert Sum(b, f) == whole;
  }

  /** Taking one element out of a list takes it out of its multiset. */
  lemma MultisetRemoveAt<T>(b: seq<T>, i: int)
    requires 0 <= i < |b|
    ensures multiset(b[..i] + b[i + 1..]) == multiset(b) - multiset{b[i]}
  {
    assert b == b[..i] + [b[i]] + b[i + 1..];
  }

  /** Sums do not depend on the order of the elements. */
  lemma {:induction false} SumPermutation<T>(a: seq<T>, b: seq<T>, f: T -> real)
    requires multiset(a) == multiset(b)
    ensures Sum(a, f) == Sum(b, f)
    decreases |a|
  {
    if a != [] {
      var x := a[0];
      assert x in multiset(b);
      var i :| 0 <= i < |b| && b[i] == x;
      var b' := b[..i] + b[i + 1..];
      MultisetRemoveAt(b, i);
      assert a == [x] + a[1..];
      assert multiset(a[1..]) == multiset(a) - multiset{x};
      SumPermutation(a[1..], b', f);
      SumCons(x, a[1..], f);
      SumRemoveAt(b, i, f);
    }
  }

  /** Two lists whose elements correspond one to one, each term of the
      first being `c` times the matching term of the second, have sums in
      the same ratio. */
  lemma {:induction false} SumScaled<A, B>(xs: seq<A>, ys: seq<B>, f: A -> real, g: B -> real, c: real)
    requires |xs| == |ys|
    requires forall i :: 0 <= i < |xs| ==> f(xs[i]) == g(ys[i]) * c
    ensures Sum(xs, f) == Sum(ys, g) * c
    decreases |xs|
  {
    if xs != [] {
      SumScaled(xs[..|xs| - 1], ys[..|ys| - 1], f, g, c);
    }
  }

  /** Termwise no larger means a sum no larger. */
  lemma {:induction false} SumLe<A, B>(xs: seq<A>, ys: seq<B>, f: A -> real, g: B -> real)
    requires |xs| == |ys|
    requires forall i :: 0 <= i < |xs| ==> f(xs[i]) <= g(ys[i])
    ensures Sum(xs, f) <= Sum(ys, g)
    decreases |xs|
  {
    if xs != [] {
      SumLe(xs[..|xs| - 1], ys[..|ys| - 1], f, g);
    }
  }

  /** `xs.filter(p)`, keeping the order of `xs`. */
  function Filter<T>(xs: seq<T>, p: T -> bool): (r: seq<T>)
    ensures |r| <= |xs|
    ensures forall i :: 0 <= i < |r| ==> p(r[i])
  {
    if xs == [] then []
    else if p(xs[|xs| - 1]) then
      assert xs == xs[..|xs| - 1] + [xs[|xs| - 1]];
      Filter(xs[..|xs| - 1], p) + [xs[|xs| - 1]]
    else
      assert xs == xs[..|xs| - 1] + [xs[|xs| - 1]];
      Filter(xs[..|xs| - 1], p)
  }

  lemma {:induction false} FilterAppend<T>(a: seq<T>, b: seq<T>, p: T -> bool)
    ensures Filter(a + b, p) == Filter(a, p) + Filter(b, p)
    decreases |b|
  {
    if b == [] {
      assert a + b == a;
    } else {
      assert (a + b)[..|a + b| - 1] == a + b[..|b| - 1];
      FilterAppend(a, b[..|b| - 1], p);
    }
  }

  /** An element is kept exactly when it satisfies the predicate. */
  lemma {:induction false} FilterMembership<T>(xs: seq<T>, p: T -> bool, x: T)
    ensures x in Filter(xs, p) <==> x in xs && p(x)
    decreases |xs|
  {
    if xs != [] {
      FilterMembership(xs[..|xs| - 1], p, x);
      assert xs == xs[..|xs| - 1] + [xs[|xs| - 1]];
    }
  }

  /** Filtering by a predicate `r` that is the disjoint union of `p` and
      `q` sums to the two separate filters' sums. */
  lemma {:induction false} SumFilterSplit<T>(xs: seq<T>, p: T -> bool, q: T -> bool, r: T -> bool, f: T -> real)
    requires forall x :: r(x) == (p(x) || q(x))
    requires forall x :: !(p(x) && q(x))
    ensures Sum(Filter(xs, r), f) == Sum(Filter(xs, p), f) + Sum(Filter(xs, q), f)
    decreases |xs|
  {
    if xs != [] {
      var pre, x := xs[..|xs| - 1], xs[|xs| - 1];
      SumFilterSplit(pre, p, q, r, f);
      assert Filter(xs, r) == Filter(pre, r) + (if r(x) then [x] else []);
      assert Filter(xs, p) == Filter(pre, p) + (if p(x) then [x] else []);
      assert Filter(xs, q) == Filter(pre, q) + (if q(x) then [x] else []);
      if p(x) {
        assert Sum(Filter(xs, p), f) == Sum(Filter(pre, p), f) + f(x);
        assert Sum(Filter(xs, r), f) == Sum(Filter(pre, r), f) + f(x);
      } else if q(x) {
        assert Sum(Filter(xs, q), f) == Sum(Filter(pre, q), f) + f(x);
        assert Sum(Filter(xs, r), f) == Sum(Filter(pre, r), f) + f(x);
      }
    }
  }

  /** Filtering with a predicate no element satisfies leaves nothing. */
  lemma {:induction false} FilterNone<T>(xs: seq<T>, p: T -> bool)
    requires forall i :: 0 <= i < |xs| ==> !p(xs[i])
    ensures Filter(xs, p) == []
    decreases |xs|
  {
    if xs != [] {
      FilterNone(xs[..|xs| - 1], p);
    }
  }

  /** Filtering with a predicate every element satisfies keeps everything. */
  lemma {:induction false} FilterAll<T>(xs: seq<T>, p: T -> bool)
    requires forall i :: 0 <= i < |xs| ==> p(xs[i])
    ensures Filter(xs, p) == xs
    decreases |xs|
  {
    if xs != [] {
      FilterAll(xs[..|xs| - 1], p);
      assert xs == xs[..|xs| - 1] + [xs[|xs| - 1]];
    }
  }

  /** Over non-negative terms, the kept elements, each counted at most at
      its full value, sum to at most the whole. */
  lemma {:induction false} SumFilterBound<T>(xs: seq<T>, p: T -> bool, f: T -> real, g: T -> real)
    requires forall i :: 0 <= i < |xs| ==> f(xs[i]) >= 0.0
    requires forall i :: 0 <= i < |xs| && p(xs[i]) ==> g(xs[i]) <= f(xs[i])
    ensures Sum(Filter(xs, p), g) <= Sum(xs, f)
    decreases |xs|
  {
    if xs != [] {
      SumFilterBound(xs[..|xs| - 1], p, f, g);
    }
  }

  /** Number of elements satisfying `p`. */
  function Count<T>(xs: seq<T>, p: T -> bool): nat {
    |Filter(xs, p)|
  }

  predicate Distinct<T(==)>(xs: seq<T>) {
    forall i, j :: 0 <= i < j < |xs| ==> xs[i] != xs[j]
  }

  /** `xs.slice(0, n)`. */
  function Take<T>(xs: seq<T>, n: nat): (r: seq<T>)
    ensures |r| == if |xs| < n then |xs| else n
    ensures forall i :: 0 <= i < |r| ==> r[i] == xs[i]
  {
    if |xs| <= n then xs else xs[..n]
  }

  /** `xs.slice(-n)` for n > 0: the last n elements. */
  function TakeLast<T>(xs: seq<T>, n: nat): (r: seq<T>)
    ensures |r| == if |xs| < n then |xs| else n
    ensures forall i :: 0 <= i < |r| ==> r[i] == xs[|xs| - |r| + i]
  {
    if |xs| <= n then xs else xs[|xs| - n..]
  }

  // -----------------------------------------------------------------------
  // Sorting by a numeric key. JavaScript's `Array.prototype.sort` is stable;
  // inserting an element in front of every element with an equal key keeps
  // the original order of equal elements, as the insertion sort below does.

  predicate SortedDesc<T>(xs: seq<T>, key: T -> real) {
    forall i, j :: 0 <= i < j < |xs| ==> key(xs[i]) >= key(xs[j])
  }

  predicate SortedAsc<T>(xs: seq<T>, key: T -> real) {
    forall i, j :: 0 <= i < j < |xs| ==> key(xs[i]) <= key(xs[j])
  }

  /** A bound on every element of a list bounds every element of any
      rearrangement of it with one more element under the bound. */
  lemma BoundedRearrangement<T>(y: T, ys: seq<T>, x: T, rest: seq<T>, key: T -> real)
    requires forall i :: 0 <= i < |ys| ==> key(y) >= key(ys[i])
    requires key(y) >= key(x)
    requires multiset(rest) == multiset(ys) + multiset{x}
    ensures forall i :: 0 <= i < |rest| ==> key(y) >= key(rest[i])
  {
    forall i | 0 <= i < |rest|
      ensures key(y) >= key(rest[i])
    {
      assert rest[i] in multiset(rest);
      if rest[i] != x {
        assert rest[i] in multiset(ys);
        var j :| 0 <= j < |ys| && ys[j] == rest[i];
      }
    }
  }

  /** An element no smaller than any of a sorted list's may go in front of it. */
  lemma SortedCons<T>(y: T, ys: seq<T>, key: T -> real)
    requires SortedDesc(ys, key)
    requires forall i :: 0 <= i < |ys| ==> key(y) >= key(ys[i])
    ensures SortedDesc([y] + ys, key)
  {
    var r := [y] + ys;
    forall i, j | 0 <= i < j < |r|
      ensures key(r[i]) >= key(r[j])
    {
      assert r[j] == ys[j - 1];
      if i > 0 {
        assert r[i] == ys[i - 1];
      }
    }
  }

  function InsertDesc<T>(x: T, xs: seq<T>, key: T -> real): (r: seq<T>)
    requires SortedDesc(xs, key)
    ensures SortedDesc(r, key)
    ensures multiset(r) == multiset(xs) + multiset{x}
    ensures |r| == |xs| + 1
  {
    if xs == [] then [x]
    else if key(x) >= key(xs[0]) then
      SortedCons(x, xs, key);
      [x] + xs
    else
      var rest := InsertDesc(x, xs[1..], key);
      assert xs == [xs[0]] + xs[1..];
      BoundedRearrangement(xs[0], xs[1..], x, rest, key);
      SortedCons(xs[0], rest, key);
      [xs[0]] + rest
  }

  /** `[...xs].sort((a, b) => key(b) - key(a))`: a sorted copy, largest key first. */
  function SortDesc<T>(xs: seq<T>, key: T -> real): (r: seq<T>)
    ensures SortedDesc(r, key)
    ensures multiset(r) == multiset(xs)
    ensures |r| == |xs|
  {
    if xs == [] then [] else
      assert xs == [xs[0]] + xs[1..];
      InsertDesc(xs[0], SortDesc(xs[1..], key), key)
  }

  /** `[...xs].sort((a, b) => key(a) - key(b))`: a sorted copy, smallest key first. */
  function SortAsc<T>(xs: seq<T>, key: T -> real): (r: seq<T>)
    ensures SortedAsc(r, key)
    ensures multiset(r) == multiset(xs)
    ensures |r| == |xs|
  {
    var r := SortDesc(xs, x => -key(x));
    assert forall i, j :: 0 <= i < j < |r| ==> -key(r[i]) >= -key(r[j]);
    r
  }

  /** The first n of a list sorted largest first: an element left out
      means n were taken, none of them smaller than it. */
  lemma TopOfSortedDesc<T>(s: seq<T>, key: T -> real, n: nat, x: T)
    requires SortedDesc(s, key)
    requires x in s && x !in Take(s, n)
    ensures |Take(s, n)| == n
    ensures forall i :: 0 <= i < n ==> key(s[i]) >= key(x)
  {
    var j :| 0 <= j < |s| && s[j] == x;
  }

  /** The first n of a list sorted smallest first: an element left out
      means n were taken, none of them larger than it. */
  lemma TopOfSortedAsc<T>(s: seq<T>, key: T -> real, n: nat, x: T)
    requires SortedAsc(s, key)
    requires x in s && x !in Take(s, n)
    ensures |Take(s, n)| == n
    ensures forall i :: 0 <= i < n ==> key(s[i]) <= key(x)
  {
    var j :| 0 <= j < |s| && s[j] == x;
  }

  /** The last `n` of an ascending sequence are ascending and come from it. */
  lemma TakeLastSortedAsc<T>(s: seq<T>, key: T -> real, n: nat)
    requires SortedAsc(s, key)
    ensures SortedAsc(TakeLast(s, n), key)
    ensures forall x :: x in TakeLast(s, n) ==> x in s
  {
    var r := TakeLast(s, n);
    assert r == s[|s| - |r|..];
  }

  /** An element of an ascending sequence left out of its last `n` means
      there are `n` of them, none smaller than it. */
  lemma LastOfSortedAsc<T>(s: seq<T>, key: T -> real, n: nat, x: T)
    requires SortedAsc(s, key)
    requires x in s && x !in TakeLast(s, n)
    ensures |TakeLast(s, n)| == n
    ensures forall i :: 0 <= i < n ==> key(TakeLast(s, n)[i]) >= key(x)
  {
    var j :| 0 <= j < |s| && s[j] == x;
  }

  lemma MultisetMembership<T>(a: seq<T>, b: seq<T>, x: T)
    requires multiset(a) == multiset(b)
    ensures x in a <==> x in b
  {
    assert x in a <==> x in multiset(a);
    assert x in b <==> x in multiset(b);
  }

  /** In a sequence without repeats every value occurs at most once. */
  lemma {:induction false} DistinctCount<T>(b: seq<T>, x: T)
    requires Distinct(b)
    ensures multiset(b)[x] <= 1
    decreases |b|
  {
    if b != [] {
      var pre := b[..|b| - 1];
      assert b == pre + [b[|b| - 1]];
      DistinctCount(pre, x);
      if x == b[|b| - 1] {
        assert x !in pre;
      }
    }
  }

  /** A value at two positions occurs at least twice. */
  lemma TwoOccurrences<T>(a: seq<T>, i: int, j: int)
    requires 0 <= i < j < |a|
    ensures a[i] == a[j] ==> multiset(a)[a[i]] >= 2
  {
    assert a == a[..j] + [a[j]] + a[j + 1..];
    assert a[i] == a[..j][i];
  }

  /** A rearrangement of a sequence without repeats has none either. */
  lemma DistinctPermutation<T>(a: seq<T>, b: seq<T>)
    requires multiset(a) == multiset(b) && Distinct(b)
    ensures Distinct(a)
  {
    forall i, j | 0 <= i < j < |a|
      ensures a[i] != a[j]
    {
      DistinctCount(b, a[i]);
      TwoOccurrences(a, i, j);
    }
  }
}

/** Generic sequence operations behind the source's `Array.prototype.filter`, `map` and
    `reduce((sum, x) => sum + f(x), 0)`, each with an independent characterisation. */
module Sequences {

  /** Arithmetic sum of a sequence of numbers, 0 for the empty sequence. */
  function Sum(xs: seq<real>): real
  {
    if |xs| == 0 then 0.0 else xs[0] + Sum(xs[1..])
  }

  /** The left fold `xs.reduce((sum, x) => sum + f(x), 0)`, accumulating from the front. */
  function SumBy<T>(xs: seq<T>, f: T -> real): real
  {
    if |xs| == 0 then 0.0 else SumBy(xs[..|xs| - 1], f) + f(xs[|xs| - 1])
  }

  /** `xs.map(f)`: one image per element, in order. */
  function Map<T, U>(xs: seq<T>, f: T -> U): (r: seq<U>)
    ensures |r| == |xs|
    ensures forall i :: 0 <= i < |xs| ==> r[i] == f(xs[i])
  {
    if |xs| == 0 then [] else [f(xs[0])] + Map(xs[1..], f)
  }

  /** `xs.filter(x => key(x) === k)`: the elements whose key is `k`, in their original order. */
  function FilterByKey<T, K(==)>(xs: seq<T>, key: T -> K, k: K): (r: seq<T>)
    ensures |r| <= |xs|
    ensures forall i :: 0 <= i < |r| ==> key(r[i]) == k
  {
    if |xs| == 0 then []
    else (if key(xs[0]) == k then [xs[0]] else []) + FilterByKey(xs[1..], key, k)
  }

  /** Filtering the images of `f` by `k2` keeps the images of the elements that filtering
      by `k1` keeps, when `k2` reads off each image what `k1` reads off its element. */
  lemma {:induction false} FilterByKeyMap<T, U, K>(xs: seq<T>, f: T -> U, k1: T -> K, k2: U -> K, k: K)
    requires forall x :: k2(f(x)) == k1(x)
    ensures FilterByKey(Map(xs, f), k2, k) == Map(FilterByKey(xs, k1, k), f)
  {
    if |xs| > 0 {
      FilterByKeyMap(xs[1..], f, k1, k2, k);
      assert Map(xs, f)[1..] == Map(xs[1..], f);
      var rest := FilterByKey(xs[1..], k1, k);
      if k1(xs[0]) == k {
        assert Map([xs[0]] + rest, f) == [f(xs[0])] + Map(rest, f);
      }
    }
  }

  /** Sum of `f` over the elements whose key is `k`; the reference for filtered totals. */
  function SumByKey<T, K(==)>(xs: seq<T>, key: T -> K, k: K, f: T -> real): real
  {
    if |xs| == 0 then 0.0
    else (if key(xs[0]) == k then f(xs[0]) else 0.0) + SumByKey(xs[1..], key, k, f)
  }

  /** `sub` can be obtained from `xs` by deleting elements, without reordering. */
  predicate IsSubsequence<T(==)>(sub: seq<T>, xs: seq<T>)
    decreases |xs|
  {
    if |sub| == 0 then true
    else if |xs| == 0 then false
    else (sub[0] == xs[0] && IsSubsequence(sub[1..], xs[1..])) || IsSubsequence(sub, xs[1..])
  }

  lemma {:induction false} SumAppend(xs: seq<real>, x: real)
    ensures Sum(xs + [x]) == Sum(xs) + x
  {
    if |xs| == 0 {
      assert xs + [x] == [x];
    } else {
      assert (xs + [x])[1..] == xs[1..] + [x];
      SumAppend(xs[1..], x);
    }
  }

  /** The fold used for chart totals agrees with the sum of the mapped values. */
  lemma {:induction false} SumByIsSumOfMap<T>(xs: seq<T>, f: T -> real)
    ensures SumBy(xs, f) == Sum(Map(xs, f))
  {
    if |xs| > 0 {
      var init := xs[..|xs| - 1];
      SumByIsSumOfMap(init, f);
      assert Map(xs, f) == Map(init, f) + [f(xs[|xs| - 1])];
      SumAppend(Map(init, f), f(xs[|xs| - 1]));
    }
  }

  /** `r` is exactly the elements of `xs` whose key is `k`: each of them with all its
      occurrences, nothing else, and in the order they have in `xs`. */
  ghost predicate IsSliceByKey<T, K>(r: seq<T>, xs: seq<T>, key: T -> K, k: K)
  {
    && IsSubsequence(r, xs)
    && (forall i :: 0 <= i < |r| ==> key(r[i]) == k)
    && (forall i :: 0 <= i < |xs| && key(xs[i]) == k ==> multiset(r)[xs[i]] == multiset(xs)[xs[i]])
  }

  /** The filter keeps every occurrence of a selected element and none of the others. */
  lemma {:induction false} FilterByKeyCount<T, K>(xs: seq<T>, key: T -> K, k: K, x: T)
    ensures multiset(FilterByKey(xs, key, k))[x] == if key(x) == k then multiset(xs)[x] else 0
  {
    if |xs| > 0 {
      FilterByKeyCount(xs[1..], key, k, x);
      assert xs == [xs[0]] + xs[1..];
      assert multiset(xs) == multiset{xs[0]} + multiset(xs[1..]);
    }
  }

  /** The filter never reorders: its result is a subsequence of its input. */
  lemma {:induction false} FilterByKeyIsSubsequence<T, K>(xs: seq<T>, key: T -> K, k: K)
    ensures IsSubsequence(FilterByKey(xs, key, k), xs)
  {
    if |xs| > 0 {
      var r := FilterByKey(xs, key, k);
      FilterByKeyIsSubsequence(xs[1..], key, k);
      if key(xs[0]) == k {
        assert r[0] == xs[0] && r[1..] == FilterByKey(xs[1..], key, k);
      } else {
        assert r == FilterByKey(xs[1..], key, k);
      }
    }
  }

  /** The filter selects exactly the slice of `xs` with key `k`. */
  lemma FilterByKeyIsSlice<T, K>(xs: seq<T>, key: T -> K, k: K)
    ensures IsSliceByKey(FilterByKey(xs, key, k), xs, key, k)
  {
    FilterByKeyIsSubsequence(xs, key, k);
    forall i | 0 <= i < |xs| && key(xs[i]) == k
      ensures multiset(FilterByKey(xs, key, k))[xs[i]] == multiset(xs)[xs[i]]
    {
      FilterByKeyCount(xs, key, k, xs[i]);
    }
  }

  /** Filtering distributes over concatenation, so relative order is preserved. */
  lemma {:induction false} FilterByKeyConcat<T, K>(xs: seq<T>, ys: seq<T>, key: T -> K, k: K)
    ensures FilterByKey(xs + ys, key, k) == FilterByKey(xs, key, k) + FilterByKey(ys, key, k)
  {
    if |xs| > 0 {
      assert (xs + ys)[1..] == xs[1..] + ys;
      FilterByKeyConcat(xs[1..], ys, key, k);
    } else {
      assert xs + ys == ys;
    }
  }

  /** A filter that every element passes is the identity. */
  lemma {:induction false} FilterByKeyKeepsAll<T, K>(xs: seq<T>, key: T -> K, k: K)
    requires forall i :: 0 <= i < |xs| ==> key(xs[i]) == k
    ensures FilterByKey(xs, key, k) == xs
  {
    if |xs| > 0 {
      FilterByKeyKeepsAll(xs[1..], key, k);
    }
  }

  /** A key that no element carries yields the empty sequence. */
  lemma {:induction false} FilterByKeyKeepsNone<T, K>(xs: seq<T>, key: T -> K, k: K)
    requires forall i :: 0 <= i < |xs| ==> key(xs[i]) != k
    ensures FilterByKey(xs, key, k) == []
  {
    if |xs| > 0 {
      FilterByKeyKeepsNone(xs[1..], key, k);
    }
  }

  /** Folding `f` over the filtered slice gives the keyed sum over the whole input. */
  lemma {:induction false} FilterByKeySum<T, K>(xs: seq<T>, key: T -> K, k: K, f: T -> real)
    ensures SumBy(FilterByKey(xs, key, k), f) == SumByKey(xs, key, k, f)
  {
    SumByIsSumOfMap(FilterByKey(xs, key, k), f);
    SumMapFilter(xs, key, k, f);
  }

  lemma {:induction false} SumMapFilter<T, K>(xs: seq<T>, key: T -> K, k: K, f: T -> real)
    ensures Sum(Map(FilterByKey(xs, key, k), f)) == SumByKey(xs, key, k, f)
  {
    if |xs| > 0 {
      var rest := FilterByKey(xs[1..], key, k);
      SumMapFilter(xs[1..], key, k, f);
      if key(xs[0]) == k {
        var m := Map([xs[0]] + rest, f);
        assert m[1..] == Map(rest, f);
      } else {
        assert FilterByKey(xs, key, k) == rest;
      }
    }
  }

  /** No element occurs twice. */
  predicate NoDuplicates<T(==)>(s: seq<T>)
  {
    forall i, j :: 0 <= i < j < |s| ==> s[i] != s[j]
  }

  /** `[...new Set(s)]`: the distinct elements of `s`. Their order is left unstated, since
      the quarter options sort them next. */
  function Distinct<T(==)>(s: seq<T>): (r: seq<T>)
    ensures forall i :: 0 <= i < |r| ==> r[i] in s
    ensures forall i :: 0 <= i < |s| ==> s[i] in r
    ensures NoDuplicates(r)
  {
    if |s| == 0 then []
    else
      var d := Distinct(s[..|s| - 1]);
      if s[|s| - 1] in d then d else d + [s[|s| - 1]]
  }

  /** `s.reverse()`: the same elements, last first. */
  function Reverse<T>(s: seq<T>): (r: seq<T>)
    ensures |r| == |s|
    ensures forall i :: 0 <= i < |s| ==> r[i] == s[|s| - 1 - i]
  {
    if |s| == 0 then [] else Reverse(s[1..]) + [s[0]]
  }
  lemma {:induction false} NoDuplicatesCount<T>(s: seq<T>, x: T)
    requires NoDuplicates(s)
    ensures multiset(s)[x] <= 1
  {
    if |s| > 0 {
      assert s == [s[0]] + s[1..];
      assert s[0] !in s[1..];
      NoDuplicatesCount(s[1..], x);
    }
  }

  /** Rearranging a sequence without repetitions cannot create one. */
  lemma NoDuplicatesPermutation<T>(a: seq<T>, b: seq<T>)
    requires NoDuplicates(a)
    requires multiset(a) == multiset(b)
    ensures NoDuplicates(b)
  {
    forall i, j | 0 <= i < j < |b|
      ensures b[i] != b[j]
    {
      if b[i] == b[j] {
        assert b == b[..j] + b[j..];
        assert b[i] in b[..j] && b[j] in b[j..];
        assert multiset(b)[b[i]] == multiset(b[..j])[b[i]] + multiset(b[j..])[b[i]];
        NoDuplicatesCount(a, b[i]);
      }
    }
  }
}

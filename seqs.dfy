/**
 * The array pipeline steps the source builds its queries from, as functions on
 * sequences: `filter`, `find`, `slice(0, end)` and a stable `sort` by a key.
 */
module Seqs {
  import opened Opt

  /** `r` can be obtained from `s` by deleting elements: it keeps their order. */
  predicate IsSubseq<T(==)>(r: seq<T>, s: seq<T>)
    decreases |s|
  {
    r == [] || (s != [] && ((r[0] == s[0] && IsSubseq(r[1..], s[1..])) || IsSubseq(r, s[1..])))
  }

  lemma {:induction false} IsSubseqMembers<T>(r: seq<T>, s: seq<T>)
    requires IsSubseq(r, s)
    ensures |r| <= |s|
    ensures forall x :: x in r ==> x in s
    decreases |s|
  {
    if r != [] {
      if r[0] == s[0] && IsSubseq(r[1..], s[1..]) {
        IsSubseqMembers(r[1..], s[1..]);
        assert forall x :: x in r ==> x == r[0] || x in r[1..];
      } else {
        IsSubseqMembers(r, s[1..]);
      }
    }
  }

  /** A prefix is a subsequence. */
  lemma {:induction false} PrefixIsSubseq<T>(r: seq<T>, s: seq<T>)
    requires r <= s
    ensures IsSubseq(r, s)
    decreases |s|
  {
    if r != [] {
      PrefixIsSubseq(r[1..], s[1..]);
    }
  }

  lemma {:induction false} IsSubseqTransitive<T>(a: seq<T>, b: seq<T>, c: seq<T>)
    requires IsSubseq(a, b) && IsSubseq(b, c)
    ensures IsSubseq(a, c)
    decreases |c|, |b|
  {
    if a != [] {
      assert b != [] && c != [];
      if b[0] == c[0] && IsSubseq(b[1..], c[1..]) {
        if a[0] == b[0] && IsSubseq(a[1..], b[1..]) {
          IsSubseqTransitive(a[1..], b[1..], c[1..]);
        } else {
          IsSubseqTransitive(a, b[1..], c[1..]);
        }
      } else {
        IsSubseqTransitive(a, b, c[1..]);
      }
    }
  }

  /**
   * What a `filter` promises: `r` keeps the order of `s`, holds only elements
   * satisfying `p`, misses none of them, and keeps as many as `s` has
   * (repeated matches included). `SelectsIsFilter` shows this pins `r` down.
   */
  ghost predicate Selects<T>(r: seq<T>, s: seq<T>, p: T -> bool) {
    && IsSubseq(r, s)
    && (forall i :: 0 <= i < |r| ==> p(r[i]))
    && (forall i :: 0 <= i < |s| && p(s[i]) ==> s[i] in r)
    && |r| == Count(s, p)
  }

  /** What a `find(...) || null` promises: the first element satisfying `p`, or nothing when none does. */
  ghost predicate FirstMatch<T>(r: Option<T>, s: seq<T>, p: T -> bool) {
    && (r.None? <==> forall i :: 0 <= i < |s| ==> !p(s[i]))
    && (r.Some? ==> exists k :: 0 <= k < |s| && s[k] == r.value && p(s[k]) && forall j :: 0 <= j < k ==> !p(s[j]))
  }

  /** `Array.prototype.filter`: the elements of `s` that satisfy `p`, in their order. */
  function Filter<T>(s: seq<T>, p: T -> bool): (r: seq<T>)
    ensures |r| <= |s|
    ensures forall i :: 0 <= i < |r| ==> r[i] in s
    ensures Selects(r, s, p)
    decreases |s|
  {
    if s == [] then []
    else
      var rest := Filter(s[1..], p);
      assert forall i :: 1 <= i < |s| ==> s[i] == s[1..][i - 1];
      if p(s[0]) then [s[0]] + rest else rest
  }

  lemma {:induction false} FilterConcat<T>(a: seq<T>, b: seq<T>, p: T -> bool)
    ensures Filter(a + b, p) == Filter(a, p) + Filter(b, p)
    decreases |a|
  {
    if a != [] {
      assert (a + b)[1..] == a[1..] + b;
      FilterConcat(a[1..], b, p);
    } else {
      assert a + b == b;
    }
  }

  /** The number of elements satisfying `p`: `s.filter(p).length`. */
  function Count<T>(s: seq<T>, p: T -> bool): (n: nat)
    ensures n <= |s|
    decreases |s|
  {
    if s == [] then 0 else (if p(s[0]) then 1 else 0) + Count(s[1..], p)
  }

  lemma {:induction false} CountConcat<T>(a: seq<T>, b: seq<T>, p: T -> bool)
    ensures Count(a + b, p) == Count(a, p) + Count(b, p)
    decreases |a|
  {
    if a != [] {
      assert (a + b)[1..] == a[1..] + b;
      CountConcat(a[1..], b, p);
    } else {
      assert a + b == b;
    }
  }

  /** A subsequence of elements satisfying `p` has at most as many elements as `s` has such elements. */
  lemma {:induction false} SubseqCountBound<T>(r: seq<T>, s: seq<T>, p: T -> bool)
    requires IsSubseq(r, s)
    requires forall i :: 0 <= i < |r| ==> p(r[i])
    ensures |r| <= Count(s, p)
    decreases |s|
  {
    if r != [] {
      if r[0] == s[0] && IsSubseq(r[1..], s[1..]) {
        SubseqCountBound(r[1..], s[1..], p);
      } else {
        SubseqCountBound(r, s[1..], p);
      }
    }
  }

  /**
   * Only one sequence meets the `filter` promise: an in-order selection of
   * elements satisfying `p`, as many as `s` has, is `Filter(s, p)` itself.
   */
  lemma {:induction false} SelectsIsFilter<T>(r: seq<T>, s: seq<T>, p: T -> bool)
    requires IsSubseq(r, s)
    requires forall i :: 0 <= i < |r| ==> p(r[i])
    requires |r| == Count(s, p)
    ensures r == Filter(s, p)
    decreases |s|
  {
    if s == [] {
    } else if r != [] && r[0] == s[0] && IsSubseq(r[1..], s[1..]) {
      SelectsIsFilter(r[1..], s[1..], p);
      assert r == [r[0]] + r[1..];
    } else if r == [] {
      FilterLengthIsCount(s, p);
    } else {
      SubseqCountBound(r, s[1..], p);
      assert !p(s[0]);
      SelectsIsFilter(r, s[1..], p);
    }
  }

  /** Elements satisfy exactly one of `p` and `q`, so their counts add up to |s|. */
  lemma {:induction false} CountComplement<T>(s: seq<T>, p: T -> bool, q: T -> bool)
    requires forall i :: 0 <= i < |s| ==> (p(s[i]) <==> !q(s[i]))
    ensures Count(s, p) + Count(s, q) == |s|
    decreases |s|
  {
    if s != [] {
      assert forall i :: 1 <= i < |s| ==> s[i] == s[1..][i - 1];
      CountComplement(s[1..], p, q);
    }
  }

  /** No element satisfies `p`, so none is counted. */
  lemma {:induction false} NoneCounted<T>(s: seq<T>, p: T -> bool)
    requires forall i :: 0 <= i < |s| ==> !p(s[i])
    ensures Count(s, p) == 0
    decreases |s|
  {
    if s != [] {
      NoneCounted(s[1..], p);
    }
  }

  /** `s.filter(p).length` counts the elements satisfying `p`. */
  lemma {:induction false} FilterLengthIsCount<T>(s: seq<T>, p: T -> bool)
    ensures |Filter(s, p)| == Count(s, p)
    decreases |s|
  {
    if s != [] {
      FilterLengthIsCount(s[1..], p);
    }
  }

  /** Two filters with predicates no element satisfies together select at most |s| elements between them. */
  lemma {:induction false} FilterDisjointLength<T>(s: seq<T>, p: T -> bool, q: T -> bool)
    requires forall i :: 0 <= i < |s| ==> !(p(s[i]) && q(s[i]))
    ensures |Filter(s, p)| + |Filter(s, q)| <= |s|
    decreases |s|
  {
    if s != [] {
      assert forall i :: 1 <= i < |s| ==> s[i] == s[1..][i - 1];
      FilterDisjointLength(s[1..], p, q);
    }
  }

  /** Filtering with a predicate every element satisfies changes nothing. */
  lemma {:induction false} FilterAll<T>(s: seq<T>, p: T -> bool)
    requires forall x :: x in s ==> p(x)
    ensures Filter(s, p) == s
    decreases |s|
  {
    if s != [] {
      assert forall x :: x in s[1..] ==> x in s;
      FilterAll(s[1..], p);
    }
  }

  /** The position `Array.prototype.find` stops at: the first element satisfying `p`, or |s|. */
  function FirstIndex<T>(s: seq<T>, p: T -> bool): (k: nat)
    ensures k <= |s|
    ensures k < |s| ==> p(s[k])
    ensures forall j :: 0 <= j < k ==> !p(s[j])
    decreases |s|
  {
    if s == [] then 0
    else if p(s[0]) then 0
    else 1 + FirstIndex(s[1..], p)
  }

  /** `Array.prototype.find`: the first element satisfying `p`, if any. */
  function Find<T>(s: seq<T>, p: T -> bool): (r: Option<T>)
    ensures r.Some? ==> r.value in s && p(r.value)
    ensures FirstMatch(r, s, p)
  {
    var k := FirstIndex(s, p);
    if k < |s| then Some(s[k]) else None
  }

  /**
   * The end index `slice(0, end)` resolves to: a negative `end` counts from the
   * back, and both kinds are clamped to the sequence.
   */
  function SliceEnd(len: nat, end: int): (e: nat)
    ensures e <= len
    ensures end >= 0 ==> e == if end < len then end else len
    ensures end < 0 ==> e == if len + end > 0 then len + end else 0
  {
    if end < 0 then (if len + end > 0 then len + end else 0)
    else if end < len then end else len
  }

  /** `s.slice(0, end)` with JavaScript's index rules. */
  function SlicePrefix<T>(s: seq<T>, end: int): (r: seq<T>)
    ensures r == s[..SliceEnd(|s|, end)]
    ensures end >= 0 ==> |r| == if end < |s| then end else |s|
  {
    s[..SliceEnd(|s|, end)]
  }

  /** `s.slice(start)` with JavaScript's index rules: a negative `start` counts from the back. */
  function SliceFrom<T>(s: seq<T>, start: int): (r: seq<T>)
    ensures start >= 0 ==> r == if start < |s| then s[start..] else []
    ensures start < 0 ==> r == if |s| + start > 0 then s[|s| + start..] else s
  {
    s[SliceEnd(|s|, start)..]
  }

  predicate SortedBy<T>(s: seq<T>, key: T -> real) {
    forall i, j :: 0 <= i < j < |s| ==> key(s[i]) <= key(s[j])
  }

  /** Insert `x` before the first element whose key is not smaller (keeps equal keys in order). */
  function Insert<T>(x: T, s: seq<T>, key: T -> real): (r: seq<T>)
    requires SortedBy(s, key)
    ensures |r| == |s| + 1
    ensures r[0] == x || (s != [] && r[0] == s[0])
    ensures SortedBy(r, key)
    ensures multiset(r) == multiset(s) + multiset{x}
    decreases |s|
  {
    if s == [] || key(x) <= key(s[0]) then
      SortedCons(x, s, key);
      [x] + s
    else
      var rest := Insert(x, s[1..], key);
      assert key(s[0]) <= key(rest[0]);
      SortedCons(s[0], rest, key);
      assert s == [s[0]] + s[1..];
      [s[0]] + rest
  }

  /** Putting an element with a key no greater than the head's in front keeps a sequence sorted. */
  lemma SortedCons<T>(y: T, t: seq<T>, key: T -> real)
    requires SortedBy(t, key)
    requires t != [] ==> key(y) <= key(t[0])
    ensures SortedBy([y] + t, key)
  {
    var r := [y] + t;
    forall i, j | 0 <= i < j < |r| ensures key(r[i]) <= key(r[j]) {
      if i == 0 && j > 1 {
        assert key(t[0]) <= key(t[j - 1]);
      }
    }
  }

  /** A stable sort by ascending key, as `Array.prototype.sort((a, b) => key(a) - key(b))` does. */
  function SortBy<T>(s: seq<T>, key: T -> real): (r: seq<T>)
    ensures SortedBy(r, key)
    ensures multiset(r) == multiset(s)
    ensures |r| == |s|
    decreases |s|
  {
    if s == [] then []
    else
      assert s == [s[0]] + s[1..];
      Insert(s[0], SortBy(s[1..], key), key)
  }

  lemma SortedPrefix<T>(s: seq<T>, n: nat, key: T -> real)
    requires SortedBy(s, key) && n <= |s|
    ensures SortedBy(s[..n], key)
  {
  }

  /** In a sorted sequence, an element outside the first `n` has a key no smaller than any of them. */
  lemma SortedPrefixDominates<T>(s: seq<T>, n: nat, key: T -> real)
    requires SortedBy(s, key) && n <= |s|
    ensures forall m :: 0 <= m < |s| && s[m] !in s[..n] ==> forall i :: 0 <= i < n ==> key(s[i]) <= key(s[m])
  {
  }

  function Min(a: int, b: int): int {
    if a < b then a else b
  }

  /**
   * `s.filter(p).sort(byKey).slice(0, limit)`: the selected elements with the
   * smallest keys, in ascending key order. Every selected element left out has
   * a key no smaller than any element kept.
   */
  function FilterSortTake<T>(s: seq<T>, p: T -> bool, key: T -> real, limit: int): (r: seq<T>)
    ensures limit >= 0 ==> |r| == Min(limit, Count(s, p))
    ensures SortedBy(r, key)
    ensures forall i :: 0 <= i < |r| ==> p(r[i]) && r[i] in s
    ensures multiset(r) <= multiset(Filter(s, p))
    ensures forall k :: 0 <= k < |s| && p(s[k]) && s[k] !in r ==>
              forall i :: 0 <= i < |r| ==> key(r[i]) <= key(s[k])
  {
    var selected := Filter(s, p);
    var sorted := SortBy(selected, key);
    var r := SlicePrefix(sorted, limit);
    FilterSortTakeFacts(s, p, key, selected, sorted, r);
    PrefixSubMultiset(sorted, SliceEnd(|sorted|, limit));
    r
  }

  /** The facts behind `FilterSortTake`, about its intermediate lists. */
  lemma FilterSortTakeFacts<T>(s: seq<T>, p: T -> bool, key: T -> real, selected: seq<T>, sorted: seq<T>, r: seq<T>)
    requires forall i :: 0 <= i < |selected| ==> p(selected[i]) && selected[i] in s
    requires forall k :: 0 <= k < |s| && p(s[k]) ==> s[k] in selected
    requires SortedBy(sorted, key) && multiset(sorted) == multiset(selected)
    requires exists n :: 0 <= n <= |sorted| && r == sorted[..n]
    ensures SortedBy(r, key)
    ensures forall i :: 0 <= i < |r| ==> p(r[i]) && r[i] in s
    ensures forall k :: 0 <= k < |s| && p(s[k]) && s[k] !in r ==>
              forall i :: 0 <= i < |r| ==> key(r[i]) <= key(s[k])
  {
    var n :| 0 <= n <= |sorted| && r == sorted[..n];
    PermutationMembers(sorted, selected);
    SortedPrefixDominates(sorted, n, key);
    forall i | 0 <= i < |r| ensures p(r[i]) && r[i] in s {
      assert sorted[i] in selected;
    }
    forall k | 0 <= k < |s| && p(s[k]) && s[k] !in r
      ensures forall i :: 0 <= i < |r| ==> key(r[i]) <= key(s[k])
    {
      assert s[k] in selected;
      var m :| 0 <= m < |sorted| && sorted[m] == s[k];
    }
  }

  /** A prefix takes each element no more often than the whole sequence has it. */
  lemma PrefixSubMultiset<T>(s: seq<T>, n: nat)
    requires n <= |s|
    ensures multiset(s[..n]) <= multiset(s)
  {
    assert s == s[..n] + s[n..];
  }

  /** Elements of a permutation are elements of the original. */
  lemma PermutationMembers<T>(r: seq<T>, s: seq<T>)
    requires multiset(r) == multiset(s)
    ensures forall x :: x in r <==> x in s
  {
    forall x ensures x in r <==> x in s {
      assert x in r <==> x in multiset(r);
      assert x in s <==> x in multiset(s);
    }
  }
}

/** Sequence operations that model SQL and Python list comprehensions:
    `WHERE` (Filter), `LIMIT` (Limit) and `OFFSET` (Offset). */
module Seqs {
  import opened Common
  import Sorting

  /** The position of the first element satisfying `p`, as a query's
      `.first()` picks it. */
  function FindFirst<T>(s: seq<T>, p: T -> bool): (r: Option<nat>)
    ensures r.Some? ==> r.value < |s| && p(s[r.value]) && forall k :: 0 <= k < r.value ==> !p(s[k])
    ensures r.None? ==> forall k :: 0 <= k < |s| ==> !p(s[k])
    decreases |s|
  {
    if |s| == 0 then None
    else if p(s[0]) then Some(0)
    else match FindFirst(s[1..], p)
      case Some(i) => Some(i + 1)
      case None => None
  }

  /** A new element at the end does not change an earlier first match. */
  lemma FindFirstAppend<T>(s: seq<T>, x: T, p: T -> bool)
    ensures FindFirst(s + [x], p) == if FindFirst(s, p).Some? then FindFirst(s, p) else if p(x) then Some(|s|) else None
  {
    var t := s + [x];
    match FindFirst(s, p)
    case Some(i) =>
      assert t[i] == s[i];
      FirstIsUnique(t, p, i);
    case None =>
      if p(x) {
        FirstIsUnique(t, p, |s|);
      }
  }

  /** The first match is the only index with no match before it. */
  lemma FirstIsUnique<T>(s: seq<T>, p: T -> bool, i: nat)
    requires i < |s| && p(s[i]) && forall k :: 0 <= k < i ==> !p(s[k])
    ensures FindFirst(s, p) == Some(i)
  {
  }

  /** The elements of `s` that satisfy `p`, in their original order. */
  function Filter<T(!new)>(s: seq<T>, p: T -> bool): (r: seq<T>)
    ensures |r| <= |s|
    ensures forall x :: x in r <==> x in s && p(x)
    decreases |s|
  {
    if |s| == 0 then []
    else
      var rest := Filter(s[1..], p);
      assert forall x :: x in s <==> x == s[0] || x in s[1..];
      if p(s[0]) then [s[0]] + rest else rest
  }

  lemma {:induction false} FilterAppend<T(!new)>(s: seq<T>, x: T, p: T -> bool)
    ensures Filter(s + [x], p) == Filter(s, p) + (if p(x) then [x] else [])
    decreases |s|
  {
    if |s| == 0 {
      assert [x][1..] == [];
    } else {
      assert (s + [x])[1..] == s[1..] + [x];
      FilterAppend(s[1..], x, p);
    }
  }

  /** Filtering keeps the relative order of what it keeps. */
  lemma {:induction false} FilterSorted<T(!new)>(s: seq<T>, p: T -> bool, le: (T, T) -> bool)
    requires Sorting.Sorted(s, le)
    ensures Sorting.Sorted(Filter(s, p), le)
    decreases |s|
  {
    if |s| > 0 {
      var rest := Filter(s[1..], p);
      assert Sorting.Sorted(s[1..], le) by {
        forall i, j | 0 <= i < j < |s[1..]| ensures le(s[1..][i], s[1..][j]) {
          assert s[1..][i] == s[i + 1] && s[1..][j] == s[j + 1];
        }
      }
      FilterSorted(s[1..], p, le);
      if p(s[0]) {
        var r := [s[0]] + rest;
        forall i, j | 0 <= i < j < |r| ensures le(r[i], r[j]) {
          if i == 0 {
            assert r[j] in s[1..];
            var k :| 0 <= k < |s[1..]| && s[1..][k] == r[j];
            assert s[k + 1] == r[j];
          } else {
            assert r[i] == rest[i - 1] && r[j] == rest[j - 1];
          }
        }
      }
    }
  }

  /** The number of elements satisfying `p`. */
  function CountWhere<T(!new)>(s: seq<T>, p: T -> bool): (n: nat)
    ensures n == |Filter(s, p)|
    ensures n <= |s|
    decreases |s|
  {
    if |s| == 0 then 0
    else (if p(s[0]) then 1 else 0) + CountWhere(s[1..], p)
  }

  /** SQL `LIMIT n` as SQLite evaluates it: a negative limit means no limit. */
  function Limit<T(==)>(s: seq<T>, n: int): (r: seq<T>)
    ensures n >= 0 ==> |r| <= n
    ensures IsPrefixOf(r, s)
    ensures 0 <= n <= |s| ==> |r| == n
    ensures n < 0 || n >= |s| ==> r == s
  {
    if n < 0 || n >= |s| then s else s[..n]
  }

  /** SQL `OFFSET n`: the rows after the first `n`. */
  function Offset<T(==)>(s: seq<T>, n: nat): (r: seq<T>)
    ensures n <= |s| ==> s == s[..n] + r
    ensures n >= |s| ==> r == []
  {
    if n >= |s| then [] else s[n..]
  }

  /** `OFFSET skip LIMIT limit`, with SQLite's reading of a negative offset
      as none and of a negative limit as no limit. */
  function Page<T(==)>(s: seq<T>, skip: int, limit: int): (r: seq<T>)
    ensures skip >= 0 && limit >= 0 && skip + limit <= |s| ==> r == s[skip..skip + limit]
    ensures skip >= 0 && limit >= 0 ==> |r| == if skip >= |s| then 0 else Min(limit, |s| - skip)
    ensures limit < 0 ==> r == (if skip <= 0 then s else Offset(s, skip))
  {
    Limit(Offset(s, if skip < 0 then 0 else skip), limit)
  }

  function Min(a: int, b: int): int { if a <= b then a else b }

  /** A page with a non-negative offset and limit is a slice. */
  lemma PageSlice<T>(s: seq<T>, skip: nat, n: nat)
    ensures Page(s, skip, n) == s[Min(skip, |s|)..Min(skip + n, |s|)]
  {
    if skip >= |s| {
      assert Offset(s, skip) == [];
    } else {
      assert Offset(s, skip) == s[skip..];
      if n < |s| - skip {
        assert s[skip..][..n] == s[skip..skip + n];
      }
    }
  }

  /** Consecutive pages put together are the page that spans both. */
  lemma PagesConcatenate<T>(s: seq<T>, skip: nat, n: nat, m: nat)
    ensures Page(s, skip, n) + Page(s, skip + n, m) == Page(s, skip, n + m)
  {
    PageSlice(s, skip, n);
    PageSlice(s, skip + n, m);
    PageSlice(s, skip, n + m);
    SliceConcat(s, Min(skip, |s|), Min(skip + n, |s|), Min(skip + n + m, |s|));
  }

  lemma SliceConcat<T>(s: seq<T>, a: nat, b: nat, c: nat)
    requires a <= b <= c <= |s|
    ensures s[a..b] + s[b..c] == s[a..c]
  {
  }

  predicate IsPrefixOf<T(==)>(p: seq<T>, s: seq<T>)
  {
    |p| <= |s| && s[..|p|] == p
  }

  /** A prefix of a sorted sequence is sorted. */
  lemma PrefixSorted<T>(s: seq<T>, n: nat, le: (T, T) -> bool)
    requires Sorting.Sorted(s, le) && n <= |s|
    ensures Sorting.Sorted(s[..n], le)
  {
    forall i, j | 0 <= i < j < n ensures le(s[..n][i], s[..n][j]) {
      assert s[..n][i] == s[i] && s[..n][j] == s[j];
    }
  }

  /** A suffix of a sorted sequence is sorted. */
  lemma SuffixSorted<T>(s: seq<T>, n: nat, le: (T, T) -> bool)
    requires Sorting.Sorted(s, le) && n <= |s|
    ensures Sorting.Sorted(s[n..], le)
  {
    forall i, j | 0 <= i < j < |s| - n ensures le(s[n..][i], s[n..][j]) {
      assert s[n..][i] == s[n + i] && s[n..][j] == s[n + j];
    }
  }

  /** A page of a sorted sequence is sorted and holds only its elements. */
  lemma PageOfSorted<T>(s: seq<T>, skip: int, limit: int, le: (T, T) -> bool)
    requires Sorting.Sorted(s, le)
    ensures Sorting.Sorted(Page(s, skip, limit), le)
    ensures forall x :: x in Page(s, skip, limit) ==> x in s
  {
    var n: nat := if skip < 0 then 0 else skip;
    if n < |s| {
      SuffixSorted(s, n, le);
      var t := s[n..];
      if 0 <= limit < |t| {
        PrefixSorted(t, limit, le);
      }
    }
  }

  /** Where an element of a page sits in the whole sequence. */
  lemma PageIndex<T>(s: seq<T>, skip: nat, limit: nat, x: T) returns (i: nat)
    requires x in Page(s, skip, limit)
    ensures skip <= i < skip + limit && i < |s| && s[i] == x
  {
    var t := Page(s, skip, limit);
    var k :| 0 <= k < |t| && t[k] == x;
    assert t == Limit(Offset(s, skip), limit);
    assert skip < |s|;
    assert Offset(s, skip)[k] == x;
    i := skip + k;
  }

  predicate NoDuplicates<T(==)>(s: seq<T>)
  {
    forall i, j :: 0 <= i < j < |s| ==> s[i] != s[j]
  }

  /** The distinct elements of `s`, in order of first appearance (a
      `GROUP BY` key list). */
  function Distinct<T(==,!new)>(s: seq<T>): (r: seq<T>)
    ensures forall x :: x in r <==> x in s
    ensures NoDuplicates(r)
    ensures |r| <= |s|
    decreases |s|
  {
    if |s| == 0 then []
    else
      var d := Distinct(s[..|s| - 1]);
      var last := s[|s| - 1];
      assert s == s[..|s| - 1] + [last];
      if last in d then d else d + [last]
  }

  /** An element occurs at most once in a sequence without duplicates. */
  lemma {:induction false} NoDuplicatesOccursOnce<T>(s: seq<T>, x: T)
    requires NoDuplicates(s)
    ensures multiset(s)[x] <= 1
    decreases |s|
  {
    if |s| > 0 {
      var init := s[..|s| - 1];
      assert s == init + [s[|s| - 1]];
      assert NoDuplicates(init) by {
        forall i, j | 0 <= i < j < |init| ensures init[i] != init[j] {
          assert init[i] == s[i] && init[j] == s[j];
        }
      }
      NoDuplicatesOccursOnce(init, x);
    }
  }

  /** A reordering of a sequence without duplicates has none. */
  lemma PermutationNoDuplicates<T>(a: seq<T>, b: seq<T>)
    requires multiset(a) == multiset(b) && NoDuplicates(b)
    ensures NoDuplicates(a)
  {
    forall i, j | 0 <= i < j < |a| ensures a[i] != a[j] {
      NoDuplicatesOccursOnce(b, a[i]);
      assert a == a[..j] + a[j..];
      assert a[i] in a[..j];
    }
  }

  /** A prefix of a sequence without duplicates has none. */
  lemma PrefixNoDuplicates<T>(s: seq<T>, p: seq<T>)
    requires NoDuplicates(s) && IsPrefixOf(p, s)
    ensures NoDuplicates(p)
  {
    forall i, j | 0 <= i < j < |p| ensures p[i] != p[j] {
      assert p[i] == s[i] && p[j] == s[j];
    }
  }
}

/** Sorting by a rank. The analytics sort three tables (expense days,
    recurring vendors, late clients) and each vendor's dates, always by one
    or two numeric columns, ascending or descending; a `Rank` pairs those
    columns (negated for a descending column) and rows are ordered by rank,
    lexicographically. The contracts fix sortedness and contents and never
    the order of rows with equal ranks: the one-column sorts of the source
    use pandas' default quicksort, which is not stable, and the one
    two-column sort (the recurring table) keeps ties in vendor order, which
    these ranks do not express. */
module Sorting {
  import opened Basics

  /** Sort key: the primary column, then the secondary one. */
  datatype Rank = Rank(primary: real, secondary: real)

  predicate RankLe(a: Rank, b: Rank)
  {
    a.primary < b.primary || (a.primary == b.primary && a.secondary <= b.secondary)
  }

  predicate SortedBy<T>(rank: T -> Rank, s: seq<T>)
  {
    forall i, j :: 0 <= i < j < |s| ==> RankLe(rank(s[i]), rank(s[j]))
  }

  /** Places `x` into the sorted sequence `s`, after every row of smaller rank. */
  function Insert<T>(rank: T -> Rank, x: T, s: seq<T>): (r: seq<T>)
    requires SortedBy(rank, s)
    ensures multiset(r) == multiset(s) + multiset{x}
    ensures SortedBy(rank, r)
  {
    if |s| == 0 then [x]
    else if RankLe(rank(x), rank(s[0])) then [x] + s
    else
      var tail := Insert(rank, x, s[1..]);
      HeadStaysFirst(rank, x, s, tail);
      [s[0]] + tail
  }

  /** When `x` ranks above the head of `s`, the head still leads once `x`
      has gone into the rest. */
  lemma HeadStaysFirst<T>(rank: T -> Rank, x: T, s: seq<T>, tail: seq<T>)
    requires SortedBy(rank, s) && |s| > 0
    requires !RankLe(rank(x), rank(s[0]))
    requires multiset(tail) == multiset(s[1..]) + multiset{x}
    requires SortedBy(rank, tail)
    ensures multiset([s[0]] + tail) == multiset(s) + multiset{x}
    ensures SortedBy(rank, [s[0]] + tail)
  {
    assert s == [s[0]] + s[1..];
    forall k | 0 <= k < |tail|
      ensures RankLe(rank(s[0]), rank(tail[k]))
    {
      assert tail[k] in multiset(tail);
      if tail[k] != x {
        assert tail[k] in multiset(s[1..]);
        var j :| 0 <= j < |s[1..]| && s[1..][j] == tail[k];
        assert s[1 + j] == tail[k];
      }
    }
  }

  /** A permutation of `s` in rank order. */
  function InsertionSort<T>(rank: T -> Rank, s: seq<T>): (r: seq<T>)
    ensures multiset(r) == multiset(s)
    ensures |r| == |s|
    ensures SortedBy(rank, r)
  {
    if |s| == 0 then []
    else
      assert s == [s[0]] + s[1..];
      Insert(rank, s[0], InsertionSort(rank, s[1..]))
  }

  /** A leading run `top` of a sorted permutation of `s` is a sorted
      sub-multiset of `s`, and no row left out ranks below a row kept. */
  lemma {:induction false} SortedPrefix<T>(rank: T -> Rank, s: seq<T>, ranked: seq<T>, top: seq<T>)
    requires SortedBy(rank, ranked)
    requires multiset(ranked) == multiset(s)
    requires |top| <= |ranked| && top == ranked[..|top|]
    ensures SortedBy(rank, top)
    ensures multiset(top) <= multiset(s)
    ensures forall x :: x in top ==> x in s
    ensures forall y, x :: y in top && x in multiset(s) - multiset(top) ==> RankLe(rank(y), rank(x))
  {
    var k := |top|;
    assert ranked == top + ranked[k..];
    assert multiset(ranked) == multiset(top) + multiset(ranked[k..]);
    forall x | x in top
      ensures x in s
    {
      assert x in multiset(top);
      assert x in multiset(s);
    }
    forall y, x | y in top && x in multiset(s) - multiset(top)
      ensures RankLe(rank(y), rank(x))
    {
      assert x in multiset(ranked[k..]);
      assert x in ranked[k..];
      var j :| k <= j < |ranked| && ranked[j] == x;
      var i :| 0 <= i < k && top[i] == y;
      assert ranked[i] == y;
    }
  }

  /** The first `k` rows of `s` in rank order (all of them if `s` is shorter). */
  function TopK<T>(rank: T -> Rank, s: seq<T>, k: nat): (r: seq<T>)
    ensures |s| < k ==> |r| == |s|
    ensures |s| >= k ==> |r| == k
    ensures SortedBy(rank, r)
    ensures multiset(r) <= multiset(s)
    ensures forall x :: x in r ==> x in s
    ensures forall y, x :: y in r && x in multiset(s) - multiset(r) ==> RankLe(rank(y), rank(x))
  {
    var ranked := InsertionSort(rank, s);
    var top := ranked[..if |s| < k then |s| else k];
    SortedPrefix(rank, s, ranked, top);
    top
  }

  /** A duplicate-free sequence holds each value at most once. */
  lemma {:induction false} DistinctCount<T>(s: seq<T>, x: T)
    requires NoDuplicates(s)
    ensures multiset(s)[x] <= 1
  {
    if |s| > 0 {
      assert s == [s[0]] + s[1..];
      DistinctCount(s[1..], x);
      if s[0] == x {
        assert x !in s[1..];
      }
    }
  }

  /** Reordering a duplicate-free sequence keeps it duplicate-free. */
  lemma PermutationKeepsDistinct<T>(s: seq<T>, r: seq<T>)
    requires NoDuplicates(s)
    requires multiset(r) == multiset(s)
    ensures NoDuplicates(r)
  {
    forall i, j | 0 <= i < j < |r|
      ensures r[i] != r[j]
    {
      if r[i] == r[j] {
        var x := r[i];
        assert r == r[..j] + r[j..];
        assert x in r[..j] && x in r[j..];
        assert multiset(r)[x] == multiset(r[..j])[x] + multiset(r[j..])[x];
        DistinctCount(s, x);
        assert false;
      }
    }
  }

  /** A permutation holds the same rows. */
  lemma PermutationMembers<T>(s: seq<T>, r: seq<T>)
    requires multiset(r) == multiset(s)
    ensures forall x :: x in r <==> x in s
  {
    forall x
      ensures x in r <==> x in s
    {
      assert x in r <==> x in multiset(r);
      assert x in s <==> x in multiset(s);
    }
  }

  /** `r` can be obtained from `s` by deleting rows: its rows occur in `s`
      in the same order. */
  predicate Subsequence<T(==)>(r: seq<T>, s: seq<T>)
    decreases |s|
  {
    if |r| == 0 then true
    else if |s| == 0 then false
    else if r[0] == s[0] then Subsequence(r[1..], s[1..])
    else Subsequence(r, s[1..])
  }

  /** Every row of a subsequence is a row of the sequence it came from. */
  lemma {:induction false} SubsequenceMembers<T>(r: seq<T>, s: seq<T>)
    requires Subsequence(r, s)
    ensures forall x :: x in r ==> x in s
    decreases |s|
  {
    if |r| > 0 {
      if r[0] == s[0] {
        SubsequenceMembers(r[1..], s[1..]);
        assert forall x :: x in r ==> x == r[0] || x in r[1..];
      } else {
        SubsequenceMembers(r, s[1..]);
      }
      assert forall x :: x in s[1..] ==> x in s;
    }
  }

  /** The rows of `s` that satisfy `keep`, in their original order. */
  function Filter<T(!new)>(keep: T -> bool, s: seq<T>): (r: seq<T>)
    ensures |r| <= |s|
    ensures forall x :: x in r <==> x in s && keep(x)
    ensures forall x :: multiset(r)[x] == if keep(x) then multiset(s)[x] else 0
    ensures Subsequence(r, s)
  {
    if |s| == 0 then []
    else
      var rest := Filter(keep, s[1..]);
      assert s == [s[0]] + s[1..];
      assert forall x :: x in s <==> x == s[0] || x in s[1..];
      assert forall x :: multiset(s)[x] == multiset([s[0]])[x] + multiset(s[1..])[x];
      if keep(s[0]) then
        assert ([s[0]] + rest)[1..] == rest;
        [s[0]] + rest
      else
        assert |rest| > 0 ==> rest[0] != s[0] by {
          if |rest| > 0 { assert rest[0] in rest; }
        }
        rest
  }

  /** No two rows share a key. */
  predicate DistinctKeys<T, K(==)>(key: T -> K, s: seq<T>)
  {
    forall i, j :: 0 <= i < j < |s| ==> key(s[i]) != key(s[j])
  }

  /** Reordering keeps keys distinct. */
  lemma PermutationKeepsKeysDistinct<T, K>(key: T -> K, s: seq<T>, r: seq<T>)
    requires DistinctKeys(key, s)
    requires multiset(r) == multiset(s)
    ensures DistinctKeys(key, r)
  {
    assert NoDuplicates(s) by {
      forall i, j | 0 <= i < j < |s|
        ensures s[i] != s[j]
      {
        assert key(s[i]) != key(s[j]);
      }
    }
    PermutationKeepsDistinct(s, r);
    PermutationMembers(s, r);
    forall i, j | 0 <= i < j < |r|
      ensures key(r[i]) != key(r[j])
    {
      assert r[i] in s && r[j] in s;
      var a :| 0 <= a < |s| && s[a] == r[i];
      var b :| 0 <= b < |s| && s[b] == r[j];
      assert a != b;
    }
  }

  /** Filtering keeps a sorted sequence sorted. */
  lemma {:induction false} FilterKeepsOrder<T(!new)>(keep: T -> bool, rank: T -> Rank, s: seq<T>)
    requires SortedBy(rank, s)
    ensures SortedBy(rank, Filter(keep, s))
  {
    if |s| > 0 {
      FilterKeepsOrder(keep, rank, s[1..]);
      var rest := Filter(keep, s[1..]);
      forall k | 0 <= k < |rest|
        ensures RankLe(rank(s[0]), rank(rest[k]))
      {
        assert rest[k] in s[1..];
      }
    }
  }

  /** Filtering keeps keys distinct. */
  lemma {:induction false} FilterKeepsKeysDistinct<T(!new), K>(keep: T -> bool, key: T -> K, s: seq<T>)
    requires DistinctKeys(key, s)
    ensures DistinctKeys(key, Filter(keep, s))
  {
    if |s| > 0 {
      FilterKeepsKeysDistinct(keep, key, s[1..]);
      var rest := Filter(keep, s[1..]);
      forall k | 0 <= k < |rest|
        ensures key(s[0]) != key(rest[k])
      {
        assert rest[k] in s[1..];
      }
    }
  }
}

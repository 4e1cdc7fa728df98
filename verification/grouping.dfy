/** Group-by over a sequence of rows, the sequence form of pandas'
    `groupby(key)`: rows whose key is missing (NaN) belong to no group,
    as pandas drops null keys by default. */
module Grouping {
  import opened Basics

  /** The rows whose key is `k`, in input order. */
  function Group<T, K(==)>(xs: seq<T>, key: T -> Option<K>, k: K): (g: seq<T>)
    ensures |g| <= |xs|
    ensures forall i :: 0 <= i < |g| ==> key(g[i]) == Some(k)
  {
    if |xs| == 0 then []
    else
      Group(xs[..|xs| - 1], key, k) + (if key(xs[|xs| - 1]) == Some(k) then [xs[|xs| - 1]] else [])
  }

  /** Membership in a group is exactly "is a row of the input and carries the key". */
  lemma {:induction false} GroupMembers<T, K>(xs: seq<T>, key: T -> Option<K>, k: K)
    ensures forall x :: x in Group(xs, key, k) <==> x in xs && key(x) == Some(k)
  {
    if |xs| > 0 {
      var init := xs[..|xs| - 1];
      GroupMembers(init, key, k);
      assert xs == init + [xs[|xs| - 1]];
    }
  }

  /** A group holds each row with its key exactly as often as the input does,
      and no other row: group sizes and group means count repeated rows. */
  lemma {:induction false} GroupCount<T, K>(xs: seq<T>, key: T -> Option<K>, k: K, x: T)
    ensures multiset(Group(xs, key, k))[x] == if key(x) == Some(k) then multiset(xs)[x] else 0
  {
    if |xs| > 0 {
      var init := xs[..|xs| - 1];
      GroupCount(init, key, k, x);
      assert xs == init + [xs[|xs| - 1]];
    }
  }

  /** The distinct keys present in `xs`, in order of first appearance. */
  function Keys<T, K(==,!new)>(xs: seq<T>, key: T -> Option<K>): (ks: seq<K>)
    ensures NoDuplicates(ks)
    ensures forall k :: k in ks <==> |Group(xs, key, k)| > 0
  {
    if |xs| == 0 then []
    else
      var ks := Keys(xs[..|xs| - 1], key);
      match key(xs[|xs| - 1])
      case None => ks
      case Some(k) => if k in ks then ks else ks + [k]
  }
}

/** Shared vocabulary of the cash-flow model: optional values, results,
    and the sums, means and extremes the analytics are built from. */
module Basics {

  /** A value that may be absent: a blank cell, an unparseable paid date, a missing vendor. */
  datatype Option<T> = None | Some(value: T)

  /** The outcome of a stage that can refuse its input. */
  datatype Result<T, E> = Success(value: T) | Failure(error: E)

  function Abs(x: real): real
  {
    if x < 0.0 then -x else x
  }

  predicate NoDuplicates<T(==)>(s: seq<T>)
  {
    forall i, j :: 0 <= i < j < |s| ==> s[i] != s[j]
  }

  /** Sum of a sequence of reals, folded from the left. */
  function Sum(s: seq<real>): real
  {
    if |s| == 0 then 0.0 else Sum(s[..|s| - 1]) + s[|s| - 1]
  }

  /** Sum of a sequence of whole numbers, folded from the left. */
  function SumInt(s: seq<int>): int
  {
    if |s| == 0 then 0 else SumInt(s[..|s| - 1]) + s[|s| - 1]
  }

  /** Arithmetic mean, as pandas' `mean` computes it. */
  function Mean(s: seq<real>): real
    requires |s| > 0
  {
    Sum(s) / |s| as real
  }

  /** Arithmetic mean of whole numbers, as a real (Python's true division). */
  function MeanInt(s: seq<int>): real
    requires |s| > 0
  {
    SumInt(s) as real / |s| as real
  }

  /** A sum of values within [lo, hi] lies within n times those bounds. */
  lemma {:induction false} SumIntBounds(s: seq<int>, lo: int, hi: int)
    requires forall i :: 0 <= i < |s| ==> lo <= s[i] <= hi
    ensures |s| * lo <= SumInt(s) <= |s| * hi
  {
    if |s| > 0 {
      SumIntBounds(s[..|s| - 1], lo, hi);
      assert |s| * lo == (|s| - 1) * lo + lo;
      assert |s| * hi == (|s| - 1) * hi + hi;
    }
  }

  /** A mean lies between the smallest and the largest value. */
  lemma MeanIntBounds(s: seq<int>)
    requires |s| > 0
    ensures MinOf(s) as real <= MeanInt(s) <= MaxOf(s) as real
  {
    SumIntBounds(s, MinOf(s), MaxOf(s));
    QuotientBounds(SumInt(s), |s|, MinOf(s), MaxOf(s));
  }

  /** Dividing by a positive count keeps `n * lo <= total <= n * hi` as bounds. */
  lemma QuotientBounds(total: int, n: int, lo: int, hi: int)
    requires n > 0 && n * lo <= total <= n * hi
    ensures lo as real <= total as real / n as real <= hi as real
  {
    var q := total as real / n as real;
    assert q * n as real == total as real;
    assert (n * lo) as real == n as real * lo as real;
    assert (n * hi) as real == n as real * hi as real;
  }

  /** The smallest element of a non-empty sequence. */
  function MinOf(s: seq<int>): (m: int)
    requires |s| > 0
    ensures m in s
    ensures forall i :: 0 <= i < |s| ==> m <= s[i]
  {
    if |s| == 1 then s[0]
    else
      var rest := MinOf(s[1..]);
      if s[0] <= rest then s[0] else rest
  }

  /** The largest element of a non-empty sequence. */
  function MaxOf(s: seq<int>): (m: int)
    requires |s| > 0
    ensures m in s
    ensures forall i :: 0 <= i < |s| ==> s[i] <= m
  {
    if |s| == 1 then s[0]
    else
      var rest := MaxOf(s[1..]);
      if s[0] >= rest then s[0] else rest
  }
}

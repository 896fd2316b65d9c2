/**
 * Column folds over a table of rows: sums, means, percentages, filters and
 * per-key sums and counts. A grouping key is a function `T -> Option<K>`;
 * a row whose key is `None` (a null key) belongs to no group, as in a
 * dataframe group-by that drops null keys.
 */
module Folds {
  import opened Wrappers

  /** Sum of a real-valued column; the empty sum is 0. */
  function Total<T>(xs: seq<T>, f: T -> real): real
  {
    if xs == [] then 0.0 else f(xs[0]) + Total(xs[1..], f)
  }

  /** The constant column 1, whose sum counts rows. */
  function Unit<T>(x: T): real
  {
    1.0
  }

  /** Mean of a column; an empty table has no mean (a dataframe gives NaN). */
  function Mean<T>(xs: seq<T>, f: T -> real): (r: Option<real>)
    ensures r.None? <==> |xs| == 0
    ensures r.Some? ==> r.value * |xs| as real == Total(xs, f)
  {
    if |xs| == 0 then None else Some(Total(xs, f) / |xs| as real)
  }

  /** Mean of a column times 100. */
  function Percent<T>(xs: seq<T>, f: T -> real): (r: Option<real>)
    ensures r.None? <==> |xs| == 0
    ensures r.Some? ==> r.value * |xs| as real == 100.0 * Total(xs, f)
  {
    match Mean(xs, f)
    case None => None
    case Some(m) => Some(m * 100.0)
  }

  /** The rows satisfying `p`, in their original order. */
  function Filter<T>(xs: seq<T>, p: T -> bool): (r: seq<T>)
    ensures |r| <= |xs|
    ensures forall i :: 0 <= i < |r| ==> p(r[i]) && r[i] in xs
    ensures forall i :: 0 <= i < |xs| && p(xs[i]) ==> xs[i] in r
    ensures multiset(r) <= multiset(xs)
  {
    if xs == [] then []
    else
      assert xs == [xs[0]] + xs[1..];
      if p(xs[0]) then [xs[0]] + Filter(xs[1..], p) else Filter(xs[1..], p)
  }

  /** A column holding only the values 0 and 1. */
  predicate IsFlagColumn<T>(xs: seq<T>, f: T -> real)
  {
    forall i :: 0 <= i < |xs| ==> f(xs[i]) == 0.0 || f(xs[i]) == 1.0
  }

  /** Each row is kept as often as it occurs when it satisfies `p`, and never otherwise. */
  lemma {:induction false} FilterMultiplicity<T(!new)>(xs: seq<T>, p: T -> bool)
    ensures forall x :: multiset(Filter(xs, p))[x] == if p(x) then multiset(xs)[x] else 0
  {
    if xs != [] {
      FilterMultiplicity(xs[1..], p);
      assert xs == [xs[0]] + xs[1..];
    }
  }

  /** Filtering a 0/1 column leaves a 0/1 column. */
  lemma FilterKeepsFlagColumn<T>(xs: seq<T>, p: T -> bool, f: T -> real)
    requires IsFlagColumn(xs, f)
    ensures IsFlagColumn(Filter(xs, p), f)
  {
    var r := Filter(xs, p);
    forall i | 0 <= i < |r| ensures f(r[i]) == 0.0 || f(r[i]) == 1.0 {
      var j :| 0 <= j < |xs| && xs[j] == r[i];
    }
  }

  /** Number of rows whose column value is 1. */
  function Ones<T>(xs: seq<T>, f: T -> real): (n: nat)
    ensures n <= |xs|
  {
    if xs == [] then 0 else (if f(xs[0]) == 1.0 then 1 else 0) + Ones(xs[1..], f)
  }

  /** Some row has key `k`. */
  predicate Present<T, K(==)>(xs: seq<T>, key: T -> Option<K>, k: K)
  {
    exists i :: 0 <= i < |xs| && key(xs[i]) == Some(k)
  }

  predicate NoDuplicates<K(==)>(ks: seq<K>)
  {
    forall i, j :: 0 <= i < j < |ks| ==> ks[i] != ks[j]
  }

  /** Size of the group of key `k`. */
  function KeyCount<T, K(==)>(xs: seq<T>, key: T -> Option<K>, k: K): (n: nat)
    ensures n <= |xs|
    ensures n > 0 <==> Present(xs, key, k)
  {
    if xs == [] then 0
    else
      assert forall i :: 0 <= i < |xs| - 1 ==> xs[1..][i] == xs[i + 1];
      (if key(xs[0]) == Some(k) then 1 else 0) + KeyCount(xs[1..], key, k)
  }

  /** Sum of column `f` over the group of key `k`. */
  function KeySum<T, K(==)>(xs: seq<T>, key: T -> Option<K>, k: K, f: T -> real): (r: real)
    ensures !Present(xs, key, k) ==> r == 0.0
  {
    if xs == [] then 0.0
    else
      assert forall i :: 0 <= i < |xs| - 1 ==> xs[1..][i] == xs[i + 1];
      (if key(xs[0]) == Some(k) then f(xs[0]) else 0.0) + KeySum(xs[1..], key, k, f)
  }

  /** The distinct non-null keys, in order of first appearance. */
  function PresentKeys<T, K(==, !new)>(xs: seq<T>, key: T -> Option<K>): (ks: seq<K>)
    ensures NoDuplicates(ks)
    ensures forall k :: k in ks <==> Present(xs, key, k)
  {
    if xs == [] then []
    else
      var front := xs[..|xs| - 1];
      var ks := PresentKeys(front, key);
      assert forall i :: 0 <= i < |front| ==> front[i] == xs[i];
      match key(xs[|xs| - 1])
      case None => ks
      case Some(k) => if k in ks then ks else ks + [k]
  }

  /** Sum of column `f` over the rows whose key is not null. */
  function KeyedTotal<T, K>(xs: seq<T>, key: T -> Option<K>, f: T -> real): real
  {
    if xs == [] then 0.0 else (if key(xs[0]).Some? then f(xs[0]) else 0.0) + KeyedTotal(xs[1..], key, f)
  }

  /** The group sums of the keys `ks`, added up. */
  function SumOverKeys<T, K(==)>(xs: seq<T>, key: T -> Option<K>, ks: seq<K>, f: T -> real): real
  {
    if ks == [] then 0.0 else KeySum(xs, key, ks[0], f) + SumOverKeys(xs, key, ks[1..], f)
  }

  /** What one row contributes to the group sums of the keys `ks`. */
  function RowShare<T, K(==)>(x: T, key: T -> Option<K>, ks: seq<K>, f: T -> real): real
  {
    if ks == [] then 0.0 else (if key(x) == Some(ks[0]) then f(x) else 0.0) + RowShare(x, key, ks[1..], f)
  }

  lemma ScaledStep(lo: real, hi: real, c: real, s: real, v: real)
    requires lo * c <= s <= hi * c
    requires lo <= v <= hi
    ensures lo * (c + 1.0) <= s + v <= hi * (c + 1.0)
    ensures lo * (c + 1.0) <= v + s <= hi * (c + 1.0)
  {
  }

  lemma QuotientBounds(t: real, n: real, lo: real, hi: real)
    requires n > 0.0
    requires lo * n <= t <= hi * n
    ensures lo <= t / n <= hi
  {
  }

  lemma QuotientPercent(t: real, n: real)
    requires n > 0.0
    ensures (t / n) * 100.0 == 100.0 * t / n
  {
  }

  lemma {:induction false} TotalBounds<T>(xs: seq<T>, f: T -> real, lo: real, hi: real)
    requires forall i :: 0 <= i < |xs| ==> lo <= f(xs[i]) <= hi
    ensures lo * |xs| as real <= Total(xs, f) <= hi * |xs| as real
  {
    if xs != [] {
      var rest := xs[1..];
      assert forall i :: 0 <= i < |rest| ==> rest[i] == xs[i + 1];
      TotalBounds(rest, f, lo, hi);
      var c := |rest| as real;
      assert lo <= f(xs[0]) <= hi;
      ScaledStep(lo, hi, c, Total(rest, f), f(xs[0]));
      var n := |xs| as real;
      assert n == c + 1.0;
      assert Total(xs, f) == Total(rest, f) + f(xs[0]);
      assert lo * n <= Total(xs, f) <= hi * n;
    }
  }

  /** A mean lies between the least and the greatest value it averages. */
  lemma MeanBounds<T>(xs: seq<T>, f: T -> real, lo: real, hi: real)
    requires |xs| > 0
    requires forall i :: 0 <= i < |xs| ==> lo <= f(xs[i]) <= hi
    ensures lo <= Mean(xs, f).value <= hi
  {
    TotalBounds(xs, f, lo, hi);
    QuotientBounds(Total(xs, f), |xs| as real, lo, hi);
  }

  /** On a 0/1 column the sum is the number of ones. */
  lemma {:induction false} FlagTotalIsOnes<T>(xs: seq<T>, f: T -> real)
    requires IsFlagColumn(xs, f)
    ensures Total(xs, f) == Ones(xs, f) as real
  {
    if xs != [] {
      assert IsFlagColumn(xs[1..], f) by {
        forall i | 0 <= i < |xs[1..]| ensures f(xs[1..][i]) == 0.0 || f(xs[1..][i]) == 1.0 {
          assert xs[1..][i] == xs[i + 1];
        }
      }
      FlagTotalIsOnes(xs[1..], f);
    }
  }

  /** A percentage is 100 times the column sum over the row count. */
  lemma PercentOfTotal<T>(xs: seq<T>, f: T -> real)
    requires |xs| > 0
    ensures Percent(xs, f).value == 100.0 * Total(xs, f) / |xs| as real
  {
    QuotientPercent(Total(xs, f), |xs| as real);
  }

  /**
   * The percentage of a 0/1 column is 100 times the share of ones, and
   * lies in [0, 100].
   */
  lemma FlagPercent<T>(xs: seq<T>, f: T -> real)
    requires |xs| > 0
    requires IsFlagColumn(xs, f)
    ensures Percent(xs, f) == Some(100.0 * Ones(xs, f) as real / |xs| as real)
    ensures 0.0 <= Percent(xs, f).value <= 100.0
  {
    FlagTotalIsOnes(xs, f);
    MeanBounds(xs, f, 0.0, 1.0);
    PercentOfTotal(xs, f);
  }

  /** Counting rows is summing ones. */
  lemma {:induction false} KeyCountIsSumOfOnes<T, K>(xs: seq<T>, key: T -> Option<K>, k: K)
    ensures KeyCount(xs, key, k) as real == KeySum(xs, key, k, Unit)
  {
    if xs != [] {
      KeyCountIsSumOfOnes(xs[1..], key, k);
    }
  }

  /** A group of a column with values in [0, 1] sums to at most its size. */
  lemma {:induction false} KeySumWithinCount<T, K>(xs: seq<T>, key: T -> Option<K>, k: K, f: T -> real)
    requires forall i :: 0 <= i < |xs| ==> 0.0 <= f(xs[i]) <= 1.0
    ensures 0.0 <= KeySum(xs, key, k, f) <= KeyCount(xs, key, k) as real
  {
    if xs != [] {
      assert forall i :: 0 <= i < |xs[1..]| ==> xs[1..][i] == xs[i + 1];
      KeySumWithinCount(xs[1..], key, k, f);
    }
  }

  /** A group of non-negative values has a non-negative sum. */
  lemma {:induction false} KeySumNonNegative<T, K>(xs: seq<T>, key: T -> Option<K>, k: K, f: T -> real)
    requires forall i :: 0 <= i < |xs| ==> f(xs[i]) >= 0.0
    ensures KeySum(xs, key, k, f) >= 0.0
  {
    if xs != [] {
      assert forall i :: 0 <= i < |xs[1..]| ==> xs[1..][i] == xs[i + 1];
      KeySumNonNegative(xs[1..], key, k, f);
    }
  }

  /** When no key is null, the keyed total is the column total. */
  lemma {:induction false} KeyedTotalAll<T, K>(xs: seq<T>, key: T -> Option<K>, f: T -> real)
    requires forall i :: 0 <= i < |xs| ==> key(xs[i]).Some?
    ensures KeyedTotal(xs, key, f) == Total(xs, f)
  {
    if xs != [] {
      KeyedTotalAll(xs[1..], key, f);
    }
  }

  /** When no key is null, there are as many keyed rows as rows. */
  lemma {:induction false} KeyedCountAll<T, K>(xs: seq<T>, key: T -> Option<K>)
    requires forall i :: 0 <= i < |xs| ==> key(xs[i]).Some?
    ensures KeyedTotal(xs, key, Unit) == |xs| as real
  {
    if xs != [] {
      KeyedCountAll(xs[1..], key);
    }
  }

  lemma {:induction false} SumOverKeysOfEmpty<T, K>(key: T -> Option<K>, ks: seq<K>, f: T -> real)
    ensures SumOverKeys([], key, ks, f) == 0.0
  {
    if ks != [] {
      SumOverKeysOfEmpty(key, ks[1..], f);
    }
  }

  lemma {:induction false} SumOverKeysCons<T, K>(xs: seq<T>, key: T -> Option<K>, ks: seq<K>, f: T -> real)
    requires |xs| > 0
    ensures SumOverKeys(xs, key, ks, f) == RowShare(xs[0], key, ks, f) + SumOverKeys(xs[1..], key, ks, f)
  {
    if ks != [] {
      SumOverKeysCons(xs, key, ks[1..], f);
    }
  }

  /** Over distinct keys, a row counts once if its key is listed and not at all otherwise. */
  lemma {:induction false} RowShareValue<T, K>(x: T, key: T -> Option<K>, ks: seq<K>, f: T -> real)
    requires NoDuplicates(ks)
    ensures RowShare(x, key, ks, f) == if key(x).Some? && key(x).value in ks then f(x) else 0.0
  {
    if ks != [] {
      assert NoDuplicates(ks[1..]) by {
        forall i, j | 0 <= i < j < |ks[1..]| ensures ks[1..][i] != ks[1..][j] {
          assert ks[1..][i] == ks[i + 1] && ks[1..][j] == ks[j + 1];
        }
      }
      RowShareValue(x, key, ks[1..], f);
      if key(x) == Some(ks[0]) {
        assert ks[0] !in ks[1..] by {
          forall j | 0 <= j < |ks[1..]| ensures ks[1..][j] != ks[0] {
            assert ks[1..][j] == ks[j + 1];
          }
        }
      }
    }
  }

  /**
   * Group sums partition the keyed total: over distinct keys that include
   * every key present, the group sums add up to the sum of `f` over all
   * rows whose key is not null.
   */
  lemma {:induction false} PartitionByKeys<T, K>(xs: seq<T>, key: T -> Option<K>, ks: seq<K>, f: T -> real)
    requires NoDuplicates(ks)
    requires forall k :: Present(xs, key, k) ==> k in ks
    ensures SumOverKeys(xs, key, ks, f) == KeyedTotal(xs, key, f)
  {
    if xs == [] {
      SumOverKeysOfEmpty(key, ks, f);
    } else {
      SumOverKeysCons(xs, key, ks, f);
      RowShareValue(xs[0], key, ks, f);
      if key(xs[0]).Some? {
        assert Present(xs, key, key(xs[0]).value);
      }
      forall k | Present(xs[1..], key, k) ensures k in ks {
        var i :| 0 <= i < |xs[1..]| && key(xs[1..][i]) == Some(k);
        assert key(xs[i + 1]) == Some(k);
      }
      PartitionByKeys(xs[1..], key, ks, f);
    }
  }
}

/**
 * Keyed values (one row of an aggregated series), ordering them by value,
 * keeping the first n, and finding the key of the largest or smallest value.
 */
module Ranking {

  /** One row of an aggregated result: a group key and its value. */
  datatype Entry<K> = Entry(key: K, value: real)

  predicate SortedDesc<K>(s: seq<Entry<K>>)
  {
    forall i, j :: 0 <= i < j < |s| ==> s[i].value >= s[j].value
  }

  predicate DistinctKeys<K(==)>(s: seq<Entry<K>>)
  {
    forall i, j :: 0 <= i < j < |s| ==> s[i].key != s[j].key
  }

  /** Sum of the values. */
  function ValueSum<K>(s: seq<Entry<K>>): real
  {
    if s == [] then 0.0 else s[0].value + ValueSum(s[1..])
  }

  /** Inserts `x` into a descending sequence, ahead of the entries it ties with. */
  function Insert<K(==)>(x: Entry<K>, s: seq<Entry<K>>): (r: seq<Entry<K>>)
    ensures |r| == |s| + 1
    ensures multiset(r) == multiset(s) + multiset{x}
    ensures SortedDesc(s) ==> SortedDesc(r)
    ensures ValueSum(r) == x.value + ValueSum(s)
  {
    if s == [] || x.value >= s[0].value then [x] + s
    else
      assert s == [s[0]] + s[1..];
      [s[0]] + Insert(x, s[1..])
  }

  /** Orders entries by non-increasing value (a descending `sort_values`). */
  function SortDesc<K(==)>(s: seq<Entry<K>>): (r: seq<Entry<K>>)
    ensures |r| == |s|
    ensures multiset(r) == multiset(s)
    ensures SortedDesc(r)
    ensures ValueSum(r) == ValueSum(s)
  {
    if s == [] then []
    else
      assert s == [s[0]] + s[1..];
      Insert(s[0], SortDesc(s[1..]))
  }

  /** The first `n` entries, or all of them when there are fewer (`head(n)`). */
  function Head<K>(s: seq<Entry<K>>, n: nat): (r: seq<Entry<K>>)
    ensures |r| <= n && |r| <= |s|
    ensures |r| == n || |r| == |s|
    ensures forall i :: 0 <= i < |r| ==> r[i] == s[i]
  {
    if |s| <= n then s else s[..n]
  }

  /** Index of the first largest value (`idxmax`). */
  function ArgMax<K>(s: seq<Entry<K>>): (i: nat)
    requires |s| > 0
    ensures i < |s|
    ensures forall j :: 0 <= j < |s| ==> s[j].value <= s[i].value
    ensures forall j :: 0 <= j < i ==> s[j].value < s[i].value
  {
    if |s| == 1 then 0
    else
      var b := ArgMax(s[..|s| - 1]);
      if s[|s| - 1].value > s[b].value then |s| - 1 else b
  }

  /** Index of the first smallest value (`idxmin`). */
  function ArgMin<K>(s: seq<Entry<K>>): (i: nat)
    requires |s| > 0
    ensures i < |s|
    ensures forall j :: 0 <= j < |s| ==> s[i].value <= s[j].value
    ensures forall j :: 0 <= j < i ==> s[i].value < s[j].value
  {
    if |s| == 1 then 0
    else
      var b := ArgMin(s[..|s| - 1]);
      if s[|s| - 1].value < s[b].value then |s| - 1 else b
  }

  /** Sorting keeps keys distinct. */
  lemma {:induction false} SortDescKeepsKeys<K>(s: seq<Entry<K>>)
    requires DistinctKeys(s)
    ensures DistinctKeys(SortDesc(s))
  {
    var r := SortDesc(s);
    forall i, j | 0 <= i < j < |r| ensures r[i].key != r[j].key {
      if r[i].key == r[j].key {
        DuplicateKey(r, s, i, j);
      }
    }
  }

  /**
   * Two positions of `r` with the same key give two positions of any
   * permutation `s` of `r` with the same key.
   */
  lemma DuplicateKey<K>(r: seq<Entry<K>>, s: seq<Entry<K>>, i: nat, j: nat)
    requires i < j < |r| && r[i].key == r[j].key
    requires multiset(r) == multiset(s)
    ensures !DistinctKeys(s)
  {
    if r[i] == r[j] {
      assert multiset(r)[r[i]] >= 2 by {
        assert r == r[..i] + [r[i]] + r[i + 1..j] + [r[j]] + r[j + 1..];
      }
      var a :| 0 <= a < |s| && s[a] == r[i];
      assert multiset(s[..a] + s[a + 1..])[r[i]] >= 1 by {
        assert s == s[..a] + [s[a]] + s[a + 1..];
      }
      var b :| 0 <= b < |s[..a] + s[a + 1..]| && (s[..a] + s[a + 1..])[b] == r[i];
      if b < a {
        assert s[b] == r[i];
        assert s[b].key == s[a].key;
      } else {
        assert s[b + 1] == r[i];
        assert s[a].key == s[b + 1].key;
      }
    } else {
      assert r[i] in multiset(s) && r[j] in multiset(s);
      var a :| 0 <= a < |s| && s[a] == r[i];
      var b :| 0 <= b < |s| && s[b] == r[j];
      assert a != b;
      if a < b {
        assert s[a].key == s[b].key;
      } else {
        assert s[b].key == s[a].key;
      }
    }
  }

  /** Keeping a prefix of non-negative values cannot increase the sum. */
  lemma {:induction false} PrefixSumAtMost<K>(s: seq<Entry<K>>, n: nat)
    requires n <= |s|
    requires forall i :: 0 <= i < |s| ==> s[i].value >= 0.0
    ensures ValueSum(s[..n]) <= ValueSum(s)
  {
    if n == 0 {
      ValueSumNonNegative(s);
    } else {
      assert s[..n][1..] == s[1..][..n - 1];
      PrefixSumAtMost(s[1..], n - 1);
    }
  }

  lemma {:induction false} ValueSumNonNegative<K>(s: seq<Entry<K>>)
    requires forall i :: 0 <= i < |s| ==> s[i].value >= 0.0
    ensures ValueSum(s) >= 0.0
  {
    if s != [] {
      ValueSumNonNegative(s[1..]);
    }
  }

  /** Sorting keeps every value non-negative when all were. */
  lemma SortDescKeepsSigns<K>(s: seq<Entry<K>>)
    requires forall i :: 0 <= i < |s| ==> s[i].value >= 0.0
    ensures forall i :: 0 <= i < |SortDesc(s)| ==> SortDesc(s)[i].value >= 0.0
  {
    var r := SortDesc(s);
    forall i | 0 <= i < |r| ensures r[i].value >= 0.0 {
      assert r[i] in multiset(s);
    }
  }
}

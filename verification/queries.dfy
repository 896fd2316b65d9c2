/**
 * The dashboard's aggregation queries over the enriched table. Each is a
 * pure function of the table; means and percentages of an empty table are
 * `None` (a dataframe gives NaN), and group-bys leave out rows whose key is
 * null.
 */
module Queries {
  import opened Wrappers
  import opened Enrichment
  import opened Folds
  import opened Ranking

  // Columns read by the queries.

  function Revenue(e: Enriched): real { e.totalRevenue }
  function Canceled(e: Enriched): real { e.row.isCanceled as real }
  function Repeated(e: Enriched): real { e.row.isRepeatedGuest as real }
  function Family(e: Enriched): real { e.isFamily as real }
  function Direct(e: Enriched): real { e.isDirect as real }
  function Stays(e: Enriched): real { e.totalStays as real }
  function Adr(e: Enriched): real { e.row.adr }

  // Grouping keys; `None` is a null key.

  function SeasonKey(e: Enriched): Option<Season> { e.season }
  function ChannelKey(e: Enriched): Option<int> { Some(e.isDirect) }
  function RepeatKey(e: Enriched): Option<int> { Some(e.row.isRepeatedGuest) }
  function FamilyKey(e: Enriched): Option<int> { Some(e.isFamily) }
  function DepositKey(e: Enriched): Option<string> { Some(e.row.depositType) }
  function CustomerKey(e: Enriched): Option<string> { Some(e.row.customerType) }
  function CountryKey(e: Enriched): Option<string> { Some(e.row.country) }

  /** Seasons in the order of their names, the order of a grouped season index. */
  const SeasonOrder: seq<Season> := [Fall, Spring, Summer, Winter]

  /** Bookings made more than 150 days ahead. */
  predicate IsLongLead(e: Enriched) { e.row.leadTime > 150 }

  /**
   * Group-by-sum: one entry per key of `order` that some row has, holding
   * the sum of `f` over that key's rows.
   */
  function GroupSums<T, K(==, !new)>(xs: seq<T>, key: T -> Option<K>, order: seq<K>, f: T -> real): (r: seq<Entry<K>>)
    ensures |r| <= |order|
    ensures forall i :: 0 <= i < |r| ==>
      r[i].key in order && Present(xs, key, r[i].key) && r[i].value == KeySum(xs, key, r[i].key, f)
    ensures forall k :: k in order && Present(xs, key, k) ==> Entry(k, KeySum(xs, key, k, f)) in r
    ensures NoDuplicates(order) ==> DistinctKeys(r)
    ensures (forall k :: k in order ==> Present(xs, key, k)) ==> |r| == |order|
    ensures ValueSum(r) == SumOverKeys(xs, key, order, f)
  {
    if order == [] then []
    else
      var rest := GroupSums(xs, key, order[1..], f);
      assert NoDuplicates(order) ==> NoDuplicates(order[1..]) && order[0] !in order[1..];
      if Present(xs, key, order[0]) then [Entry(order[0], KeySum(xs, key, order[0], f))] + rest
      else rest
  }

  /** Mean of `f` over the (non-empty) group of key `k`. */
  function GroupMean<T, K(==)>(xs: seq<T>, key: T -> Option<K>, k: K, f: T -> real): (m: real)
    requires Present(xs, key, k)
    ensures m * KeyCount(xs, key, k) as real == KeySum(xs, key, k, f)
  {
    var n := KeyCount(xs, key, k) as real;
    QuotientTimes(KeySum(xs, key, k, f), n);
    KeySum(xs, key, k, f) / n
  }

  /**
   * Group-by-mean: one entry per key of `order` that some row has, holding
   * the mean of `f` over that key's rows (never an empty group).
   */
  function GroupMeans<T, K(==, !new)>(xs: seq<T>, key: T -> Option<K>, order: seq<K>, f: T -> real): (r: seq<Entry<K>>)
    ensures |r| <= |order|
    ensures forall i :: 0 <= i < |r| ==>
      r[i].key in order && Present(xs, key, r[i].key) && r[i].value == GroupMean(xs, key, r[i].key, f)
    ensures forall k :: k in order && Present(xs, key, k) ==> Entry(k, GroupMean(xs, key, k, f)) in r
    ensures NoDuplicates(order) ==> DistinctKeys(r)
  {
    if order == [] then []
    else
      var rest := GroupMeans(xs, key, order[1..], f);
      assert NoDuplicates(order) ==> NoDuplicates(order[1..]) && order[0] !in order[1..];
      if Present(xs, key, order[0]) then [Entry(order[0], GroupMean(xs, key, order[0], f))] + rest
      else rest
  }

  lemma EverySeasonOrdered()
    ensures forall s: Season :: s in SeasonOrder
  {
    forall s: Season ensures s in SeasonOrder {
      match s
      case Fall => assert SeasonOrder[0] == s;
      case Spring => assert SeasonOrder[1] == s;
      case Summer => assert SeasonOrder[2] == s;
      case Winter => assert SeasonOrder[3] == s;
    }
  }

  lemma QuotientTimes(t: real, n: real)
    requires n > 0.0
    ensures (t / n) * n == t
  {
  }

  /** The four headline metrics of the overview page. */
  datatype Headline = Headline(
    totalBookings: nat,
    cancellationRate: Option<real>,
    averageStay: Option<real>,
    averageAdr: Option<real>)

  function Overview(rows: seq<Enriched>): (h: Headline)
    ensures h.totalBookings == |rows|
    ensures h.cancellationRate.None? <==> |rows| == 0
    ensures h.averageStay.None? <==> |rows| == 0
    ensures h.averageAdr.None? <==> |rows| == 0
    ensures h.cancellationRate.Some? ==> h.cancellationRate.value * |rows| as real == 100.0 * Total(rows, Canceled)
    ensures h.averageStay.Some? ==> h.averageStay.value * |rows| as real == Total(rows, Stays)
    ensures h.averageAdr.Some? ==> h.averageAdr.value * |rows| as real == Total(rows, Adr)
  {
    Headline(|rows|, Percent(rows, Canceled), Mean(rows, Stays), Mean(rows, Adr))
  }

  /** Mean revenue of new and of repeat guests. */
  function RevenueByGuestType(rows: seq<Enriched>): (r: seq<Entry<int>>)
    ensures DistinctKeys(r)
    ensures forall i :: 0 <= i < |r| ==>
      Present(rows, RepeatKey, r[i].key) && r[i].value == GroupMean(rows, RepeatKey, r[i].key, Revenue)
    ensures forall k :: Present(rows, RepeatKey, k) ==> Entry(k, GroupMean(rows, RepeatKey, k, Revenue)) in r
  {
    GroupMeans(rows, RepeatKey, PresentKeys(rows, RepeatKey), Revenue)
  }

  /** Mean revenue of family and of non-family bookings. */
  function RevenueByFamily(rows: seq<Enriched>): (r: seq<Entry<int>>)
    ensures DistinctKeys(r)
    ensures forall i :: 0 <= i < |r| ==>
      Present(rows, FamilyKey, r[i].key) && r[i].value == GroupMean(rows, FamilyKey, r[i].key, Revenue)
    ensures forall k :: Present(rows, FamilyKey, k) ==> Entry(k, GroupMean(rows, FamilyKey, k, Revenue)) in r
  {
    GroupMeans(rows, FamilyKey, PresentKeys(rows, FamilyKey), Revenue)
  }

  /** Cancellation rate (mean of `is_canceled`) per deposit type. */
  function CancellationByDeposit(rows: seq<Enriched>): (r: seq<Entry<string>>)
    ensures DistinctKeys(r)
    ensures forall i :: 0 <= i < |r| ==>
      Present(rows, DepositKey, r[i].key) && r[i].value == GroupMean(rows, DepositKey, r[i].key, Canceled)
    ensures forall k :: Present(rows, DepositKey, k) ==> Entry(k, GroupMean(rows, DepositKey, k, Canceled)) in r
  {
    GroupMeans(rows, DepositKey, PresentKeys(rows, DepositKey), Canceled)
  }

  /** Number of bookings per customer type, largest first. */
  function CustomerTypeCounts(rows: seq<Enriched>): (r: seq<Entry<string>>)
    ensures SortedDesc(r)
    ensures |r| == |PresentKeys(rows, CustomerKey)|
  {
    SortDesc(GroupSums(rows, CustomerKey, PresentKeys(rows, CustomerKey), Unit))
  }

  /** Total revenue per season, for the seasons some booking has. */
  function RevenueBySeason(rows: seq<Enriched>): (r: seq<Entry<Season>>)
    ensures DistinctKeys(r)
    ensures forall i :: 0 <= i < |r| ==>
      Present(rows, SeasonKey, r[i].key) && r[i].value == KeySum(rows, SeasonKey, r[i].key, Revenue)
    ensures forall s: Season :: Present(rows, SeasonKey, s) ==> Entry(s, KeySum(rows, SeasonKey, s, Revenue)) in r
  {
    EverySeasonOrdered();
    GroupSums(rows, SeasonKey, SeasonOrder, Revenue)
  }

  /** Total revenue of indirect (0) and direct (1) bookings. */
  function RevenueByChannel(rows: seq<Enriched>): (r: seq<Entry<int>>)
    ensures DistinctKeys(r)
    ensures forall i :: 0 <= i < |r| ==>
      Present(rows, ChannelKey, r[i].key) && r[i].value == KeySum(rows, ChannelKey, r[i].key, Revenue)
    ensures forall k :: Present(rows, ChannelKey, k) ==> Entry(k, KeySum(rows, ChannelKey, k, Revenue)) in r
  {
    GroupSums(rows, ChannelKey, PresentKeys(rows, ChannelKey), Revenue)
  }

  /** Total revenue per country, one entry per country. */
  function CountryRevenue(rows: seq<Enriched>): (r: seq<Entry<string>>)
    ensures DistinctKeys(r)
    ensures forall i :: 0 <= i < |r| ==>
      Present(rows, CountryKey, r[i].key) && r[i].value == KeySum(rows, CountryKey, r[i].key, Revenue)
    ensures forall c :: Present(rows, CountryKey, c) ==> Entry(c, KeySum(rows, CountryKey, c, Revenue)) in r
  {
    GroupSums(rows, CountryKey, PresentKeys(rows, CountryKey), Revenue)
  }

  /** The ten countries with the largest total revenue, largest first. */
  function TopCountries(rows: seq<Enriched>): (r: seq<Entry<string>>)
    ensures |r| <= 10
    ensures SortedDesc(r)
  {
    Head(SortDesc(CountryRevenue(rows)), 10)
  }

  /** Cancellation percentage among bookings made more than 150 days ahead. */
  function LongLeadCancelRate(rows: seq<Enriched>): (r: Option<real>)
    ensures r.None? <==> forall i :: 0 <= i < |rows| ==> rows[i].row.leadTime <= 150
  {
    var long := Filter(rows, IsLongLead);
    assert |long| > 0 ==> IsLongLead(long[0]) && long[0] in rows;
    Percent(long, Canceled)
  }

  /** Percentage of bookings by repeat guests. */
  function RepeatGuestRate(rows: seq<Enriched>): (r: Option<real>)
    ensures r.None? <==> |rows| == 0
    ensures r.Some? ==> r.value * |rows| as real == 100.0 * Total(rows, Repeated)
  {
    Percent(rows, Repeated)
  }

  /** Percentage of family bookings. */
  function FamilyShare(rows: seq<Enriched>): (r: Option<real>)
    ensures r.None? <==> |rows| == 0
    ensures r.Some? ==> r.value * |rows| as real == 100.0 * Total(rows, Family)
  {
    Percent(rows, Family)
  }

  /** Percentage of direct bookings. */
  function DirectShare(rows: seq<Enriched>): (r: Option<real>)
    ensures r.None? <==> |rows| == 0
    ensures r.Some? ==> r.value * |rows| as real == 100.0 * Total(rows, Direct)
  {
    Percent(rows, Direct)
  }

  /** The season with the largest revenue, and that revenue (`idxmax`, `max`). */
  function PeakSeason(rows: seq<Enriched>): (r: Option<Entry<Season>>)
    ensures r.None? <==> forall s: Season :: !Present(rows, SeasonKey, s)
    ensures r.Some? ==>
      Present(rows, SeasonKey, r.value.key) && r.value.value == KeySum(rows, SeasonKey, r.value.key, Revenue)
    ensures r.Some? ==> forall s: Season :: Present(rows, SeasonKey, s) ==> KeySum(rows, SeasonKey, s, Revenue) <= r.value.value
  {
    var sums := RevenueBySeason(rows);
    if |sums| == 0 then None else Some(sums[ArgMax(sums)])
  }

  /** The season with the smallest revenue, and that revenue (`idxmin`, `min`). */
  function LowSeason(rows: seq<Enriched>): (r: Option<Entry<Season>>)
    ensures r.None? <==> forall s: Season :: !Present(rows, SeasonKey, s)
    ensures r.Some? ==>
      Present(rows, SeasonKey, r.value.key) && r.value.value == KeySum(rows, SeasonKey, r.value.key, Revenue)
    ensures r.Some? ==> forall s: Season :: Present(rows, SeasonKey, s) ==> r.value.value <= KeySum(rows, SeasonKey, s, Revenue)
  {
    var sums := RevenueBySeason(rows);
    if |sums| == 0 then None else Some(sums[ArgMin(sums)])
  }

  /** Over the keys present, group sums add up to the total of the rows with a non-null key. */
  lemma GroupSumsPartition<T, K(!new)>(xs: seq<T>, key: T -> Option<K>, f: T -> real)
    ensures ValueSum(GroupSums(xs, key, PresentKeys(xs, key), f)) == KeyedTotal(xs, key, f)
  {
    PartitionByKeys(xs, key, PresentKeys(xs, key), f);
  }

  /**
   * The season sums add up to the revenue of the bookings whose month has a
   * season; when every month is a known month name, that is all revenue.
   */
  lemma SeasonRevenuePartition(rows: seq<Enriched>)
    ensures ValueSum(RevenueBySeason(rows)) == KeyedTotal(rows, SeasonKey, Revenue)
    ensures EnrichedTable(rows) && (forall i :: 0 <= i < |rows| ==> rows[i].row.arrivalDateMonth in Months) ==>
      ValueSum(RevenueBySeason(rows)) == Total(rows, Revenue)
  {
    EverySeasonOrdered();
    PartitionByKeys(rows, SeasonKey, SeasonOrder, Revenue);
    if EnrichedTable(rows) && (forall i :: 0 <= i < |rows| ==> rows[i].row.arrivalDateMonth in Months) {
      forall i | 0 <= i < |rows| ensures SeasonKey(rows[i]).Some? {
        assert IsEnriched(rows[i]);
      }
      KeyedTotalAll(rows, SeasonKey, Revenue);
    }
  }

  /**
   * The channel sums add up to the revenue of all bookings, and on an
   * enriched table the only channel keys are 0 (indirect) and 1 (direct).
   */
  lemma ChannelRevenuePartition(rows: seq<Enriched>)
    ensures ValueSum(RevenueByChannel(rows)) == Total(rows, Revenue)
    ensures EnrichedTable(rows) ==> forall i :: 0 <= i < |RevenueByChannel(rows)| ==>
      RevenueByChannel(rows)[i].key == 0 || RevenueByChannel(rows)[i].key == 1
  {
    GroupSumsPartition(rows, ChannelKey, Revenue);
    KeyedTotalAll(rows, ChannelKey, Revenue);
    if EnrichedTable(rows) {
      var r := RevenueByChannel(rows);
      forall i | 0 <= i < |r| ensures r[i].key == 0 || r[i].key == 1 {
        var j :| 0 <= j < |rows| && ChannelKey(rows[j]) == Some(r[i].key);
        assert IsEnriched(rows[j]);
      }
    }
  }

  /**
   * The customer-type counts: one entry per customer type present, holding
   * its number of bookings, and the counts add up to the number of bookings.
   */
  lemma CustomerTypeCountsSpec(rows: seq<Enriched>)
    ensures DistinctKeys(CustomerTypeCounts(rows))
    ensures forall i :: 0 <= i < |CustomerTypeCounts(rows)| ==>
      Present(rows, CustomerKey, CustomerTypeCounts(rows)[i].key)
      && CustomerTypeCounts(rows)[i].value == KeyCount(rows, CustomerKey, CustomerTypeCounts(rows)[i].key) as real
    ensures forall t :: Present(rows, CustomerKey, t) ==>
      Entry(t, KeyCount(rows, CustomerKey, t) as real) in CustomerTypeCounts(rows)
    ensures ValueSum(CustomerTypeCounts(rows)) == |rows| as real
  {
    var g := GroupSums(rows, CustomerKey, PresentKeys(rows, CustomerKey), Unit);
    var r := CustomerTypeCounts(rows);
    SortDescKeepsKeys(g);
    forall i | 0 <= i < |r|
      ensures Present(rows, CustomerKey, r[i].key) && r[i].value == KeyCount(rows, CustomerKey, r[i].key) as real
    {
      assert r[i] in multiset(g);
      KeyCountIsSumOfOnes(rows, CustomerKey, r[i].key);
    }
    forall t | Present(rows, CustomerKey, t) ensures Entry(t, KeyCount(rows, CustomerKey, t) as real) in r {
      KeyCountIsSumOfOnes(rows, CustomerKey, t);
      assert Entry(t, KeySum(rows, CustomerKey, t, Unit)) in multiset(r);
    }
    GroupSumsPartition(rows, CustomerKey, Unit);
    KeyedCountAll(rows, CustomerKey);
  }

  /** Each kept country appears once, with its total revenue. */
  lemma TopCountriesAreCountryTotals(rows: seq<Enriched>)
    ensures DistinctKeys(TopCountries(rows))
    ensures forall i :: 0 <= i < |TopCountries(rows)| ==>
      Present(rows, CountryKey, TopCountries(rows)[i].key)
      && TopCountries(rows)[i].value == KeySum(rows, CountryKey, TopCountries(rows)[i].key, Revenue)
    ensures |TopCountries(rows)| < 10 ==> forall c :: Present(rows, CountryKey, c) ==>
      Entry(c, KeySum(rows, CountryKey, c, Revenue)) in TopCountries(rows)
  {
    var g := CountryRevenue(rows);
    var sorted := SortDesc(g);
    var top := TopCountries(rows);
    SortDescKeepsKeys(g);
    forall i | 0 <= i < |top|
      ensures Present(rows, CountryKey, top[i].key) && top[i].value == KeySum(rows, CountryKey, top[i].key, Revenue)
    {
      assert top[i] == sorted[i];
      assert sorted[i] in multiset(g);
    }
    if |top| < 10 {
      assert top == sorted;
      forall c | Present(rows, CountryKey, c) ensures Entry(c, KeySum(rows, CountryKey, c, Revenue)) in top {
        assert Entry(c, KeySum(rows, CountryKey, c, Revenue)) in multiset(sorted);
      }
    }
  }

  /**
   * No country left out of the top ten has more revenue than the last one
   * kept; a country is only left out when ten are kept.
   */
  lemma TopCountriesOmitNoLarger(rows: seq<Enriched>, c: string)
    requires Present(rows, CountryKey, c)
    requires forall i :: 0 <= i < |TopCountries(rows)| ==> TopCountries(rows)[i].key != c
    ensures |TopCountries(rows)| == 10
    ensures KeySum(rows, CountryKey, c, Revenue) <= TopCountries(rows)[9].value
  {
    var g := CountryRevenue(rows);
    var sorted := SortDesc(g);
    var top := TopCountries(rows);
    var e := Entry(c, KeySum(rows, CountryKey, c, Revenue));
    assert e in multiset(sorted);
    var j :| 0 <= j < |sorted| && sorted[j] == e;
    assert forall i :: 0 <= i < |top| ==> sorted[i].key != c;
    assert j >= |top|;
    assert |top| == 10;
    assert sorted[9] == top[9];
  }

  /**
   * When no booking has negative revenue, the top ten countries together
   * hold at most the total revenue.
   */
  lemma TopCountriesWithinTotal(rows: seq<Enriched>)
    requires forall i :: 0 <= i < |rows| ==> rows[i].totalRevenue >= 0.0
    ensures ValueSum(TopCountries(rows)) <= Total(rows, Revenue)
  {
    var sorted := SortDesc(CountryRevenue(rows));
    CountryRevenueNonNegative(rows);
    SortDescKeepsSigns(CountryRevenue(rows));
    PrefixSumAtMost(sorted, |TopCountries(rows)|);
    assert TopCountries(rows) == sorted[..|TopCountries(rows)|];
    GroupSumsPartition(rows, CountryKey, Revenue);
    KeyedTotalAll(rows, CountryKey, Revenue);
  }

  lemma CountryRevenueNonNegative(rows: seq<Enriched>)
    requires forall i :: 0 <= i < |rows| ==> rows[i].totalRevenue >= 0.0
    ensures forall i :: 0 <= i < |CountryRevenue(rows)| ==> CountryRevenue(rows)[i].value >= 0.0
  {
    var g := CountryRevenue(rows);
    forall i | 0 <= i < |g| ensures g[i].value >= 0.0 {
      KeySumNonNegative(rows, CountryKey, g[i].key, Revenue);
    }
  }

  /**
   * On a 0/1 `is_canceled` column, the long-lead rate is 100 times the
   * share of canceled bookings among those made more than 150 days ahead,
   * and lies in [0, 100].
   */
  lemma LongLeadCancelRateSpec(rows: seq<Enriched>)
    requires IsFlagColumn(rows, Canceled)
    requires exists i :: 0 <= i < |rows| && rows[i].row.leadTime > 150
    ensures var long := Filter(rows, IsLongLead);
      |long| > 0
      && LongLeadCancelRate(rows) == Some(100.0 * Ones(long, Canceled) as real / |long| as real)
      && 0.0 <= LongLeadCancelRate(rows).value <= 100.0
  {
    var long := Filter(rows, IsLongLead);
    FilterKeepsFlagColumn(rows, IsLongLead, Canceled);
    FlagPercent(long, Canceled);
  }

  /** After enrichment the family and direct flags are 0/1 columns. */
  lemma FlagColumns(rows: seq<Enriched>)
    requires EnrichedTable(rows)
    ensures IsFlagColumn(rows, Family) && IsFlagColumn(rows, Direct)
  {
    forall i | 0 <= i < |rows|
      ensures Family(rows[i]) == 0.0 || Family(rows[i]) == 1.0
      ensures Direct(rows[i]) == 0.0 || Direct(rows[i]) == 1.0
    {
      assert IsEnriched(rows[i]);
    }
  }

  /**
   * The family share is the percentage of bookings with a child or a baby
   * (on an enriched table the column is 0/1 by `FlagColumns`).
   */
  lemma FamilyShareSpec(rows: seq<Enriched>)
    requires IsFlagColumn(rows, Family)
    requires |rows| > 0
    ensures FamilyShare(rows) == Some(100.0 * Ones(rows, Family) as real / |rows| as real)
    ensures 0.0 <= FamilyShare(rows).value <= 100.0
  {
    FlagPercent(rows, Family);
  }

  /** The direct share is the percentage of bookings made through the "Direct" channel. */
  lemma DirectShareSpec(rows: seq<Enriched>)
    requires IsFlagColumn(rows, Direct)
    requires |rows| > 0
    ensures DirectShare(rows) == Some(100.0 * Ones(rows, Direct) as real / |rows| as real)
    ensures 0.0 <= DirectShare(rows).value <= 100.0
  {
    FlagPercent(rows, Direct);
  }

  /** On a 0/1 `is_canceled` column the overall cancellation rate lies in [0, 100]. */
  lemma CancellationRateBounds(rows: seq<Enriched>)
    requires IsFlagColumn(rows, Canceled)
    requires |rows| > 0
    ensures Overview(rows).cancellationRate == Some(100.0 * Ones(rows, Canceled) as real / |rows| as real)
    ensures 0.0 <= Overview(rows).cancellationRate.value <= 100.0
  {
    FlagPercent(rows, Canceled);
  }

  /** On a 0/1 `is_repeated_guest` column the repeat-guest rate lies in [0, 100]. */
  lemma RepeatGuestRateBounds(rows: seq<Enriched>)
    requires IsFlagColumn(rows, Repeated)
    requires |rows| > 0
    ensures RepeatGuestRate(rows) == Some(100.0 * Ones(rows, Repeated) as real / |rows| as real)
    ensures 0.0 <= RepeatGuestRate(rows).value <= 100.0
  {
    FlagPercent(rows, Repeated);
  }

  /** On a 0/1 `is_canceled` column every deposit type's cancellation rate lies in [0, 1]. */
  lemma DepositRatesBounded(rows: seq<Enriched>)
    requires IsFlagColumn(rows, Canceled)
    ensures forall i :: 0 <= i < |CancellationByDeposit(rows)| ==>
      0.0 <= CancellationByDeposit(rows)[i].value <= 1.0
  {
    var r := CancellationByDeposit(rows);
    forall i | 0 <= i < |r| ensures 0.0 <= r[i].value <= 1.0 {
      var k := r[i].key;
      KeySumWithinCount(rows, DepositKey, k, Canceled);
      QuotientBounds(KeySum(rows, DepositKey, k, Canceled), KeyCount(rows, DepositKey, k) as real, 0.0, 1.0);
    }
  }

  /** Leads of 100, 200 and 300 days, the last two canceled: the long-lead rate is 100%. */
  lemma LongLeadExample(x: Enriched, y: Enriched, z: Enriched)
    requires x.row.leadTime == 100 && x.row.isCanceled == 0
    requires y.row.leadTime == 200 && y.row.isCanceled == 1
    requires z.row.leadTime == 300 && z.row.isCanceled == 1
    ensures LongLeadCancelRate([x, y, z]) == Some(100.0)
  {
    var rows := [x, y, z];
    assert rows[1..] == [y, z] && [y, z][1..] == [z] && [z][1..] == [];
    assert Filter([z], IsLongLead) == [z];
    assert Filter([y, z], IsLongLead) == [y, z];
    assert Filter(rows, IsLongLead) == [y, z];
    assert Total([z], Canceled) == 1.0;
    assert Total([y, z], Canceled) == 2.0;
    assert Mean([y, z], Canceled) == Some(1.0);
  }

  /** A December booking worth 50 and a July booking worth 200, grouped by season. */
  lemma SeasonExample(x: Enriched, y: Enriched)
    requires x.season == Some(Winter) && x.totalRevenue == 50.0
    requires y.season == Some(Summer) && y.totalRevenue == 200.0
    ensures RevenueBySeason([x, y]) == [Entry(Summer, 200.0), Entry(Winter, 50.0)]
  {
    var rows := [x, y];
    assert rows[1..] == [y] && [y][1..] == [];
    assert !Present(rows, SeasonKey, Fall) && !Present(rows, SeasonKey, Spring);
    assert SeasonKey(rows[1]) == Some(Summer) && SeasonKey(rows[0]) == Some(Winter);
    assert KeySum([y], SeasonKey, Summer, Revenue) == 200.0;
    assert KeySum(rows, SeasonKey, Summer, Revenue) == 200.0;
    assert KeySum([y], SeasonKey, Winter, Revenue) == 0.0;
    assert KeySum(rows, SeasonKey, Winter, Revenue) == 50.0;
    assert SeasonOrder[1..] == [Spring, Summer, Winter];
    assert [Spring, Summer, Winter][1..] == [Summer, Winter];
    assert [Summer, Winter][1..] == [Winter] && [Winter][1..] == [];
    assert GroupSums(rows, SeasonKey, [Winter], Revenue) == [Entry(Winter, 50.0)];
    assert GroupSums(rows, SeasonKey, [Summer, Winter], Revenue) == [Entry(Summer, 200.0), Entry(Winter, 50.0)];
    assert GroupSums(rows, SeasonKey, [Spring, Summer, Winter], Revenue) == [Entry(Summer, 200.0), Entry(Winter, 50.0)];
  }

  /** For the same two bookings Summer is the peak and Winter the low season. */
  lemma PeakLowExample(x: Enriched, y: Enriched)
    requires x.season == Some(Winter) && x.totalRevenue == 50.0
    requires y.season == Some(Summer) && y.totalRevenue == 200.0
    ensures PeakSeason([x, y]) == Some(Entry(Summer, 200.0))
    ensures LowSeason([x, y]) == Some(Entry(Winter, 50.0))
  {
    SeasonExample(x, y);
    var sums := [Entry(Summer, 200.0), Entry(Winter, 50.0)];
    assert ArgMax(sums) == 0;
    assert ArgMin(sums) == 1;
  }
}

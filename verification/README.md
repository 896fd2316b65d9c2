# Hotel bookings analytics: the data model and its aggregations

This project models the computational core of a hotel-booking analytics
dashboard in Dafny. The dashboard loads a table of bookings once. It adds six
derived columns to every row:
- a family flag;
- the number of nights;
- the nights used for revenue (0 nights are charged as 1);
- the revenue;
- a direct-channel flag;
- the season of the arrival month.

All of its metrics are aggregations over that enriched table:
- headline means and percentages;
- group-by means and sums (per guest type, family flag, deposit type,
  customer type, season, channel and country);
- the ten countries with the most revenue;
- the peak and low seasons.

The model is pure. A table is a `seq` of rows. Every metric is a function of
the table. The properties are proved as contracts and lemmas.

Modules:
- `Wrappers`: `Option`, the absent value (a dataframe's NaN).
- `Enrichment`: the booking row, the derived columns, the month-to-season
  table and the loader.
- `Folds`: sums, means, percentages, filters and per-key sums over any
  table, with their arithmetic facts.
- `Ranking`: labelled values (`Entry`), the descending sort, the first `n`
  entries, and the arg-max and arg-min.
- `Queries`: the dashboard's metrics and the lemmas about them.

Conventions:
- A grouping key is a function from a row to `Option<K>`. `None` is a null
  key. Such rows are left out of every group-by, as a dataframe group-by
  does.
- A mean or a percentage over an empty table is `None`, where a dataframe
  gives NaN.
- Seasons are grouped in the order of their names (Fall, Spring, Summer,
  Winter), the order of a sorted group index. This order decides which
  season the arg-max and arg-min pick on a tie. The other group-bys list
  keys in order of first appearance; no contract depends on that order.

## Model

| member | source | states |
|---|---|---|
| Enrichment.FamilyFlag | app.py:20 | The flag is 0 or 1, and it is 1 exactly when children plus babies is positive. |
| Enrichment.NightsForRevenue | app.py:22 | A stay of 0 nights counts as 1 night; any other count is kept as it is. The result is never 0, and it is at least 1 for a non-negative count. |
| Enrichment.DirectFlag | app.py:24 | The flag is 0 or 1, and it is 1 exactly when the distribution channel is "Direct". |
| Enrichment.SeasonOfMonth | app.py:27-33 | A month name outside the twelve has no season (null). Month number n gets the meteorological season of n: December to February is Winter, then three months each. |
| Enrichment.Enrich | app.py:20-33 | The row is kept. total_stays is weekend plus week nights. total_stays_for_calc is `NightsForRevenue` of total_stays: 1 for a 0-night stay, otherwise total_stays. total_revenue is adr times total_stays_for_calc, so adr itself for a 0-night stay. is_family is `FamilyFlag` and is_direct is `DirectFlag`. The season is `SeasonOfMonth` of the arrival month, and it is null exactly when the month is not one of the twelve names. |
| Enrichment.EnrichAll | app.py:16-34 | The loader keeps every row, in order, and every output row is the enrichment of its input row. |
| Enrichment.TableFollowsCalendar | app.py:27-32 | Every entry of the month table is the calendar season of that month's number. |
| Enrichment.MonthsOfIs | app.py:27-32 | A season whose months are exactly three given names has exactly those names as its month set. |
| Enrichment.WinterMonths | app.py:27-32 | Winter is exactly December, January and February. |
| Enrichment.SpringMonths | app.py:27-32 | Spring is exactly March, April and May. |
| Enrichment.SummerMonths | app.py:27-32 | Summer is exactly June, July and August. |
| Enrichment.FallMonths | app.py:27-32 | Fall is exactly September, October and November. |
| Enrichment.ThreeMonthsPerSeason | app.py:27-32 | Each of the four seasons gets exactly three months. |
| Enrichment.ZeroNightJuneExample | app.py:20-33 | A 0-night, childless, direct June booking at adr 100 has total_stays 0, total_stays_for_calc 1, revenue 100, is_family 0, is_direct 1 and season Summer. |
| Folds.Mean | app.py:60-61 | An empty column has no mean; otherwise the mean times the row count is the column total. |
| Folds.Percent | app.py:59 | An empty column has no percentage; otherwise the percentage times the row count is 100 times the column total. |
| Folds.Filter | app.py:346 | The kept rows all satisfy the predicate, each row that satisfies it is kept, and the kept rows are a sub-multiset of the table. |
| Folds.FilterMultiplicity | app.py:346 | Each row that satisfies the predicate is kept exactly as many times as it occurs in the table, duplicates included, and no other row is kept. |
| Folds.FilterKeepsFlagColumn | app.py:346 | Filtering the rows of a 0/1 column leaves a 0/1 column. |
| Folds.KeyCount | app.py:218 | A key's row count is at most the table size, and it is positive exactly when some row has that key. |
| Folds.PresentKeys | app.py:218 | The listed keys are exactly the non-null keys occurring in the table, each listed once. |
| Folds.TotalBounds | app.py:59-61 | When every value of a column lies in [lo, hi], its total lies in [lo·n, hi·n]. |
| Folds.MeanBounds | app.py:59-61 | When every value lies in [lo, hi], so does the mean. |
| Folds.FlagTotalIsOnes | app.py:59 | The total of a 0/1 column is its number of ones. |
| Folds.FlagPercent | app.py:59 | The percentage of a non-empty 0/1 column is 100 times the share of ones, and it lies in [0, 100]. |
| Folds.KeyCountIsSumOfOnes | app.py:218 | Counting a key's rows is summing the constant 1 over them. |
| Folds.KeySumWithinCount | app.py:193 | A key's sum of a 0/1 column lies between 0 and that key's row count. |
| Folds.KeyedTotalAll | app.py:262 | When no row has a null key, the rows with a key hold the whole column total. |
| Folds.PartitionByKeys | app.py:250 | Summing per-key sums over a duplicate-free list holding every present key gives the total over rows with a non-null key. |
| Ranking.Insert | app.py:220 | Inserting into a descending list keeps it descending, and keeps the entries and their value sum. |
| Ranking.SortDesc | app.py:220 | The sort is descending, is a permutation of its input, and keeps the value sum. |
| Ranking.Head | app.py:276 | The first n entries: min(n, size) of them, in the same order. |
| Ranking.ArgMax | app.py:379 | The index of the first entry with the largest value. |
| Ranking.ArgMin | app.py:380 | The index of the first entry with the smallest value. |
| Ranking.SortDescKeepsKeys | app.py:220 | Sorting a list whose keys are distinct keeps them distinct. |
| Ranking.PrefixSumAtMost | app.py:276 | With non-negative values, the sum of a prefix is at most the whole sum. |
| Queries.GroupSums | app.py:250 | One entry per present key of the key order: the key's sum over its rows. No absent key appears, no present key is missing, and keys are distinct when the order is. The entries add up to the per-key sums. |
| Queries.GroupMean | app.py:164 | For a non-empty group, the mean times the group's row count is the group's sum. |
| Queries.GroupMeans | app.py:164 | One entry per present key of the key order: the mean over that key's rows. Absent keys are left out and keys are distinct. |
| Queries.Overview | app.py:58-61 | The booking count is the table size. The cancellation rate (percent), mean stay and mean adr are absent exactly on an empty table; otherwise each, times the count, is the matching column total (times 100 for the rate). |
| Queries.RevenueByGuestType | app.py:164 | One entry per is_repeated_guest value present, holding the mean revenue of its bookings. |
| Queries.RevenueByFamily | app.py:180 | One entry per is_family value present, holding the mean revenue of its bookings. |
| Queries.CancellationByDeposit | app.py:193 | One entry per deposit type present, holding the mean of is_canceled over its bookings. |
| Queries.CustomerTypeCounts | app.py:218-220 | The counts are sorted largest first, with one entry per customer type present. |
| Queries.CustomerTypeCountsSpec | app.py:218-220 | Each entry is a present customer type with its number of bookings. Every present type appears, keys are distinct, and the counts add up to the number of bookings. |
| Queries.RevenueBySeason | app.py:250 | One entry per season some booking has, holding the season's revenue total. |
| Queries.SeasonRevenuePartition | app.py:250 | The season totals add up to the revenue of bookings with a season, which is all revenue when every month is a known month name. |
| Queries.RevenueByChannel | app.py:262 | One entry per is_direct value present, holding its revenue total. |
| Queries.ChannelRevenuePartition | app.py:262 | The channel totals add up to all revenue, and on an enriched table the channel keys are only 0 and 1. |
| Queries.CountryRevenue | app.py:276 | One entry per country present, holding that country's revenue total. Keys are distinct and no country is missing. |
| Queries.GroupSumsPartition | app.py:250 | Taken over the keys present, the group sums add up to the total over rows with a non-null key. |
| Queries.TopCountries | app.py:276 | At most ten entries, sorted by revenue largest first. |
| Queries.TopCountriesAreCountryTotals | app.py:276 | Each kept country appears once, with its total revenue. With fewer than ten kept, every country is kept. |
| Queries.TopCountriesOmitNoLarger | app.py:276 | A country is left out only when ten are kept, and then its revenue is at most the tenth kept one's. |
| Queries.TopCountriesWithinTotal | app.py:276 | With non-negative revenues, the top ten together hold at most the total revenue. |
| Queries.CountryRevenueNonNegative | app.py:276 | With non-negative revenues, every country total is non-negative. |
| Queries.LongLeadCancelRate | app.py:346 | The long-lead rate is absent exactly when no booking has a lead time above 150 days. |
| Queries.LongLeadCancelRateSpec | app.py:346 | On a 0/1 is_canceled column the rate is 100 times the share of canceled bookings among those with lead time above 150, and it lies in [0, 100]. |
| Queries.LongLeadExample | app.py:346 | With leads of 100, 200 and 300 days, only the last two canceled, the rate is 100. |
| Queries.RepeatGuestRate | app.py:354 | Absent exactly on an empty table; otherwise, times the count, 100 times the is_repeated_guest total. |
| Queries.RepeatGuestRateBounds | app.py:354 | On a 0/1 column it is 100 times the share of repeat guests, in [0, 100]. |
| Queries.FamilyShare | app.py:362 | Absent exactly on an empty table; otherwise, times the count, 100 times the is_family total. |
| Queries.FlagColumns | app.py:20-24 | After enrichment is_family and is_direct are 0/1 columns. |
| Queries.FamilyShareSpec | app.py:362 | On a 0/1 column, the share is 100 times the fraction of family bookings, in [0, 100]. |
| Queries.DirectShare | app.py:370 | Absent exactly on an empty table; otherwise, times the count, 100 times the is_direct total. |
| Queries.DirectShareSpec | app.py:370 | On a 0/1 column, the share is 100 times the fraction of direct bookings, in [0, 100]. |
| Queries.CancellationRateBounds | app.py:59 | On a 0/1 is_canceled column, the overview's rate is 100 times the share of canceled bookings, in [0, 100]. |
| Queries.DepositRatesBounded | app.py:193 | On a 0/1 is_canceled column, every deposit type's cancellation rate lies in [0, 1]. |
| Queries.PeakSeason | app.py:378-379 | Absent exactly when no booking has a season. Otherwise it is a present season with its revenue total, and no season has a larger total. |
| Queries.LowSeason | app.py:378-380 | Absent exactly when no booking has a season. Otherwise it is a present season with its revenue total, and no season has a smaller total. |
| Queries.SeasonExample | app.py:250 | A Winter booking worth 50 and a Summer booking worth 200 give the totals Summer 200 and Winter 50, in that order. |
| Queries.PeakLowExample | app.py:378-380 | For those two bookings the peak season is Summer (200) and the low season is Winter (50). |

## Left out

- Reading the CSV file and caching the loaded table: I/O. The model starts from the sequence of raw rows.
- The page layout, sidebar navigation, charts, label maps and number formatting: presentation only.
- The correlation matrix of the numeric columns (app.py:72-81): floating-point statistics over a column selection, and not part of this model.
- The lead-time histogram, box plots and other distribution charts: their binning and statistics are computed by the charting library.
- The revenue pie chart by hotel type (app.py:288-292): its sum per hotel is done inside the charting library. It is the same group-by-sum as `Queries.GroupSums`.
- The sort of rows by total_stays for the stay-length chart (app.py:303): only the chart's input order.
- Null values in the raw columns: fields are total in the model. A null `children` cell, which would make is_family false, is not represented. A null `country` gives a null key in the source and is not represented either.
- Floating-point rounding: values are exact reals.
- Group order: a dataframe sorts group keys. Seasons follow that sorted order exactly. Every other group-by keeps keys in order of first appearance: the string keys (deposit type, customer type, country) and the integer keys (is_repeated_guest, is_family, is_direct). For those integer keys a dataframe lists 0 before 1. No contract depends on this order, since every other group-by result is stated by membership.
- Queries.TopCountries: the order among countries with equal revenue is not stated, because the source's default sort is not stable.
- Queries.DepositRatesBounded: stated only for a 0/1 is_canceled column, the values the dataset holds.
- Queries.FamilyShareSpec: requires the 0/1 column as a premise; `Queries.FlagColumns` shows that every enriched table meets it.
- Queries.DirectShareSpec: requires the 0/1 column as a premise; `Queries.FlagColumns` shows that every enriched table meets it.
- Enrichment.SeasonOfMonth: an unknown month name gives no season (null), as the dictionary lookup in app.py:33 does. It is not an error.
- Queries.PeakSeason: returns `None` when no booking has a season, where `idxmax` on an empty series (app.py:379) raises an error.
- Queries.LowSeason: returns `None` when no booking has a season, where `idxmin` on an empty series (app.py:380) raises an error.
- Folds.Mean: the mean of an empty table is `None` (NaN in the source). It is not an error.

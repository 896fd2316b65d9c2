/**
 * The booking-row enrichment done once when the dataset is loaded:
 * six derived columns computed from each raw booking row.
 */
module Enrichment {
  import opened Wrappers

  datatype Season = Winter | Spring | Summer | Fall

  /** One raw row of the bookings table, with the columns the dashboard reads. */
  datatype Booking = Booking(
    hotel: string,
    country: string,
    marketSegment: string,
    distributionChannel: string,
    customerType: string,
    depositType: string,
    meal: string,
    arrivalDateMonth: string,
    leadTime: int,
    adr: real,
    weekendNights: int,
    weekNights: int,
    adults: int,
    children: int,
    babies: int,
    previousCancellations: int,
    specialRequests: int,
    isCanceled: int,
    isRepeatedGuest: int)

  /** A raw row together with the derived columns added by the loader. */
  datatype Enriched = Enriched(
    row: Booking,
    isFamily: int,
    totalStays: int,
    totalStaysForCalc: int,
    totalRevenue: real,
    isDirect: int,
    season: Option<Season>)

  /** The canonical month names, in calendar order. */
  const Months: seq<string> := [
    "January", "February", "March", "April", "May", "June",
    "July", "August", "September", "October", "November", "December"]

  /** The fixed month-to-season table of the loader. */
  const SeasonTable: map<string, Season> := map[
    "January" := Winter, "February" := Winter, "March" := Spring,
    "April" := Spring, "May" := Spring, "June" := Summer,
    "July" := Summer, "August" := Summer, "September" := Fall,
    "October" := Fall, "November" := Fall, "December" := Winter]

  /**
   * Reference definition of the meteorological seasons by month number
   * (1 = January): December to February is Winter, then three months each.
   */
  function CalendarSeason(n: int): Season
    requires 1 <= n <= 12
  {
    match (n % 12) / 3
    case 0 => Winter
    case 1 => Spring
    case 2 => Summer
    case _ => Fall
  }

  /** `is_family`: 1 when the party has at least one child or baby. */
  function FamilyFlag(children: int, babies: int): (f: int)
    ensures f == 0 || f == 1
    ensures f == 1 <==> children + babies > 0
  {
    if children + babies > 0 then 1 else 0
  }

  /**
   * `total_stays_for_calc`: the night count used for revenue, where a
   * zero-night stay counts as one night.
   */
  function NightsForRevenue(totalStays: int): (n: int)
    ensures n != 0
    ensures totalStays != 0 ==> n == totalStays
    ensures totalStays >= 0 ==> n >= 1 && n >= totalStays && (n == totalStays || n == 1)
  {
    if totalStays == 0 then 1 else totalStays
  }

  /** `is_direct`: 1 exactly when the distribution channel is "Direct". */
  function DirectFlag(channel: string): (f: int)
    ensures f == 0 || f == 1
    ensures f == 1 <==> channel == "Direct"
  {
    if channel == "Direct" then 1 else 0
  }

  /** `season`: the season of a month name; any other string has none. */
  function SeasonOfMonth(month: string): (s: Option<Season>)
    ensures s.None? <==> month !in Months
    ensures forall i :: 0 <= i < |Months| && Months[i] == month ==> s == Some(CalendarSeason(i + 1))
  {
    if month in SeasonTable then Some(SeasonTable[month]) else None
  }

  /** The months the table assigns to season `s`. */
  function MonthsOf(s: Season): set<string>
  {
    set m | m in Months && SeasonOfMonth(m) == Some(s)
  }

  /** The enrichment of one row: the original row plus the six derived columns. */
  function Enrich(b: Booking): (e: Enriched)
    ensures e.row == b
    ensures e.isFamily == FamilyFlag(b.children, b.babies)
    ensures e.totalStays == b.weekendNights + b.weekNights
    ensures b.weekendNights >= 0 && b.weekNights >= 0 ==> e.totalStaysForCalc >= 1
    ensures e.totalStaysForCalc == NightsForRevenue(e.totalStays)
    ensures e.totalStays == 0 ==> e.totalStaysForCalc == 1
    ensures e.totalStays != 0 ==> e.totalStaysForCalc == e.totalStays
    ensures e.totalRevenue == b.adr * e.totalStaysForCalc as real
    ensures e.totalStays == 0 ==> e.totalRevenue == b.adr
    ensures e.isDirect == DirectFlag(b.distributionChannel)
    ensures e.season == SeasonOfMonth(b.arrivalDateMonth)
    ensures e.season.None? <==> b.arrivalDateMonth !in Months
  {
    var stays := b.weekendNights + b.weekNights;
    var forCalc := NightsForRevenue(stays);
    Enriched(
      b,
      FamilyFlag(b.children, b.babies),
      stays,
      forCalc,
      b.adr * forCalc as real,
      DirectFlag(b.distributionChannel),
      SeasonOfMonth(b.arrivalDateMonth))
  }

  /** A row whose derived columns are exactly those the loader computes from it. */
  predicate IsEnriched(e: Enriched)
  {
    e == Enrich(e.row)
  }

  predicate EnrichedTable(t: seq<Enriched>)
  {
    forall i :: 0 <= i < |t| ==> IsEnriched(t[i])
  }

  /** The loader: every row enriched, in the original order. */
  function EnrichAll(bs: seq<Booking>): (t: seq<Enriched>)
    ensures |t| == |bs|
    ensures forall i :: 0 <= i < |t| ==> t[i].row == bs[i]
    ensures EnrichedTable(t)
  {
    seq(|bs|, i requires 0 <= i < |bs| => Enrich(bs[i]))
  }

  /** The months of season `s` are the three given names and no others. */
  lemma {:induction false} MonthsOfIs(s: Season, m1: string, m2: string, m3: string)
    requires SeasonOfMonth(m1) == Some(s) && SeasonOfMonth(m2) == Some(s) && SeasonOfMonth(m3) == Some(s)
    requires forall i :: 0 <= i < |Months| && Months[i] !in {m1, m2, m3} ==> SeasonOfMonth(Months[i]) != Some(s)
    ensures MonthsOf(s) == {m1, m2, m3}
  {
    forall m | m in MonthsOf(s) ensures m in {m1, m2, m3} {
      var i :| 0 <= i < |Months| && Months[i] == m;
    }
  }

  /** Each month name maps to the season of its calendar number. */
  lemma TableFollowsCalendar()
    ensures forall i :: 0 <= i < |Months| ==> SeasonOfMonth(Months[i]) == Some(CalendarSeason(i + 1))
  {
  }

  /** Winter is December, January and February. */
  lemma WinterMonths()
    ensures MonthsOf(Winter) == {"December", "January", "February"}
    ensures |MonthsOf(Winter)| == 3
  {
    TableFollowsCalendar();
    MonthsOfIs(Winter, "December", "January", "February");
    assert "December"[0] != "January"[0] && "January"[0] != "February"[0] && "December"[0] != "February"[0];
  }

  /** Spring is March, April and May. */
  lemma SpringMonths()
    ensures MonthsOf(Spring) == {"March", "April", "May"}
    ensures |MonthsOf(Spring)| == 3
  {
    TableFollowsCalendar();
    MonthsOfIs(Spring, "March", "April", "May");
    assert "March"[0] != "April"[0] && "April"[0] != "May"[0] && "March"[2] != "May"[2];
  }

  /** Summer is June, July and August. */
  lemma SummerMonths()
    ensures MonthsOf(Summer) == {"June", "July", "August"}
    ensures |MonthsOf(Summer)| == 3
  {
    TableFollowsCalendar();
    MonthsOfIs(Summer, "June", "July", "August");
    assert "June"[2] != "July"[2] && "July"[0] != "August"[0] && "June"[0] != "August"[0];
  }

  /** Fall is September, October and November. */
  lemma FallMonths()
    ensures MonthsOf(Fall) == {"September", "October", "November"}
    ensures |MonthsOf(Fall)| == 3
  {
    TableFollowsCalendar();
    MonthsOfIs(Fall, "September", "October", "November");
    assert "September"[0] != "October"[0] && "October"[0] != "November"[0] && "September"[0] != "November"[0];
  }

  /** Every season gets exactly three of the twelve months. */
  lemma ThreeMonthsPerSeason()
    ensures forall s: Season :: |MonthsOf(s)| == 3
  {
    forall s: Season ensures |MonthsOf(s)| == 3 {
      match s
      case Winter => WinterMonths();
      case Spring => SpringMonths();
      case Summer => SummerMonths();
      case Fall => FallMonths();
    }
  }

  /** A one-row example: a zero-night direct booking in June. */
  lemma ZeroNightJuneExample(b: Booking)
    requires b.adr == 100.0 && b.weekendNights == 0 && b.weekNights == 0
    requires b.children == 0 && b.babies == 0
    requires b.distributionChannel == "Direct" && b.arrivalDateMonth == "June"
    ensures Enrich(b).totalStays == 0 && Enrich(b).totalStaysForCalc == 1
    ensures Enrich(b).totalRevenue == 100.0
    ensures Enrich(b).isFamily == 0 && Enrich(b).isDirect == 1
    ensures Enrich(b).season == Some(Summer)
  {
  }
}

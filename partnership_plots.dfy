/** The chart projections of the partnership-network response models
    (models/response/partnership_network.py), and the `date.isoformat()`
    rendering the trends chart uses. */
module PartnershipPlots {
  import opened Wrappers
  import opened Text
  import opened Charts

  datatype Partner = Partner(name: string, partnershipType: Option<string>)
  datatype AllianceImpact = AllianceImpact(partner: string, impactScore: real)
  datatype NetworkMetric = NetworkMetric(metric: string, value: real)

  // ---------------------------------------------------------------------
  // Calendar dates as Python's `datetime.date` admits them

  predicate IsLeap(year: int) {
    year % 4 == 0 && (year % 100 != 0 || year % 400 == 0)
  }

  function DaysInMonth(year: int, month: int): int {
    if month == 2 then (if IsLeap(year) then 29 else 28)
    else if month == 4 || month == 6 || month == 9 || month == 11 then 30
    else 31
  }

  datatype DateParts = DateParts(year: int, month: int, day: int)

  /** A `date`: years 1 to 9999, real months, days within their month. */
  type Date = d: DateParts | 1 <= d.year <= 9999 && 1 <= d.month <= 12 && 1 <= d.day <= DaysInMonth(d.year, d.month)
    witness DateParts(1, 1, 1)

  /** `n` in exactly `width` decimal digits, zero-padded. */
  function Padded(n: nat, width: nat): (s: string)
    ensures |s| == width
    ensures forall i :: 0 <= i < width ==> '0' <= s[i] <= '9'
  {
    if width == 0 then [] else Padded(n / 10, width - 1) + [DigitChar(n % 10)]
  }

  /** The number written by a string of digits. */
  function DigitsValue(s: string): int {
    if s == [] then 0 else 10 * DigitsValue(s[..|s| - 1]) + (s[|s| - 1] as int - '0' as int)
  }

  function Power10(k: nat): (p: nat)
    ensures p >= 1
  {
    if k == 0 then 1 else 10 * Power10(k - 1)
  }

  /** Reading back a padded number gives it back, when it fits. */
  lemma {:induction false} PaddedValue(n: nat, width: nat)
    requires n < Power10(width)
    ensures DigitsValue(Padded(n, width)) == n
  {
    if width > 0 {
      var s := Padded(n, width);
      assert n / 10 < Power10(width - 1) by {
        DivBelow(n, Power10(width - 1));
      }
      PaddedValue(n / 10, width - 1);
      assert s[..|s| - 1] == Padded(n / 10, width - 1);
      assert n == 10 * (n / 10) + n % 10;
    }
  }

  lemma DivBelow(n: nat, p: nat)
    requires n < 10 * p
    ensures n / 10 < p
  {
  }

  /** `date.isoformat()`: `YYYY-MM-DD`. */
  function IsoFormat(d: Date): (s: string)
    ensures |s| == 10 && s[4] == '-' && s[7] == '-'
  {
    Padded(d.year, 4) + "-" + Padded(d.month, 2) + "-" + Padded(d.day, 2)
  }

  /** Reading a `YYYY-MM-DD` string back. */
  function ParseIso(s: string): Option<DateParts> {
    if |s| == 10 && s[4] == '-' && s[7] == '-' then
      Some(DateParts(DigitsValue(s[..4]), DigitsValue(s[5..7]), DigitsValue(s[8..])))
    else None
  }

  /** The rendering loses nothing: the date can be read back. */
  lemma IsoFormatRoundTrip(d: Date)
    ensures ParseIso(IsoFormat(d)) == Some(d)
  {
    var s := IsoFormat(d);
    assert s[..4] == Padded(d.year, 4);
    assert s[5..7] == Padded(d.month, 2);
    assert s[8..] == Padded(d.day, 2);
    PaddedValue(d.year, 4);
    PaddedValue(d.month, 2);
    PaddedValue(d.day, 2);
  }

  /** Distinct dates render differently. */
  lemma IsoFormatInjective(d: Date, e: Date)
    requires IsoFormat(d) == IsoFormat(e)
    ensures d == e
  {
    IsoFormatRoundTrip(d);
    IsoFormatRoundTrip(e);
  }

  datatype TrendPoint = TrendPoint(periodStart: Date, netGrowth: int)

  // ---------------------------------------------------------------------

  /** `p.partnership_type or "Unknown"`: None and the empty string are falsy. */
  function TypeKey(t: Option<string>): (k: string)
    ensures k != ""
    ensures t.Some? && t.value != "" ==> k == t.value
  {
    if t.None? || t.value == "" then "Unknown" else t.value
  }

  function TypeKeys(ps: seq<Partner>): (r: seq<string>)
    ensures |r| == |ps| && forall i :: 0 <= i < |ps| ==> r[i] == TypeKey(ps[i].partnershipType)
  {
    seq(|ps|, i requires 0 <= i < |ps| => TypeKey(ps[i].partnershipType))
  }

  /** `PartnerListResponse.get_plot_data`: one slice per partnership type,
      in order of first occurrence, with its number of partners. */
  method PartnerListPlot(companyName: string, partners: seq<Partner>) returns (r: ChartData)
    ensures WellFormed(r) && r.kind == Pie && r.x == Some("partnership_type") && r.y == Some("count")
    ensures r.data == CountRows(Tally(TypeKeys(partners)), "partnership_type", "count")
  {
    ghost var keys := TypeKeys(partners);
    var counts: Counts := [];
    var i := 0;
    while i < |partners|
      invariant 0 <= i <= |partners|
      invariant counts == Tally(keys[..i])
    {
      var t := TypeKey(partners[i].partnershipType);
      assert keys[..i + 1][..i] == keys[..i] && keys[i] == t;
      counts := Bump(counts, t);
      i := i + 1;
    }
    assert keys[..i] == keys;
    var rows := CountRows(counts, "partnership_type", "count");
    r := ChartData(rows, Some("Partners by Type for " + companyName), Some("partnership_type"), Some("count"), Pie);
  }

  /** The partner chart lists each type once, in order of first occurrence,
      never the empty string, each with its number of partners, at least 1;
      the counts add up to `len(partners)`. */
  lemma PartnerCounts(partners: seq<Partner>)
    ensures var t := Tally(TypeKeys(partners));
      ValidCounts(t) && Keys(t) == FirstOccurrences(TypeKeys(partners))
      && Total(t) == |partners|
      && (forall i :: 0 <= i < |t| ==> t[i].1 == Occurrences(TypeKeys(partners), t[i].0) && t[i].0 != "")
  {
    var ks := TypeKeys(partners);
    var t := Tally(ks);
    TallyCorrect(ks);
    forall i | 0 <= i < |t|
      ensures t[i].1 == Occurrences(ks, t[i].0) && t[i].0 != ""
    {
      CountAt(t, i);
      FirstOccurrencesMembers(ks);
      assert t[i].0 in Keys(t);
    }
  }

  /** `StrategicAlliancesResponse.get_plot_data`: one bar per alliance, in order. */
  function StrategicAlliancesPlot(companyName: string, alliances: seq<AllianceImpact>): (r: ChartData)
    ensures WellFormed(r) && r.kind == Bar && r.x == Some("partner") && r.y == Some("impact_score")
    ensures |r.data| == |alliances|
    ensures forall i :: 0 <= i < |alliances| ==>
      Column(r.data[i], "partner") == CStr(alliances[i].partner)
      && Column(r.data[i], "impact_score") == CReal(alliances[i].impactScore)
  {
    var rows := Project(alliances, "partner", (a: AllianceImpact) => CStr(a.partner),
                        "impact_score", (a: AllianceImpact) => CReal(a.impactScore));
    ChartData(rows, Some("Strategic Alliance Impact Scores for " + companyName), Some("partner"), Some("impact_score"), Bar)
  }

  /** `NetworkStrengthResponse.get_plot_data`: one bar per metric, in order. */
  function NetworkStrengthPlot(companyName: string, metrics: seq<NetworkMetric>): (r: ChartData)
    ensures WellFormed(r) && r.kind == Bar && r.x == Some("metric") && r.y == Some("value")
    ensures |r.data| == |metrics|
    ensures forall i :: 0 <= i < |metrics| ==>
      Column(r.data[i], "metric") == CStr(metrics[i].metric) && Column(r.data[i], "value") == CReal(metrics[i].value)
  {
    var rows := Project(metrics, "metric", (m: NetworkMetric) => CStr(m.metric), "value", (m: NetworkMetric) => CReal(m.value));
    ChartData(rows, Some("Network Metrics for " + companyName), Some("metric"), Some("value"), Bar)
  }

  /** `PartnershipTrendsResponse.get_plot_data`: one point per period, in
      order, the period start as its ISO date. */
  function PartnershipTrendsPlot(companyName: string, series: seq<TrendPoint>): (r: ChartData)
    ensures WellFormed(r) && r.kind == Line && r.x == Some("period_start") && r.y == Some("net_growth")
    ensures |r.data| == |series|
    ensures forall i :: 0 <= i < |series| ==>
      Column(r.data[i], "period_start") == CStr(IsoFormat(series[i].periodStart))
      && Column(r.data[i], "net_growth") == CInt(series[i].netGrowth)
  {
    var rows := Project(series, "period_start", (t: TrendPoint) => CStr(IsoFormat(t.periodStart)),
                        "net_growth", (t: TrendPoint) => CInt(t.netGrowth));
    ChartData(rows, Some("Partnership Net Growth Over Time for " + companyName), Some("period_start"), Some("net_growth"), Line)
  }
}

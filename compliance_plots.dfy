/** The chart projections of the regulatory-compliance response models
    (models/response/regulatory_compliance.py). */
module CompliancePlots {
  import opened Wrappers
  import opened Charts

  datatype Regulation = Regulation(regulation: string, applicable: bool)
  datatype Violation = Violation(violation: string, severity: string)
  datatype ComplianceRisk = ComplianceRisk(risk: string, severity: string, confidence: Option<real>)
  datatype RegionalCompliance = RegionalCompliance(region: string, complianceScore: Option<real>)

  /** `sum(1 for r in regulations if r.applicable)` */
  function ApplicableCount(regs: seq<Regulation>): (n: nat)
    ensures n <= |regs|
  {
    if regs == [] then 0 else (if regs[0].applicable then 1 else 0) + ApplicableCount(regs[1..])
  }

  /** The regulations that do not apply, counted directly. */
  function NotApplicableCount(regs: seq<Regulation>): nat {
    if regs == [] then 0 else (if regs[0].applicable then 0 else 1) + NotApplicableCount(regs[1..])
  }

  /** `ComplianceOverviewResponse.get_plot_data`: two slices, Applicable and
      Not Applicable, the second computed as `len - applicable`. */
  function ComplianceOverviewPlot(companyName: string, regs: seq<Regulation>): (r: ChartData)
    ensures WellFormed(r) && r.kind == Pie && r.x == Some("status") && r.y == Some("count")
    ensures |r.data| == 2
    ensures Column(r.data[0], "status") == CStr("Applicable") && Column(r.data[0], "count") == CInt(ApplicableCount(regs))
    ensures Column(r.data[1], "status") == CStr("Not Applicable") && Column(r.data[1], "count") == CInt(|regs| - ApplicableCount(regs))
  {
    var applicable := ApplicableCount(regs);
    var rows := [Row2("status", CStr("Applicable"), "count", CInt(applicable)),
                 Row2("status", CStr("Not Applicable"), "count", CInt(|regs| - applicable))];
    ChartData(rows, Some("Regulation Applicability for " + companyName), Some("status"), Some("count"), Pie)
  }

  /** The Not Applicable slice, though computed by subtraction, is exactly
      the number of regulations that do not apply; the two slices add up to
      the number of regulations. */
  lemma {:induction false} OverviewPartition(regs: seq<Regulation>)
    ensures |regs| - ApplicableCount(regs) == NotApplicableCount(regs)
  {
    if regs != [] {
      OverviewPartition(regs[1..]);
    }
  }

  /** `v.severity or "Unknown"`: the empty string is falsy. */
  function SeverityKey(severity: string): (k: string)
    ensures k != ""
    ensures severity != "" ==> k == severity
  {
    if severity == "" then "Unknown" else severity
  }

  function SeverityKeys(vs: seq<Violation>): (r: seq<string>)
    ensures |r| == |vs| && forall i :: 0 <= i < |vs| ==> r[i] == SeverityKey(vs[i].severity)
  {
    seq(|vs|, i requires 0 <= i < |vs| => SeverityKey(vs[i].severity))
  }

  /** `ViolationHistoryResponse.get_plot_data`: one bar per severity, in
      order of first occurrence, with the number of violations of that
      severity. */
  method ViolationHistoryPlot(companyName: string, violations: seq<Violation>) returns (r: ChartData)
    ensures WellFormed(r) && r.kind == Bar && r.x == Some("severity") && r.y == Some("count")
    ensures r.data == CountRows(Tally(SeverityKeys(violations)), "severity", "count")
  {
    ghost var keys := SeverityKeys(violations);
    var counts: Counts := [];
    var i := 0;
    while i < |violations|
      invariant 0 <= i <= |violations|
      invariant counts == Tally(keys[..i])
    {
      var s := SeverityKey(violations[i].severity);
      assert keys[..i + 1][..i] == keys[..i] && keys[i] == s;
      counts := Bump(counts, s);
      i := i + 1;
    }
    assert keys[..i] == keys;
    var rows := CountRows(counts, "severity", "count");
    r := ChartData(rows, Some("Violations by Severity for " + companyName), Some("severity"), Some("count"), Bar);
  }

  /** The severity chart lists each severity once, in order of first
      occurrence, never the empty string, each with its number of
      violations, at least 1; the counts add up to `len(violations)`. */
  lemma ViolationCounts(violations: seq<Violation>)
    ensures var t := Tally(SeverityKeys(violations));
      ValidCounts(t) && Keys(t) == FirstOccurrences(SeverityKeys(violations))
      && Total(t) == |violations|
      && (forall i :: 0 <= i < |t| ==> t[i].1 == Occurrences(SeverityKeys(violations), t[i].0) && t[i].0 != "")
  {
    var ks := SeverityKeys(violations);
    var t := Tally(ks);
    TallyCorrect(ks);
    forall i | 0 <= i < |t|
      ensures t[i].1 == Occurrences(ks, t[i].0) && t[i].0 != ""
    {
      CountAt(t, i);
      FirstOccurrencesMembers(ks);
      assert t[i].0 in Keys(t);
    }
  }

  /** `ComplianceRiskResponse.get_plot_data`: one bar per risk, in order, a
      None or 0.0 confidence shown as 0. */
  function ComplianceRiskPlot(companyName: string, risks: seq<ComplianceRisk>): (r: ChartData)
    ensures WellFormed(r) && r.kind == Bar && r.x == Some("risk") && r.y == Some("confidence")
    ensures |r.data| == |risks|
    ensures forall i :: 0 <= i < |risks| ==>
      Column(r.data[i], "risk") == CStr(risks[i].risk) && Column(r.data[i], "severity") == CStr(risks[i].severity)
      && Column(r.data[i], "confidence") == RealOrZero(risks[i].confidence)
  {
    var rows := seq(|risks|, i requires 0 <= i < |risks| =>
      Row3("risk", CStr(risks[i].risk), "severity", CStr(risks[i].severity), "confidence", RealOrZero(risks[i].confidence)));
    ChartData(rows, Some("Compliance Risks for " + companyName), Some("risk"), Some("confidence"), Bar)
  }

  /** `RegionalComplianceResponse.get_plot_data`: one bar per region, in
      order, a missing score shown as 0. */
  function RegionalCompliancePlot(companyName: string, regions: seq<RegionalCompliance>): (r: ChartData)
    ensures WellFormed(r) && r.kind == Bar && r.x == Some("region") && r.y == Some("compliance_score")
    ensures |r.data| == |regions|
    ensures forall i :: 0 <= i < |regions| ==>
      Column(r.data[i], "region") == CStr(regions[i].region)
      && Column(r.data[i], "compliance_score") == RealOrZero(regions[i].complianceScore)
  {
    var rows := Project(regions, "region", (g: RegionalCompliance) => CStr(g.region),
                        "compliance_score", (g: RegionalCompliance) => RealOrZero(g.complianceScore));
    ChartData(rows, Some("Regional Compliance Scores for " + companyName), Some("region"), Some("compliance_score"), Bar)
  }
}

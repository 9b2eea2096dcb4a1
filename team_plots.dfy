/** The chart projections of the team response models
    (models/response/team.py). */
module TeamPlots {
  import opened Wrappers
  import opened Charts

  datatype RoleBreakdown = RoleBreakdown(role: string, count: int, percentage: Option<real>)
  datatype PerformanceMetric = PerformanceMetric(metric: string, value: real)
  datatype Department = Department(name: string, employeeCount: Option<int>)
  datatype GrowthPoint = GrowthPoint(periodStart: string, netGrowth: int)

  /** An optional float as a cell: None stays None. */
  function OptionalReal(x: Option<real>): Cell {
    if x.None? then CNone else CReal(x.value)
  }

  /** `TeamOverviewResponse.get_plot_data`: one slice per role, in order,
      carrying the role's count and its optional percentage. */
  function TeamOverviewPlot(companyName: string, roles: seq<RoleBreakdown>): (r: ChartData)
    ensures WellFormed(r) && r.kind == Pie && r.x == Some("role") && r.y == Some("count")
    ensures |r.data| == |roles|
    ensures forall i :: 0 <= i < |roles| ==>
      Column(r.data[i], "role") == CStr(roles[i].role) && Column(r.data[i], "count") == CInt(roles[i].count)
      && Column(r.data[i], "percentage") == OptionalReal(roles[i].percentage)
  {
    var rows := seq(|roles|, i requires 0 <= i < |roles| =>
      Row3("role", CStr(roles[i].role), "count", CInt(roles[i].count), "percentage", OptionalReal(roles[i].percentage)));
    ChartData(rows, Some("Team Roles Breakdown for " + companyName), Some("role"), Some("count"), Pie)
  }

  /** `str(x)` of an optional string inside an f-string: None renders as "None". */
  function FormatOptional(s: Option<string>): (r: string)
    ensures s.Some? ==> r == s.value
    ensures s.None? ==> r == "None"
  {
    if s.None? then "None" else s.value
  }

  /** `IndividualPerformanceResponse.get_plot_data`: one bar per metric, in
      order, titled with the individual's name, or "None" when it is unknown. */
  function IndividualPerformancePlot(individualName: Option<string>, metrics: seq<PerformanceMetric>): (r: ChartData)
    ensures WellFormed(r) && r.kind == Bar && r.x == Some("metric") && r.y == Some("value")
    ensures |r.data| == |metrics|
    ensures forall i :: 0 <= i < |metrics| ==>
      Column(r.data[i], "metric") == CStr(metrics[i].metric) && Column(r.data[i], "value") == CReal(metrics[i].value)
    ensures individualName.None? ==> r.title == Some("Performance Metrics for None")
  {
    var rows := Project(metrics, "metric", (m: PerformanceMetric) => CStr(m.metric), "value", (m: PerformanceMetric) => CReal(m.value));
    assert "Performance Metrics for " + "None" == "Performance Metrics for None";
    ChartData(rows, Some("Performance Metrics for " + FormatOptional(individualName)), Some("metric"), Some("value"), Bar)
  }

  /** `if self.departments:` -- present and non-empty. */
  predicate HasDepartments(departments: Option<seq<Department>>) {
    departments.Some? && departments.value != []
  }

  /** `OrgStructureResponse.get_plot_data`: one bar per department, in order,
      a missing or zero head count shown as 0; without departments, an
      empty untitled-axis bar chart titled "No department data". */
  function OrgStructurePlot(companyName: string, departments: Option<seq<Department>>): (r: ChartData)
    ensures WellFormed(r) && r.kind == Bar
    ensures !HasDepartments(departments) ==>
      r.data == [] && r.title == Some("No department data") && r.x.None? && r.y.None?
    ensures HasDepartments(departments) ==>
      r.x == Some("department") && r.y == Some("employee_count")
      && |r.data| == |departments.value|
      && forall i :: 0 <= i < |departments.value| ==>
        Column(r.data[i], "department") == CStr(departments.value[i].name)
        && Column(r.data[i], "employee_count") == CInt(departments.value[i].employeeCount.GetOr(0))
  {
    if HasDepartments(departments) then
      var rows := Project(departments.value, "department", (d: Department) => CStr(d.name),
                          "employee_count", (d: Department) => CInt(d.employeeCount.GetOr(0)));
      ChartData(rows, Some("Department Sizes for " + companyName), Some("department"), Some("employee_count"), Bar)
    else
      ChartData([], Some("No department data"), None, None, Bar)
  }

  /** `TeamGrowthResponse.get_plot_data`: an area of the net growth per period, in order. */
  function TeamGrowthPlot(companyName: string, series: seq<GrowthPoint>): (r: ChartData)
    ensures WellFormed(r) && r.kind == Area && r.x == Some("period_start") && r.y == Some("net_growth")
    ensures |r.data| == |series|
    ensures forall i :: 0 <= i < |series| ==>
      Column(r.data[i], "period_start") == CStr(series[i].periodStart)
      && Column(r.data[i], "net_growth") == CInt(series[i].netGrowth)
  {
    var rows := Project(series, "period_start", (t: GrowthPoint) => CStr(t.periodStart),
                        "net_growth", (t: GrowthPoint) => CInt(t.netGrowth));
    ChartData(rows, Some("Team Net Growth Over Time for " + companyName), Some("period_start"), Some("net_growth"), Area)
  }
}

/** The analytics screen's report export: the file name and the CSV text
    built for each report type. Lines are joined with '\n' and fields with
    ',', verbatim: no field is quoted or escaped, so the quoting rules of
    section 2 of RFC 4180 are not applied. */
module Analytics {
  import opened Seqs
  import opened Text

  /** A labelled count with its percentage: an age group or a report type. */
  datatype Share = Share(name: string, count: int, percentage: int)

  /** A subscription plan row. */
  datatype Plan = Plan(plan: string, count: int, revenue: int)

  /** An engagement metric. */
  datatype Metric = Metric(total: int, daily: int, trend: int)

  /** The part of the analytics data the exports read. */
  datatype ReportData = ReportData(
    ageGroups: seq<Share>,
    matches: Metric,
    messages: Metric,
    likes: Metric,
    subscriptions: seq<Plan>,
    reportTypes: seq<Share>,
    totalUsers: int,
    activeUsers: int,
    newToday: int)

  /** The download's file name; `iso` is the current time as an ISO string
      and the date is its part before the first 'T'. */
  function ReportFilename(kind: string, iso: string): (r: string)
    ensures |r| >= |kind| + 24
    ensures r[..12] == "mpenzimatch-" && r[12..12 + |kind|] == kind
    ensures r[12 + |kind|..20 + |kind|] == "-report-" && r[|r| - 4..] == ".csv"
  {
    "mpenzimatch-" + kind + "-report-" + Split(iso, 'T')[0] + ".csv"
  }

  /** The file name carries the report type and the date part of the
      timestamp, between a fixed prefix and the ".csv" extension. */
  lemma ReportFilenameShape(kind: string, date: string, rest: string)
    requires 'T' !in date
    ensures ReportFilename(kind, date + "T" + rest) == "mpenzimatch-" + kind + "-report-" + date + ".csv"
    ensures ReportFilename(kind, date) == "mpenzimatch-" + kind + "-report-" + date + ".csv"
  {
    SplitAtSeparator(date, rest, 'T');
    SplitNoSeparator(date, 'T');
  }

  /** `range,count,percentage%` and `type,count,percentage%`. */
  function ShareLine(s: Share): (r: string)
    ensures |r| > |s.name| && r[..|s.name| + 1] == s.name + "," && r[|r| - 1] == '%'
  {
    s.name + "," + IntToString(s.count) + "," + IntToString(s.percentage) + "%"
  }

  /** `plan,count,$revenue`. */
  function PlanLine(p: Plan): (r: string)
    ensures |r| > |p.plan| && r[..|p.plan| + 1] == p.plan + ","
  {
    p.plan + "," + IntToString(p.count) + ",$" + IntToString(p.revenue)
  }

  /** `name,total,daily,trend%`. */
  function MetricLine(name: string, m: Metric): (r: string)
    ensures |r| > |name| && r[..|name| + 1] == name + "," && r[|r| - 1] == '%'
  {
    name + "," + IntToString(m.total) + "," + IntToString(m.daily) + "," + IntToString(m.trend) + "%"
  }

  /** A header line followed by the rows, joined with '\n'; no newline
      after the last row. */
  function ListExport(header: string, rows: seq<string>): (r: string)
    ensures |r| > |header| && r[..|header| + 1] == header + "\n"
  {
    header + "\n" + Join(rows, '\n')
  }

  /** The CSV text of `downloadReport` for each report type; any type other
      than the four named ones gives the user summary. */
  function CsvContent(kind: string, d: ReportData): (r: string)
    ensures |r| > |CsvHeader(kind)| && r[..|CsvHeader(kind)| + 1] == CsvHeader(kind) + "\n"
  {
    match kind
    case "users" => ListExport(UsersHeader, Map(ShareLine, d.ageGroups))
    case "engagement" => EngagementCsv(d)
    case "revenue" => ListExport(RevenueHeader, Map(PlanLine, d.subscriptions))
    case "reports" => ListExport(ReportsHeader, Map(ShareLine, d.reportTypes))
    case _ => SummaryCsv(d)
  }

  /** The first line of each report type's export. */
  function CsvHeader(kind: string): string
  {
    match kind
    case "users" => UsersHeader
    case "engagement" => EngagementHeader
    case "revenue" => RevenueHeader
    case "reports" => ReportsHeader
    case _ => SummaryHeader
  }

  const UsersHeader := "Age Group,Count,Percentage"
  const RevenueHeader := "Plan,Subscribers,Revenue"
  const ReportsHeader := "Report Type,Count,Percentage"

  /** The "engagement" export: a header and three metric lines. */
  function EngagementCsv(d: ReportData): (r: string)
    ensures |r| > |EngagementHeader| && r[..|EngagementHeader| + 1] == EngagementHeader + "\n"
  {
    Lines4(EngagementHeader, MetricLine("Matches", d.matches),
           MetricLine("Messages", d.messages), MetricLine("Likes", d.likes))
  }

  const EngagementHeader := "Metric,Total,Daily,Trend"

  /** The export for any other type: a header and three user totals. */
  function SummaryCsv(d: ReportData): (r: string)
    ensures |r| > |SummaryHeader| && r[..|SummaryHeader| + 1] == SummaryHeader + "\n"
  {
    Lines4(SummaryHeader, "Total Users," + IntToString(d.totalUsers),
           "Active Users," + IntToString(d.activeUsers), "New Today," + IntToString(d.newToday))
  }

  /** Four lines joined by three newlines, as the fixed-size exports are
      written out. */
  function Lines4(a: string, b: string, c: string, e: string): (r: string)
    ensures |r| > |a| && r[..|a| + 1] == a + "\n"
  {
    a + "\n" + b + "\n" + c + "\n" + e
  }

  const SummaryHeader := "Metric,Value"

  /** Neither fixed header holds a newline. */
  lemma HeadersHaveNoNewline()
    ensures '\n' !in EngagementHeader && '\n' !in SummaryHeader
  {
    assert forall i :: 0 <= i < |EngagementHeader| ==> EngagementHeader[i] != '\n';
    assert forall i :: 0 <= i < |SummaryHeader| ==> SummaryHeader[i] != '\n';
  }

  /** Splitting a list export at '\n' gives back its header and rows when
      there is at least one row and no line holds a newline. */
  lemma ListExportLines(header: string, rows: seq<string>)
    requires '\n' !in header
    requires |rows| >= 1 && forall i :: 0 <= i < |rows| ==> '\n' !in rows[i]
    ensures Split(ListExport(header, rows), '\n') == [header] + rows
    ensures |Split(ListExport(header, rows), '\n')| == 1 + |rows|
  {
    SplitAtSeparator(header, Join(rows, '\n'), '\n');
    SplitJoin(rows, '\n');
  }

  /** With no rows a list export is the header and a newline: two lines,
      the second empty. */
  lemma ListExportNoRows(header: string)
    requires '\n' !in header
    ensures ListExport(header, []) == header + "\n"
    ensures Split(ListExport(header, []), '\n') == [header, ""]
  {
    assert ListExport(header, []) == header + "\n" + "";
    SplitAtSeparator(header, "", '\n');
  }

  lemma ShareLineHasNoNewline(s: Share)
    requires '\n' !in s.name
    ensures '\n' !in ShareLine(s)
  {
    IntToStringHasNoSeparators(s.count);
    IntToStringHasNoSeparators(s.percentage);
  }

  lemma PlanLineHasNoNewline(p: Plan)
    requires '\n' !in p.plan
    ensures '\n' !in PlanLine(p)
  {
    IntToStringHasNoSeparators(p.count);
    IntToStringHasNoSeparators(p.revenue);
  }

  /** The "users" export is its header and one line per age group. */
  lemma UsersExportLines(d: ReportData)
    requires |d.ageGroups| >= 1
    requires forall i :: 0 <= i < |d.ageGroups| ==> '\n' !in d.ageGroups[i].name
    ensures Split(CsvContent("users", d), '\n') ==
            ["Age Group,Count,Percentage"] + Map(ShareLine, d.ageGroups)
  {
    var rows := Map(ShareLine, d.ageGroups);
    forall i | 0 <= i < |rows|
      ensures '\n' !in rows[i]
    {
      ShareLineHasNoNewline(d.ageGroups[i]);
    }
    ListExportLines("Age Group,Count,Percentage", rows);
  }

  /** The "revenue" export is its header and one line per plan. */
  lemma RevenueExportLines(d: ReportData)
    requires |d.subscriptions| >= 1
    requires forall i :: 0 <= i < |d.subscriptions| ==> '\n' !in d.subscriptions[i].plan
    ensures Split(CsvContent("revenue", d), '\n') ==
            ["Plan,Subscribers,Revenue"] + Map(PlanLine, d.subscriptions)
  {
    var rows := Map(PlanLine, d.subscriptions);
    forall i | 0 <= i < |rows|
      ensures '\n' !in rows[i]
    {
      PlanLineHasNoNewline(d.subscriptions[i]);
    }
    ListExportLines("Plan,Subscribers,Revenue", rows);
  }

  /** The "reports" export is its header and one line per report type. */
  lemma ReportsExportLines(d: ReportData)
    requires |d.reportTypes| >= 1
    requires forall i :: 0 <= i < |d.reportTypes| ==> '\n' !in d.reportTypes[i].name
    ensures Split(CsvContent("reports", d), '\n') ==
            ["Report Type,Count,Percentage"] + Map(ShareLine, d.reportTypes)
  {
    var rows := Map(ShareLine, d.reportTypes);
    forall i | 0 <= i < |rows|
      ensures '\n' !in rows[i]
    {
      ShareLineHasNoNewline(d.reportTypes[i]);
    }
    ListExportLines("Report Type,Count,Percentage", rows);
  }

  /** A share line has the three fields label, count and percentage with a
      '%' sign, when the label holds no comma. */
  lemma ShareLineFields(s: Share)
    requires ',' !in s.name
    ensures Split(ShareLine(s), ',') == [s.name, IntToString(s.count), IntToString(s.percentage) + "%"]
  {
    var c, p := IntToString(s.count), IntToString(s.percentage) + "%";
    IntToStringHasNoSeparators(s.count);
    IntToStringHasNoSeparators(s.percentage);
    assert ShareLine(s) == s.name + [','] + (c + [','] + p);
    SplitAtSeparator(s.name, c + [','] + p, ',');
    SplitAtSeparator(c, p, ',');
    SplitNoSeparator(p, ',');
  }

  /** Fields are not quoted: each comma inside a label adds a field. */
  lemma ShareLineFieldCount(s: Share)
    ensures |Split(ShareLine(s), ',')| == 3 + Occurrences(s.name, ',')
  {
    var c, p := IntToString(s.count), IntToString(s.percentage) + "%";
    IntToStringHasNoSeparators(s.count);
    IntToStringHasNoSeparators(s.percentage);
    assert ',' !in p;
    assert ShareLine(s) == s.name + ([','] + c) + ([','] + p);
    SplitCount(ShareLine(s), ',');
    OccurrencesAppend(s.name + ([','] + c), [','] + p, ',');
    OccurrencesAppend(s.name, [','] + c, ',');
    OccurrencesAppend([','], c, ',');
    OccurrencesAppend([','], p, ',');
    OccurrencesAbsent(c, ',');
    OccurrencesAbsent(p, ',');
  }

  /** A plan line has the three fields plan, subscribers and revenue with a
      '$' sign, when the plan name holds no comma. */
  lemma PlanLineFields(p: Plan)
    requires ',' !in p.plan
    ensures Split(PlanLine(p), ',') == [p.plan, IntToString(p.count), "$" + IntToString(p.revenue)]
  {
    var c, r := IntToString(p.count), "$" + IntToString(p.revenue);
    IntToStringHasNoSeparators(p.count);
    IntToStringHasNoSeparators(p.revenue);
    assert PlanLine(p) == p.plan + [','] + (c + [','] + r);
    SplitAtSeparator(p.plan, c + [','] + r, ',');
    SplitAtSeparator(c, r, ',');
    SplitNoSeparator(r, ',');
  }

  /** The engagement export is exactly four lines: the header, then the
      Matches, Messages and Likes lines. */
  lemma EngagementExportLines(d: ReportData)
    ensures Split(CsvContent("engagement", d), '\n') ==
            [EngagementHeader,
             MetricLine("Matches", d.matches),
             MetricLine("Messages", d.messages),
             MetricLine("Likes", d.likes)]
  {
    HeadersHaveNoNewline();
    MetricLineHasNoNewline("Matches", d.matches);
    MetricLineHasNoNewline("Messages", d.messages);
    MetricLineHasNoNewline("Likes", d.likes);
    FourLines(EngagementHeader, MetricLine("Matches", d.matches),
              MetricLine("Messages", d.messages), MetricLine("Likes", d.likes));
  }

  lemma MetricLineHasNoNewline(name: string, m: Metric)
    requires '\n' !in name
    ensures '\n' !in MetricLine(name, m)
  {
    IntToStringHasNoSeparators(m.total);
    IntToStringHasNoSeparators(m.daily);
    IntToStringHasNoSeparators(m.trend);
  }

  /** Three newline-free lines joined by two newlines split back. */
  lemma ThreeLines(b: string, c: string, e: string)
    requires '\n' !in b && '\n' !in c && '\n' !in e
    ensures Split(b + "\n" + c + "\n" + e, '\n') == [b, c, e]
  {
    assert b + "\n" + c + "\n" + e == b + ['\n'] + (c + "\n" + e);
    SplitAtSeparator(b, c + "\n" + e, '\n');
    SplitAtSeparator(c, e, '\n');
    SplitNoSeparator(e, '\n');
  }

  /** Four newline-free lines joined by three newlines split back. */
  lemma FourLines(a: string, b: string, c: string, e: string)
    requires '\n' !in a && '\n' !in b && '\n' !in c && '\n' !in e
    ensures Split(Lines4(a, b, c, e), '\n') == [a, b, c, e]
  {
    var t := b + "\n" + c + "\n" + e;
    assert a + "\n" + b + "\n" + c + "\n" + e == a + ['\n'] + t;
    SplitAtSeparator(a, t, '\n');
    ThreeLines(b, c, e);
  }

  /** Any other report type gives the four-line user summary. */
  lemma SummaryExportLines(kind: string, d: ReportData)
    requires kind != "users" && kind != "engagement" && kind != "revenue" && kind != "reports"
    ensures Split(CsvContent(kind, d), '\n') ==
            [SummaryHeader,
             "Total Users," + IntToString(d.totalUsers),
             "Active Users," + IntToString(d.activeUsers),
             "New Today," + IntToString(d.newToday)]
  {
    assert CsvContent(kind, d) == SummaryCsv(d);
    HeadersHaveNoNewline();
    TotalLineHasNoNewline("Total Users,", d.totalUsers);
    TotalLineHasNoNewline("Active Users,", d.activeUsers);
    TotalLineHasNoNewline("New Today,", d.newToday);
    FourLines(SummaryHeader, "Total Users," + IntToString(d.totalUsers),
              "Active Users," + IntToString(d.activeUsers), "New Today," + IntToString(d.newToday));
  }

  lemma TotalLineHasNoNewline(prefix: string, n: int)
    requires forall i :: 0 <= i < |prefix| ==> prefix[i] != '\n'
    ensures '\n' !in prefix + IntToString(n)
  {
    IntToStringHasNoSeparators(n);
  }
}

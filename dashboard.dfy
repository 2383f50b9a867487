/** app/dashboard/page.tsx: the overview. Four aggregate requests are made together; each
    result is stored only if its own envelope succeeded; the charts are derived from the
    stored values. */
module DashboardPage {
  import opened Types
  import ApiClient

  /** The pie chart's palette. */
  const COLORS: seq<string> := ["#0ea5e9", "#8b5cf6", "#ec4899", "#f59e0b", "#10b981", "#ef4444"]

  /** Shapes of the `data` of the recent-reports, by-category and by-tag responses. */
  datatype RecentReportsData = RecentReportsData(reports: Option<seq<DashboardReport>>)
  datatype CategoriesData = CategoriesData(categories: Option<seq<CategoryReportSummary>>)
  datatype TagsData = TagsData(tags: Option<seq<TagReportSummary>>)

  datatype Slice = Slice(name: string, value: int)

  /** The "Others" slice: reports neither pending nor resolved, never below zero. */
  function Others(total: int, pending: int, resolved: int): (o: int)
    ensures o >= 0
    ensures if pending + resolved <= total then pending + resolved + o == total else o == 0
  {
    if total - pending - resolved > 0 then total - pending - resolved else 0
  }

  /** `statusDistribution`: Pending, Resolved and Others in that order, or nothing without
      a summary. */
  function StatusDistribution(summary: Option<DashboardSummary>): (d: seq<Slice>)
    ensures summary.None? ==> d == []
    ensures summary.Some? ==> |d| == 3
    ensures summary.Some? ==>
              && d[0] == Slice("Pending", summary.value.pendingCount)
              && d[1] == Slice("Resolved", summary.value.resolvedCount)
              && d[2].name == "Others" && d[2].value >= 0
  {
    match summary
    case None => []
    case Some(s) =>
      [Slice("Pending", s.pendingCount),
       Slice("Resolved", s.resolvedCount),
       Slice("Others", Others(s.totalReports, s.pendingCount, s.resolvedCount))]
  }

  /** The three slices add up to the total, or to pending plus resolved when those two
      already exceed it. */
  lemma DistributionSum(s: DashboardSummary)
    ensures var d := StatusDistribution(Some(s));
            d[0].value + d[1].value + d[2].value
              == if s.pendingCount + s.resolvedCount <= s.totalReports then s.totalReports
                 else s.pendingCount + s.resolvedCount
  {
  }

  datatype TagBar = TagBar(name: string, count: int)

  /** `tagChartData`: one bar per tag, in order, labelled with the tag's label. */
  function TagChartData(tags: seq<TagReportSummary>): (bars: seq<TagBar>)
    ensures |bars| == |tags|
    ensures forall i :: 0 <= i < |tags| ==> bars[i] == TagBar(tags[i].tagLabel, tags[i].reportCount)
  {
    if tags == [] then [] else [TagBar(tags[0].tagLabel, tags[0].reportCount)] + TagChartData(tags[1..])
  }

  /** `categories.slice(0, 5)`: the first five categories in server order. */
  function TopCategories(categories: seq<CategoryReportSummary>): (top: seq<CategoryReportSummary>)
    ensures top <= categories && |top| <= 5
    ensures |categories| >= 5 ==> |top| == 5
    ensures |categories| < 5 ==> top == categories
  {
    if |categories| <= 5 then categories else categories[..5]
  }

  /** Fill of pie cell `i`: the palette, cycled. */
  function PieColor(i: nat): (c: string)
    ensures c in COLORS
    ensures c == COLORS[i % |COLORS|]
  {
    COLORS[i % |COLORS|]
  }

  /** Colours repeat every six cells and differ within any six consecutive ones. */
  lemma PieColorsCycle(i: nat, j: nat)
    ensures PieColor(i + 6) == PieColor(i)
    ensures i < j < i + 6 ==> PieColor(i) != PieColor(j)
  {
    assert (i + 6) % 6 == i % 6;
    if i < j < i + 6 {
      assert i % 6 != j % 6;
    }
  }

  datatype StatCard = TotalCard | PendingCard | ResolvedCard | ThisWeekCard | ThisMonthCard

  /** The number on a stat card: `summary?.field || 0`. */
  function StatValue(summary: Option<DashboardSummary>, card: StatCard): (n: int)
    ensures summary.None? ==> n == 0
    ensures summary.Some? ==> n == match card
                                   case TotalCard => summary.value.totalReports
                                   case PendingCard => summary.value.pendingCount
                                   case ResolvedCard => summary.value.resolvedCount
                                   case ThisWeekCard => summary.value.reportsThisWeek
                                   case ThisMonthCard => summary.value.reportsThisMonth
  {
    var field :=
      if summary.None? then None
      else Some(match card
                case TotalCard => summary.value.totalReports
                case PendingCard => summary.value.pendingCount
                case ResolvedCard => summary.value.resolvedCount
                case ThisWeekCard => summary.value.reportsThisWeek
                case ThisMonthCard => summary.value.reportsThisMonth);
    OrDefault(field, 0)
  }

  /** A result whose envelope succeeded but has no `data`: reading a field of it throws. */
  predicate Throws<T>(out: Outcome<T>)
  {
    out.Fulfilled? && out.envelope.success && out.envelope.data.None?
  }

  predicate AllFulfilled(s: Outcome<DashboardSummary>, r: Outcome<RecentReportsData>,
                         c: Outcome<CategoriesData>, t: Outcome<TagsData>)
  {
    s.Fulfilled? && r.Fulfilled? && c.Fulfilled? && t.Fulfilled?
  }

  class DashboardPage {
    var summary: Option<DashboardSummary>
    var recentReports: seq<DashboardReport>
    var categories: seq<CategoryReportSummary>
    var tags: seq<TagReportSummary>

    constructor ()
      ensures summary == None && recentReports == [] && categories == [] && tags == []
    {
      summary := None;
      recentReports := [];
      categories := [];
      tags := [];
    }

    /** `loadDashboardData`. If any of the four calls rejects, nothing is stored. Otherwise
        the results are stored in order, each only when its own envelope succeeded; a
        succeeded envelope without data stops the remaining steps. */
    method LoadDashboardData(s: Outcome<DashboardSummary>, r: Outcome<RecentReportsData>,
                             c: Outcome<CategoriesData>, t: Outcome<TagsData>)
      returns (sent: seq<ApiClient.Request>)
      modifies this
      ensures sent == [ApiClient.GetDashboardSummary(),
                       ApiClient.GetRecentReports(Some(7), Some(5)),
                       ApiClient.GetReportsByCategory(None, Some(1), Some(10)),
                       ApiClient.GetReportsByTag(None, Some(1), Some(10))]
      ensures summary == if AllFulfilled(s, r, c, t) && s.envelope.success then s.envelope.data else old(summary)
      ensures recentReports ==
                if AllFulfilled(s, r, c, t) && r.envelope.success && !Throws(r)
                then ListOrEmpty(r.envelope.data.value.reports) else old(recentReports)
      ensures categories ==
                if AllFulfilled(s, r, c, t) && !Throws(r) && c.envelope.success && !Throws(c)
                then ListOrEmpty(c.envelope.data.value.categories) else old(categories)
      ensures tags ==
                if AllFulfilled(s, r, c, t) && !Throws(r) && !Throws(c) && t.envelope.success && !Throws(t)
                then ListOrEmpty(t.envelope.data.value.tags) else old(tags)
    {
      sent := [ApiClient.GetDashboardSummary(),
               ApiClient.GetRecentReports(Some(7), Some(5)),
               ApiClient.GetReportsByCategory(None, Some(1), Some(10)),
               ApiClient.GetReportsByTag(None, Some(1), Some(10))];
      if !AllFulfilled(s, r, c, t) {
        return;
      }
      if s.envelope.success {
        summary := s.envelope.data;
      }
      if r.envelope.success {
        if r.envelope.data.None? {
          return;
        }
        recentReports := ListOrEmpty(r.envelope.data.value.reports);
      }
      if c.envelope.success {
        if c.envelope.data.None? {
          return;
        }
        categories := ListOrEmpty(c.envelope.data.value.categories);
      }
      if t.envelope.success {
        if t.envelope.data.None? {
          return;
        }
        tags := ListOrEmpty(t.envelope.data.value.tags);
      }
    }
  }
}

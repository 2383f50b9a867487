/** app/dashboard/reports/page.tsx: the report list, its client-side search, its pager and
    the categories cell of each row. */
module ReportsPage {
  import opened Types
  import opened Text
  import opened Listing
  import ApiClient

  /** The page size the page declares; it never reaches the request (see ReportsRequest). */
  const PAGE_SIZE := 20

  /** A report is shown when its title or its description contains the search term,
      letters compared without case. */
  function Matches(r: DashboardReport, term: string): (matched: bool)
    ensures matched <==> (exists i :: Occurs(Lower(term), Lower(r.title), i))
                         || (exists i :: Occurs(Lower(term), Lower(r.description), i))
    ensures matched ==> |term| <= |r.title| || |term| <= |r.description|
  {
    Contains(Lower(r.title), Lower(term)) || Contains(Lower(r.description), Lower(term))
  }

  /** `filteredReports`: the loaded reports that match, in their loaded order. */
  function FilterReports(reports: seq<DashboardReport>, term: string): (shown: seq<DashboardReport>)
    ensures |shown| <= |reports|
    ensures forall i :: 0 <= i < |shown| ==> shown[i] in reports && Matches(shown[i], term)
    ensures forall i :: 0 <= i < |reports| && Matches(reports[i], term) ==> reports[i] in shown
  {
    Filter(reports, r => Matches(r, term))
  }

  /** An empty search shows every loaded report. */
  lemma EmptySearchShowsAll(reports: seq<DashboardReport>)
    ensures FilterReports(reports, "") == reports
  {
    forall i | 0 <= i < |reports|
      ensures Matches(reports[i], "")
    {
      assert Lower("") == "";
      assert StartsWith(Lower(reports[i].title), "");
    }
    FilterKeepsAll(reports, r => Matches(r, ""));
  }

  /** The search ignores the case of the term. */
  lemma SearchIgnoresCase(reports: seq<DashboardReport>, term: string)
    ensures FilterReports(reports, Lower(term)) == FilterReports(reports, term)
  {
    LowerIdempotent(term);
    FilterCongruent(reports, r => Matches(r, Lower(term)), r => Matches(r, term));
  }

  /** The categories cell: the first two categories as badges, then `+n` for the rest. */
  datatype CategoryCell = CategoryCell(badges: seq<CategoryInfo>, more: Option<int>)

  function CategoryBadges(categories: seq<CategoryInfo>): (c: CategoryCell)
    ensures |c.badges| <= 2 && c.badges <= categories
    ensures |c.badges| == 2 || c.badges == categories
    ensures c.more.Some? <==> |categories| > 2
    ensures |c.badges| + (if c.more.Some? then c.more.value else 0) == |categories|
  {
    if |categories| <= 2 then CategoryCell(categories, None)
    else CategoryCell(categories[..2], Some(|categories| - 2))
  }

  class ReportsPage {
    var reports: seq<DashboardReport>
    var page: int
    var totalPages: int
    var totalItems: int
    var searchTerm: string

    constructor ()
      ensures reports == [] && page == 1 && totalPages == 1 && totalItems == 0 && searchTerm == ""
    {
      reports := [];
      page := 1;
      totalPages := 1;
      totalItems := 0;
      searchTerm := "";
    }

    /** The rows on screen: loaded reports that match the term, every loaded one when the
        term is empty. */
    function Displayed(): (shown: seq<DashboardReport>)
      reads this
      ensures |shown| <= |reports|
      ensures forall i :: 0 <= i < |shown| ==> shown[i] in reports && Matches(shown[i], searchTerm)
      ensures forall i :: 0 <= i < |reports| && Matches(reports[i], searchTerm) ==> reports[i] in shown
      ensures searchTerm == "" ==> shown == reports
    {
      if searchTerm == "" then EmptySearchShowsAll(reports); FilterReports(reports, searchTerm)
      else FilterReports(reports, searchTerm)
    }

    /** `loadReports`. The page calls the listing wrapper with two numbers where it takes one
        filters object, so the request carries no filters at all: page 1 and page size 10
        whatever page is shown. A successful envelope replaces the list, the page count and
        the total, the total being read from `meta.total_items`. */
    method LoadReports(out: Outcome<seq<DashboardReport>>) returns (sent: ApiClient.Request)
      modifies this
      ensures sent == ReportsRequest(page, PAGE_SIZE)
      ensures Succeeded(out) ==>
                && reports == ListOrEmpty(out.envelope.data)
                && totalPages == TotalPagesOf(out.envelope.meta)
                && totalItems == TotalItemsOf(out.envelope.meta)
      ensures !Succeeded(out) ==>
                reports == old(reports) && totalPages == old(totalPages) && totalItems == old(totalItems)
      ensures page == old(page) && searchTerm == old(searchTerm)
    {
      sent := ReportsRequest(page, PAGE_SIZE);
      if Succeeded(out) {
        reports := ListOrEmpty(out.envelope.data);
        totalPages := TotalPagesOf(out.envelope.meta);
        totalItems := TotalItemsOf(out.envelope.meta);
      }
    }

    /** Typing in the search box changes only the term; the list is not fetched again. */
    method SetSearchTerm(term: string)
      modifies this
      ensures searchTerm == term
      ensures reports == old(reports) && page == old(page)
      ensures totalPages == old(totalPages) && totalItems == old(totalItems)
      ensures Displayed() == FilterReports(old(reports), term)
    {
      searchTerm := term;
    }

    /** The previous-page button; `reloads` says whether the page changed, which is what
        makes the page fetch its list again. */
    method GoToPrevPage() returns (reloads: bool)
      modifies this
      ensures page == PrevPage(old(page)) && reloads == (page != old(page))
      ensures reports == old(reports) && searchTerm == old(searchTerm)
      ensures totalPages == old(totalPages) && totalItems == old(totalItems)
    {
      var before := page;
      page := PrevPage(page);
      reloads := page != before;
    }

    method GoToNextPage() returns (reloads: bool)
      modifies this
      ensures page == NextPage(old(page), totalPages) && reloads == (page != old(page))
      ensures reports == old(reports) && searchTerm == old(searchTerm)
      ensures totalPages == old(totalPages) && totalItems == old(totalItems)
    {
      var before := page;
      page := NextPage(page, totalPages);
      reloads := page != before;
    }
  }

  /** The request `getReports(page, pageSize)` builds. The wrapper reads its first argument
      as its optional filters object; a number has none of the filter properties, and the
      second argument is not a parameter of the wrapper. */
  function ReportsRequest(page: int, pageSize: int): (r: ApiClient.Request)
    ensures r.verb == ApiClient.GET && r.path == "/api/admin/reports"
    ensures ApiClient.Page in r.query && r.query[ApiClient.Page] == Some(ApiClient.PNum(ApiClient.DEFAULT_PAGE))
    ensures ApiClient.PageSize in r.query
            && r.query[ApiClient.PageSize] == Some(ApiClient.PNum(ApiClient.DEFAULT_PAGE_SIZE))
    ensures forall k :: k in r.query && k != ApiClient.Page && k != ApiClient.PageSize ==> r.query[k] == None
  {
    ApiClient.GetReports(ApiClient.NO_REPORT_FILTERS)
  }

  /** Two report pages that differ in their page or page size send the same request. */
  lemma ReportsRequestIgnoresPage(p1: int, size1: int, p2: int, size2: int)
    ensures ReportsRequest(p1, size1) == ReportsRequest(p2, size2)
  {
  }
}

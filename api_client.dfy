/** The request/session layer of lib/api-client.ts.

    Every wrapper of the client is a pure function from its arguments to the request it
    issues (verb, path, query parameters, body, default headers). A query parameter that is
    `undefined` in the source is `None` here; how the transport serialises or drops it is not
    modelled. The browser state the interceptors touch (the stored `access_token` and the
    current location) is the class Browser; `Browser.Call` runs one request through both
    interceptors with the transport's reply given as an input. */
module ApiClient {
  import opened Types

  datatype Verb = GET | POST | PUT | PATCH | DELETE

  datatype Param = PNum(n: int) | PStr(s: string) | PBool(b: bool)

  /** The query parameter names the wrappers use. */
  datatype QueryKey =
    | Page | PageSize | Status | FromDate | ToDate | Search | UserId | Platform
    | HasAttachments | HasError | SortBy | Sort | SubmissionType | City | HasEmail | IsActive
    | Slug | ProvinceId | RegencyId | TagType | Category | Limit | Days | Tree
  {
    /** The parameter name on the wire. */
    function Wire(): string
    {
      match this
      case Page => "page"
      case PageSize => "page_size"
      case Status => "status"
      case FromDate => "from_date"
      case ToDate => "to_date"
      case Search => "search"
      case UserId => "user_id"
      case Platform => "platform"
      case HasAttachments => "has_attachments"
      case HasError => "has_error"
      case SortBy => "sort_by"
      case Sort => "sort"
      case SubmissionType => "submission_type"
      case City => "city"
      case HasEmail => "has_email"
      case IsActive => "is_active"
      case Slug => "slug"
      case ProvinceId => "province_id"
      case RegencyId => "regency_id"
      case TagType => "tag_type"
      case Category => "category"
      case Limit => "limit"
      case Days => "days"
      case Tree => "tree"
    }
  }

  /** Query parameters by name; every name the wrapper lists is present, `None` when undefined. */
  type Query = map<QueryKey, Option<Param>>

  datatype Body =
    | NoBody
    | Credentials(email: string, password: string)
    | StatusChange(status: string, resolutionNotes: Option<string>)
    | RateLimitValue(value: Option<int>)
    | NewPrompt(prompt: CreatePromptDto)
    | PromptChanges(changes: UpdatePromptDto)

  datatype Request = Request(verb: Verb, path: string, query: Query, body: Body, headers: map<string, string>)

  const DEFAULT_API_URL := "http://localhost:8000"
  const DEFAULT_HEADERS: map<string, string> := map["Content-Type" := "application/json"]
  const DEFAULT_PAGE := 1
  const DEFAULT_PAGE_SIZE := 10

  /** `process.env.NEXT_PUBLIC_API_URL || 'http://localhost:8000'` */
  function BaseUrl(configured: Option<string>): (r: string)
    ensures configured.Some? && configured.value != "" ==> r == configured.value
    ensures configured.None? || configured.value == "" ==> r == DEFAULT_API_URL
  {
    OrElse(configured, DEFAULT_API_URL)
  }

  function Str(x: Option<string>): Option<Param>
  {
    if x.Some? then Some(PStr(x.value)) else None
  }

  function Num(x: Option<int>): Option<Param>
  {
    if x.Some? then Some(PNum(x.value)) else None
  }

  function Flag(x: Option<bool>): Option<Param>
  {
    if x.Some? then Some(PBool(x.value)) else None
  }

  function Get(path: string, query: Query): Request
  {
    Request(GET, path, query, NoBody, DEFAULT_HEADERS)
  }

  function Send(verb: Verb, path: string, body: Body): Request
  {
    Request(verb, path, map[], body, DEFAULT_HEADERS)
  }

  /** The `page` and `page_size` a listing wrapper sends: `filters.page || 1` and
      `filters.pageSize || 10`. */
  predicate PagedAs(q: Query, page: Option<int>, pageSize: Option<int>)
  {
    && Page in q && q[Page] == Some(PNum(OrDefault(page, DEFAULT_PAGE)))
    && PageSize in q && q[PageSize] == Some(PNum(OrDefault(pageSize, DEFAULT_PAGE_SIZE)))
  }

  /** An optional filter forwarded under its wire name, undefined when absent. */
  predicate Forwards(q: Query, name: QueryKey, v: Option<Param>)
  {
    name in q && q[name] == v
  }

  // ----- Auth -----

  function Login(email: string, password: string): (r: Request)
    ensures r.verb == POST && r.path == "/api/auth/login" && r.body == Credentials(email, password)
    ensures r.query == map[]
  {
    Send(POST, "/api/auth/login", Credentials(email, password))
  }

  function GetMe(): (r: Request)
    ensures r.verb == GET && r.path == "/api/auth/me" && r.query == map[]
    ensures r.body == NoBody
  {
    Get("/api/auth/me", map[])
  }

  // ----- Dashboard aggregates -----

  function GetDashboardSummary(): (r: Request)
    ensures r.verb == GET && r.path == "/api/dashboard/summary" && r.query == map[]
    ensures r.body == NoBody
  {
    Get("/api/dashboard/summary", map[])
  }

  /** `getRecentReports(days = 7, limit = 10)`: a default parameter replaces only an
      undefined argument. */
  function GetRecentReports(days: Option<int>, limit: Option<int>): (r: Request)
    ensures r.verb == GET && r.path == "/api/dashboard/recent"
    ensures r.query.Keys == {Days, Limit}
    ensures days.None? ==> r.query[Days] == Some(PNum(7))
    ensures limit.None? ==> r.query[Limit] == Some(PNum(10))
    ensures days.Some? ==> r.query[Days] == Some(PNum(days.value))
    ensures limit.Some? ==> r.query[Limit] == Some(PNum(limit.value))
  {
    var d := if days.Some? then days.value else 7;
    var l := if limit.Some? then limit.value else 10;
    Get("/api/dashboard/recent", map[Days := Some(PNum(d)), Limit := Some(PNum(l))])
  }

  function GetReportsByCategory(slug: Option<string>, page: Option<int>, pageSize: Option<int>): (r: Request)
    ensures r.verb == GET && r.path == "/api/dashboard/by-category"
    ensures r.query.Keys == {Slug, Page, PageSize} && Forwards(r.query, Slug, Str(slug))
    ensures page.None? ==> r.query[Page] == Some(PNum(1))
    ensures pageSize.None? ==> r.query[PageSize] == Some(PNum(10))
    ensures page.Some? ==> r.query[Page] == Some(PNum(page.value))
    ensures pageSize.Some? ==> r.query[PageSize] == Some(PNum(pageSize.value))
  {
    var p := if page.Some? then page.value else 1;
    var ps := if pageSize.Some? then pageSize.value else 10;
    Get("/api/dashboard/by-category", map[Slug := Str(slug), Page := Some(PNum(p)), PageSize := Some(PNum(ps))])
  }

  function GetReportsByLocation(provinceId: Option<string>, regencyId: Option<string>, page: Option<int>, pageSize: Option<int>): (r: Request)
    ensures r.verb == GET && r.path == "/api/dashboard/by-location"
    ensures r.query.Keys == {ProvinceId, RegencyId, Page, PageSize}
    ensures Forwards(r.query, ProvinceId, Str(provinceId)) && Forwards(r.query, RegencyId, Str(regencyId))
    ensures page.None? ==> r.query[Page] == Some(PNum(1))
    ensures pageSize.None? ==> r.query[PageSize] == Some(PNum(10))
    ensures page.Some? ==> r.query[Page] == Some(PNum(page.value))
    ensures pageSize.Some? ==> r.query[PageSize] == Some(PNum(pageSize.value))
  {
    var p := if page.Some? then page.value else 1;
    var ps := if pageSize.Some? then pageSize.value else 10;
    Get("/api/dashboard/by-location",
      map[ProvinceId := Str(provinceId), RegencyId := Str(regencyId), Page := Some(PNum(p)), PageSize := Some(PNum(ps))])
  }

  function GetReportsByTag(tagType: Option<string>, page: Option<int>, pageSize: Option<int>): (r: Request)
    ensures r.verb == GET && r.path == "/api/dashboard/by-tag"
    ensures r.query.Keys == {TagType, Page, PageSize} && Forwards(r.query, TagType, Str(tagType))
    ensures page.None? ==> r.query[Page] == Some(PNum(1))
    ensures pageSize.None? ==> r.query[PageSize] == Some(PNum(10))
    ensures page.Some? ==> r.query[Page] == Some(PNum(page.value))
    ensures pageSize.Some? ==> r.query[PageSize] == Some(PNum(pageSize.value))
  {
    var p := if page.Some? then page.value else 1;
    var ps := if pageSize.Some? then pageSize.value else 10;
    Get("/api/dashboard/by-tag", map[TagType := Str(tagType), Page := Some(PNum(p)), PageSize := Some(PNum(ps))])
  }

  datatype MapFilters = MapFilters(
    provinceId: Option<string>,
    regencyId: Option<string>,
    category: Option<string>,
    status: Option<string>,
    limit: Option<int>)

  function GetMapData(f: MapFilters): (r: Request)
    ensures r.verb == GET && r.path == "/api/dashboard/map"
    ensures r.query.Keys == {ProvinceId, RegencyId, Category, Status, Limit}
    ensures Forwards(r.query, ProvinceId, Str(f.provinceId)) && Forwards(r.query, RegencyId, Str(f.regencyId))
    ensures Forwards(r.query, Category, Str(f.category)) && Forwards(r.query, Status, Str(f.status))
    ensures Forwards(r.query, Limit, Num(f.limit))
  {
    Get("/api/dashboard/map", map[
      ProvinceId := Str(f.provinceId), RegencyId := Str(f.regencyId),
      Category := Str(f.category), Status := Str(f.status), Limit := Num(f.limit)])
  }

  function GetMapMarkers(): (r: Request)
    ensures r.verb == GET && r.path == "/api/dashboard/map-data" && r.query == map[]
    ensures r.body == NoBody
  {
    Get("/api/dashboard/map-data", map[])
  }

  // ----- Admin listings -----

  datatype ReportFilters = ReportFilters(
    page: Option<int>,
    pageSize: Option<int>,
    status: Option<string>,
    fromDate: Option<string>,
    toDate: Option<string>,
    search: Option<string>,
    userId: Option<string>,
    platform: Option<string>,
    hasAttachments: Option<bool>,
    sortBy: Option<string>,
    sort: Option<string>)

  /** `getReports()` without a filters object: every field undefined. */
  const NO_REPORT_FILTERS := ReportFilters(None, None, None, None, None, None, None, None, None, None, None)

  function GetReports(f: ReportFilters): (r: Request)
    ensures r.verb == GET && r.path == "/api/admin/reports"
    ensures r.query.Keys == {Page, PageSize, Status, FromDate, ToDate, Search,
                             UserId, Platform, HasAttachments, SortBy, Sort}
    ensures PagedAs(r.query, f.page, f.pageSize)
    ensures Forwards(r.query, Status, Str(f.status)) && Forwards(r.query, Search, Str(f.search))
    ensures Forwards(r.query, FromDate, Str(f.fromDate)) && Forwards(r.query, ToDate, Str(f.toDate))
    ensures Forwards(r.query, UserId, Str(f.userId)) && Forwards(r.query, Platform, Str(f.platform))
    ensures Forwards(r.query, HasAttachments, Flag(f.hasAttachments))
    ensures Forwards(r.query, SortBy, Str(f.sortBy)) && Forwards(r.query, Sort, Str(f.sort))
  {
    Get("/api/admin/reports", map[
      Page := Some(PNum(OrDefault(f.page, DEFAULT_PAGE))),
      PageSize := Some(PNum(OrDefault(f.pageSize, DEFAULT_PAGE_SIZE))),
      Status := Str(f.status),
      FromDate := Str(f.fromDate),
      ToDate := Str(f.toDate),
      Search := Str(f.search),
      UserId := Str(f.userId),
      Platform := Str(f.platform),
      HasAttachments := Flag(f.hasAttachments),
      SortBy := Str(f.sortBy),
      Sort := Str(f.sort)])
  }

  datatype TicketFilters = TicketFilters(
    page: Option<int>,
    pageSize: Option<int>,
    status: Option<string>,
    fromDate: Option<string>,
    toDate: Option<string>,
    search: Option<string>,
    userId: Option<string>,
    platform: Option<string>,
    hasError: Option<bool>,
    sortBy: Option<string>,
    sort: Option<string>)

  const NO_TICKET_FILTERS := TicketFilters(None, None, None, None, None, None, None, None, None, None, None)

  function GetTickets(f: TicketFilters): (r: Request)
    ensures r.verb == GET && r.path == "/api/admin/tickets"
    ensures r.query.Keys == {Page, PageSize, Status, FromDate, ToDate, Search,
                             UserId, Platform, HasError, SortBy, Sort}
    ensures PagedAs(r.query, f.page, f.pageSize)
    ensures Forwards(r.query, Status, Str(f.status)) && Forwards(r.query, Search, Str(f.search))
    ensures Forwards(r.query, FromDate, Str(f.fromDate)) && Forwards(r.query, ToDate, Str(f.toDate))
    ensures Forwards(r.query, UserId, Str(f.userId)) && Forwards(r.query, Platform, Str(f.platform))
    ensures Forwards(r.query, HasError, Flag(f.hasError))
    ensures Forwards(r.query, SortBy, Str(f.sortBy)) && Forwards(r.query, Sort, Str(f.sort))
  {
    Get("/api/admin/tickets", map[
      Page := Some(PNum(OrDefault(f.page, DEFAULT_PAGE))),
      PageSize := Some(PNum(OrDefault(f.pageSize, DEFAULT_PAGE_SIZE))),
      Status := Str(f.status),
      FromDate := Str(f.fromDate),
      ToDate := Str(f.toDate),
      Search := Str(f.search),
      UserId := Str(f.userId),
      Platform := Str(f.platform),
      HasError := Flag(f.hasError),
      SortBy := Str(f.sortBy),
      Sort := Str(f.sort)])
  }

  datatype ContributorFilters = ContributorFilters(
    page: Option<int>,
    pageSize: Option<int>,
    submissionType: Option<string>,
    fromDate: Option<string>,
    toDate: Option<string>,
    search: Option<string>,
    city: Option<string>,
    sort: Option<string>)

  function GetContributors(f: ContributorFilters): (r: Request)
    ensures r.verb == GET && r.path == "/api/admin/contributors"
    ensures r.query.Keys == {Page, PageSize, SubmissionType, FromDate, ToDate, Search, City, Sort}
    ensures PagedAs(r.query, f.page, f.pageSize)
    ensures Forwards(r.query, SubmissionType, Str(f.submissionType)) && Forwards(r.query, Search, Str(f.search))
    ensures Forwards(r.query, FromDate, Str(f.fromDate)) && Forwards(r.query, ToDate, Str(f.toDate))
    ensures Forwards(r.query, City, Str(f.city)) && Forwards(r.query, Sort, Str(f.sort))
  {
    Get("/api/admin/contributors", map[
      Page := Some(PNum(OrDefault(f.page, DEFAULT_PAGE))),
      PageSize := Some(PNum(OrDefault(f.pageSize, DEFAULT_PAGE_SIZE))),
      SubmissionType := Str(f.submissionType),
      FromDate := Str(f.fromDate),
      ToDate := Str(f.toDate),
      Search := Str(f.search),
      City := Str(f.city),
      Sort := Str(f.sort)])
  }

  datatype ExpectationFilters = ExpectationFilters(
    page: Option<int>,
    pageSize: Option<int>,
    hasEmail: Option<bool>,
    fromDate: Option<string>,
    toDate: Option<string>,
    search: Option<string>,
    sort: Option<string>)

  function GetExpectations(f: ExpectationFilters): (r: Request)
    ensures r.verb == GET && r.path == "/api/admin/expectations"
    ensures r.query.Keys == {Page, PageSize, HasEmail, FromDate, ToDate, Search, Sort}
    ensures PagedAs(r.query, f.page, f.pageSize)
    ensures Forwards(r.query, HasEmail, Flag(f.hasEmail)) && Forwards(r.query, Search, Str(f.search))
    ensures Forwards(r.query, FromDate, Str(f.fromDate)) && Forwards(r.query, ToDate, Str(f.toDate))
    ensures Forwards(r.query, Sort, Str(f.sort))
  {
    Get("/api/admin/expectations", map[
      Page := Some(PNum(OrDefault(f.page, DEFAULT_PAGE))),
      PageSize := Some(PNum(OrDefault(f.pageSize, DEFAULT_PAGE_SIZE))),
      HasEmail := Flag(f.hasEmail),
      FromDate := Str(f.fromDate),
      ToDate := Str(f.toDate),
      Search := Str(f.search),
      Sort := Str(f.sort)])
  }

  datatype PromptFilters = PromptFilters(
    page: Option<int>,
    pageSize: Option<int>,
    search: Option<string>,
    isActive: Option<bool>)

  function GetPrompts(f: PromptFilters): (r: Request)
    ensures r.verb == GET && r.path == "/api/admin/prompts"
    ensures r.query.Keys == {Page, PageSize, Search, IsActive}
    ensures PagedAs(r.query, f.page, f.pageSize)
    ensures Forwards(r.query, Search, Str(f.search)) && Forwards(r.query, IsActive, Flag(f.isActive))
  {
    Get("/api/admin/prompts", map[
      Page := Some(PNum(OrDefault(f.page, DEFAULT_PAGE))),
      PageSize := Some(PNum(OrDefault(f.pageSize, DEFAULT_PAGE_SIZE))),
      Search := Str(f.search),
      IsActive := Flag(f.isActive)])
  }

  /** A listing never asks for page 0 or a page size of 0, whatever the filters say. */
  lemma ListingsNeverSendZeroPaging(page: Option<int>, pageSize: Option<int>, q: Query)
    requires PagedAs(q, page, pageSize)
    ensures q[Page] != Some(PNum(0)) && q[PageSize] != Some(PNum(0))
    ensures page.None? || page == Some(0) ==> q[Page] == Some(PNum(1))
    ensures pageSize.None? || pageSize == Some(0) ==> q[PageSize] == Some(PNum(10))
  {
  }

  /** `x || d` with a non-zero default never yields 0, so applying it twice changes nothing. */
  lemma OrDefaultStable(x: Option<int>, d: int)
    requires d != 0
    ensures OrDefault(x, d) != 0
    ensures OrDefault(Some(OrDefault(x, d)), d) == OrDefault(x, d)
  {
  }

  /** Paging normalisation is stable: sending back the page and page size a listing
      request carried produces the same request. */
  lemma ReportsPagingStable(f: ReportFilters)
    ensures GetReports(f.(page := Some(OrDefault(f.page, 1)), pageSize := Some(OrDefault(f.pageSize, 10)))) == GetReports(f)
  {
    OrDefaultStable(f.page, 1);
    OrDefaultStable(f.pageSize, 10);
  }

  lemma TicketsPagingStable(f: TicketFilters)
    ensures GetTickets(f.(page := Some(OrDefault(f.page, 1)), pageSize := Some(OrDefault(f.pageSize, 10)))) == GetTickets(f)
  {
    OrDefaultStable(f.page, 1);
    OrDefaultStable(f.pageSize, 10);
  }

  lemma ContributorsPagingStable(f: ContributorFilters)
    ensures GetContributors(f.(page := Some(OrDefault(f.page, 1)), pageSize := Some(OrDefault(f.pageSize, 10)))) == GetContributors(f)
  {
    OrDefaultStable(f.page, 1);
    OrDefaultStable(f.pageSize, 10);
  }

  lemma ExpectationsPagingStable(f: ExpectationFilters)
    ensures GetExpectations(f.(page := Some(OrDefault(f.page, 1)), pageSize := Some(OrDefault(f.pageSize, 10)))) == GetExpectations(f)
  {
    OrDefaultStable(f.page, 1);
    OrDefaultStable(f.pageSize, 10);
  }

  lemma PromptsPagingStable(f: PromptFilters)
    ensures GetPrompts(f.(page := Some(OrDefault(f.page, 1)), pageSize := Some(OrDefault(f.pageSize, 10)))) == GetPrompts(f)
  {
    OrDefaultStable(f.page, 1);
    OrDefaultStable(f.pageSize, 10);
  }

  // ----- Single records -----

  function GetReport(id: string): (r: Request)
    ensures r.verb == GET && r.path == "/api/admin/reports/" + id
    ensures r.query == map[] && r.body == NoBody
  {
    Get("/api/admin/reports/" + id, map[])
  }

  function UpdateReportStatus(id: string, status: string, resolutionNotes: Option<string>): (r: Request)
    ensures r.verb == PATCH && r.path == "/api/reports/" + id + "/status"
    ensures r.body == StatusChange(status, resolutionNotes)
    ensures r.query == map[]
  {
    Send(PATCH, "/api/reports/" + id + "/status", StatusChange(status, resolutionNotes))
  }

  function GetTicket(id: string): (r: Request)
    ensures r.verb == GET && r.path == "/api/admin/tickets/" + id
    ensures r.query == map[] && r.body == NoBody
  {
    Get("/api/admin/tickets/" + id, map[])
  }

  function GetContributor(id: string): (r: Request)
    ensures r.verb == GET && r.path == "/api/admin/contributors/" + id
    ensures r.query == map[] && r.body == NoBody
  {
    Get("/api/admin/contributors/" + id, map[])
  }

  function GetExpectation(id: string): (r: Request)
    ensures r.verb == GET && r.path == "/api/admin/expectations/" + id
    ensures r.query == map[] && r.body == NoBody
  {
    Get("/api/admin/expectations/" + id, map[])
  }

  /** `getCategories(tree = false)` */
  function GetCategories(tree: Option<bool>): (r: Request)
    ensures r.verb == GET && r.path == "/api/categories" && r.query.Keys == {Tree}
    ensures tree.None? ==> r.query[Tree] == Some(PBool(false))
    ensures tree.Some? ==> r.query[Tree] == Some(PBool(tree.value))
  {
    Get("/api/categories", map[Tree := Some(PBool(if tree.Some? then tree.value else false))])
  }

  function GetRateLimitConfigs(): (r: Request)
    ensures r.verb == GET && r.path == "/api/admin/rate-limits" && r.query == map[]
    ensures r.body == NoBody
  {
    Get("/api/admin/rate-limits", map[])
  }

  function GetRateLimitConfig(key: string): (r: Request)
    ensures r.verb == GET && r.path == "/api/admin/rate-limits/" + key
    ensures r.query == map[] && r.body == NoBody
  {
    Get("/api/admin/rate-limits/" + key, map[])
  }

  /** The value is whatever the caller holds, undefined included. */
  function UpdateRateLimitConfig(key: string, value: Option<int>): (r: Request)
    ensures r.verb == PUT && r.path == "/api/admin/rate-limits/" + key && r.body == RateLimitValue(value)
    ensures r.query == map[]
  {
    Send(PUT, "/api/admin/rate-limits/" + key, RateLimitValue(value))
  }

  function GetProvinces(search: Option<string>): (r: Request)
    ensures r.verb == GET && r.path == "/api/regions/provinces"
    ensures r.query.Keys == {Search} && Forwards(r.query, Search, Str(search))
  {
    Get("/api/regions/provinces", map[Search := Str(search)])
  }

  function GetRegencies(search: Option<string>): (r: Request)
    ensures r.verb == GET && r.path == "/api/regions/regencies"
    ensures r.query.Keys == {Search} && Forwards(r.query, Search, Str(search))
  {
    Get("/api/regions/regencies", map[Search := Str(search)])
  }

  function GetPromptKeys(): (r: Request)
    ensures r.verb == GET && r.path == "/api/admin/prompts/keys" && r.query == map[]
    ensures r.body == NoBody
  {
    Get("/api/admin/prompts/keys", map[])
  }

  function GetPrompt(id: string): (r: Request)
    ensures r.verb == GET && r.path == "/api/admin/prompts/" + id
    ensures r.query == map[] && r.body == NoBody
  {
    Get("/api/admin/prompts/" + id, map[])
  }

  function CreatePrompt(data: CreatePromptDto): (r: Request)
    ensures r.verb == POST && r.path == "/api/admin/prompts" && r.body == NewPrompt(data)
    ensures r.query == map[]
  {
    Send(POST, "/api/admin/prompts", NewPrompt(data))
  }

  function UpdatePrompt(id: string, data: UpdatePromptDto): (r: Request)
    ensures r.verb == PUT && r.path == "/api/admin/prompts/" + id && r.body == PromptChanges(data)
    ensures r.query == map[]
  {
    Send(PUT, "/api/admin/prompts/" + id, PromptChanges(data))
  }

  function DeletePrompt(id: string): (r: Request)
    ensures r.verb == DELETE && r.path == "/api/admin/prompts/" + id
    ensures r.query == map[] && r.body == NoBody
  {
    Send(DELETE, "/api/admin/prompts/" + id, NoBody)
  }

  function RestorePrompt(id: string): (r: Request)
    ensures r.verb == POST && r.path == "/api/admin/prompts/" + id + "/restore"
    ensures r.query == map[] && r.body == NoBody
  {
    Send(POST, "/api/admin/prompts/" + id + "/restore", NoBody)
  }

  lemma {:induction false} EmbeddingInjective(prefix: string, suffix: string, a: string, b: string)
    requires prefix + a + suffix == prefix + b + suffix
    ensures a == b
  {
    var s := prefix + a + suffix;
    assert |a| == |b|;
    assert a == s[|prefix|..|prefix| + |a|];
    assert b == (prefix + b + suffix)[|prefix|..|prefix| + |b|];
  }

  /** The id or key sits verbatim in the path, so two different records never share a path. */
  lemma SingleRecordPathsDetermineId(a: string, b: string)
    ensures RestorePrompt(a).path == RestorePrompt(b).path ==> a == b
    ensures UpdateReportStatus(a, "", None).path == UpdateReportStatus(b, "", None).path ==> a == b
    ensures DeletePrompt(a).path == DeletePrompt(b).path ==> a == b
    ensures UpdateRateLimitConfig(a, None).path == UpdateRateLimitConfig(b, None).path ==> a == b
    ensures GetReport(a).path == GetReport(b).path ==> a == b
    ensures GetTicket(a).path == GetTicket(b).path ==> a == b
  {
    if RestorePrompt(a).path == RestorePrompt(b).path {
      EmbeddingInjective("/api/admin/prompts/", "/restore", a, b);
    }
    if UpdateReportStatus(a, "", None).path == UpdateReportStatus(b, "", None).path {
      EmbeddingInjective("/api/reports/", "/status", a, b);
    }
    if DeletePrompt(a).path == DeletePrompt(b).path {
      EmbeddingInjective("/api/admin/prompts/", "", a, b);
    }
    if UpdateRateLimitConfig(a, None).path == UpdateRateLimitConfig(b, None).path {
      EmbeddingInjective("/api/admin/rate-limits/", "", a, b);
    }
    if GetReport(a).path == GetReport(b).path {
      EmbeddingInjective("/api/admin/reports/", "", a, b);
    }
    if GetTicket(a).path == GetTicket(b).path {
      EmbeddingInjective("/api/admin/tickets/", "", a, b);
    }
  }

  // ----- Interceptors -----

  /** What the transport answered: a response with its HTTP status and body, or nothing
      at all (network failure, timeout). */
  datatype Reply<T> = Answer(status: int, body: Envelope<T>) | NoAnswer

  /** The transport resolves a 2xx answer and rejects everything else. */
  predicate IsSuccessStatus(status: int)
  {
    200 <= status < 300
  }

  /** `sent` is `config` with the bearer credential attached exactly when a non-empty token is
      stored in a browser; nothing else about the request differs. */
  predicate CarriesSession(config: Request, sent: Request, hasWindow: bool, token: Option<string>)
  {
    && sent.verb == config.verb && sent.path == config.path
    && sent.query == config.query && sent.body == config.body
    && (if hasWindow && token.Some? && token.value != "" then
          sent.headers == config.headers["Authorization" := "Bearer " + token.value]
        else
          sent.headers == config.headers)
  }

  /** The browser state the client layer reads and writes: the stored `access_token` and
      the current location. `hasWindow` is false during server-side rendering. */
  class Browser {
    const hasWindow: bool
    var token: Option<string>
    var location: string

    constructor (hasWindow: bool, token: Option<string>, location: string)
      ensures this.hasWindow == hasWindow && this.token == token && this.location == location
    {
      this.hasWindow := hasWindow;
      this.token := token;
      this.location := location;
    }

    /** `if (token)`: a stored empty string counts as no token. */
    predicate HasToken()
      reads this
    {
      token.Some? && token.value != ""
    }

    /** The request interceptor. */
    method AttachToken(config: Request) returns (sent: Request)
      ensures CarriesSession(config, sent, hasWindow, token)
      ensures hasWindow && HasToken() ==>
                "Authorization" in sent.headers && sent.headers["Authorization"] == "Bearer " + token.value
      ensures !(hasWindow && HasToken()) ==> sent == config
    {
      sent := config;
      if hasWindow {
        if token.Some? && token.value != "" {
          sent := config.(headers := config.headers["Authorization" := "Bearer " + token.value]);
        }
      }
    }

    /** The response interceptor's error branch: a 401 clears the token and sends the browser
        to `/`; the error is rejected to the caller unchanged in every case. */
    method OnResponseError(status: Option<int>) returns (rethrown: Option<int>)
      modifies this
      ensures rethrown == status
      ensures status == Some(401) && hasWindow ==> token == None && location == "/"
      ensures !(status == Some(401) && hasWindow) ==> token == old(token) && location == old(location)
    {
      if status == Some(401) {
        if hasWindow {
          token := None;
          location := "/";
        }
      }
      rethrown := status;
    }

    /** One client call: the request interceptor, the transport's reply, the response
        interceptor. A 2xx answer passes through and the caller receives exactly its body. */
    method Call<T>(config: Request, reply: Reply<T>) returns (sent: Request, out: Outcome<T>)
      modifies this
      ensures CarriesSession(config, sent, hasWindow, old(token))
      ensures out.Fulfilled? <==> reply.Answer? && IsSuccessStatus(reply.status)
      ensures out.Fulfilled? ==> out.envelope == reply.body
      ensures out.Thrown? ==> out.status == (if reply.Answer? then Some(reply.status) else None)
      ensures hasWindow && reply.Answer? && reply.status == 401 ==> token == None && location == "/"
      ensures !(hasWindow && reply.Answer? && reply.status == 401) ==>
                token == old(token) && location == old(location)
    {
      sent := AttachToken(config);
      match reply {
        case Answer(status, body) =>
          if IsSuccessStatus(status) {
            out := Fulfilled(body);
          } else {
            var rethrown := OnResponseError(Some(status));
            out := Thrown(rethrown);
          }
        case NoAnswer =>
          var rethrown := OnResponseError(None);
          out := Thrown(rethrown);
      }
    }
  }

  /** CarriesSession pins the outgoing request down completely. */
  lemma CarriesSessionIsFunctional(config: Request, s1: Request, s2: Request, hasWindow: bool, token: Option<string>)
    requires CarriesSession(config, s1, hasWindow, token) && CarriesSession(config, s2, hasWindow, token)
    ensures s1 == s2
  {
  }

  /** Attaching the credential is idempotent: a request that already carries it is sent
      as it is. */
  lemma AttachTwiceSameAsOnce(config: Request, s1: Request, s2: Request, hasWindow: bool, token: Option<string>)
    requires CarriesSession(config, s1, hasWindow, token) && CarriesSession(s1, s2, hasWindow, token)
    ensures s2 == s1
  {
  }
}

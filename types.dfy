/** Value types shared by the client layer and the pages: the response envelope,
    the enumerations of the backend and the record shapes the pages read. */
module Types {

  datatype Option<+T> = None | Some(value: T)

  /** JavaScript `x || d` for a possibly undefined number: undefined and 0 fall back to `d`. */
  function OrDefault(x: Option<int>, d: int): (r: int)
    ensures x.Some? && x.value != 0 ==> r == x.value
    ensures x.None? || x.value == 0 ==> r == d
  {
    if x.Some? && x.value != 0 then x.value else d
  }

  /** JavaScript `x || d` for a possibly undefined string: undefined and "" fall back to `d`. */
  function OrElse(x: Option<string>, d: string): (r: string)
    ensures x.Some? && x.value != "" ==> r == x.value
    ensures x.None? || x.value == "" ==> r == d
  {
    if x.Some? && x.value != "" then x.value else d
  }

  /** JavaScript `xs || []` for a possibly undefined list. */
  function ListOrEmpty<T>(xs: Option<seq<T>>): (r: seq<T>)
    ensures xs.Some? ==> r == xs.value
    ensures xs.None? ==> r == []
  {
    if xs.Some? then xs.value else []
  }

  /** Pagination metadata. `totalItems` is not declared by the envelope type; it is the
      field the reports page reads (see ReportsPage). */
  datatype Meta = Meta(
    total: Option<int>,
    page: Option<int>,
    pageSize: Option<int>,
    totalPages: Option<int>,
    totalItems: Option<int>)

  /** The uniform response envelope every endpoint returns. */
  datatype Envelope<T> = Envelope(
    success: bool,
    data: Option<T>,
    message: Option<string>,
    errors: Option<seq<string>>,
    meta: Option<Meta>)

  /** What a client method hands back to its caller: the fulfilled envelope, or a rejection
      carrying the HTTP status when there was a response at all. */
  datatype Outcome<T> = Fulfilled(envelope: Envelope<T>) | Thrown(status: Option<int>)

  predicate Succeeded<T>(out: Outcome<T>)
  {
    out.Fulfilled? && out.envelope.success
  }

  /** `response.meta?.total_pages || 1` */
  function TotalPagesOf(meta: Option<Meta>): (r: int)
    ensures r != 0
    ensures meta.Some? && meta.value.totalPages.Some? && meta.value.totalPages.value != 0 ==> r == meta.value.totalPages.value
    ensures meta.None? || meta.value.totalPages.None? || meta.value.totalPages.value == 0 ==> r == 1
  {
    if meta.Some? then OrDefault(meta.value.totalPages, 1) else 1
  }

  /** `response.meta?.total || 0` */
  function TotalOf(meta: Option<Meta>): (r: int)
    ensures meta.Some? && meta.value.total.Some? && meta.value.total.value != 0 ==> r == meta.value.total.value
    ensures meta.None? || meta.value.total.None? || meta.value.total.value == 0 ==> r == 0
  {
    if meta.Some? then OrDefault(meta.value.total, 0) else 0
  }

  /** `response.meta?.total_items || 0` */
  function TotalItemsOf(meta: Option<Meta>): (r: int)
    ensures meta.Some? && meta.value.totalItems.Some? && meta.value.totalItems.value != 0 ==> r == meta.value.totalItems.value
    ensures meta.None? || meta.value.totalItems.None? || meta.value.totalItems.value == 0 ==> r == 0
  {
    if meta.Some? then OrDefault(meta.value.totalItems, 0) else 0
  }

  datatype ReportStatus = Draft | Pending | Verified | InProgress | Resolved | Rejected
  {
    /** The name the backend sends. */
    function Wire(): string
    {
      match this
      case Draft => "draft"
      case Pending => "pending"
      case Verified => "verified"
      case InProgress => "in_progress"
      case Resolved => "resolved"
      case Rejected => "rejected"
    }
  }

  datatype ReportSeverity = Low | Medium | High | Critical
  {
    function Wire(): string
    {
      match this
      case Low => "low"
      case Medium => "medium"
      case High => "high"
      case Critical => "critical"
    }
  }

  datatype TicketStatus = Submitted | Processing | Completed | Failed
  {
    function Wire(): string
    {
      match this
      case Submitted => "submitted"
      case Processing => "processing"
      case Completed => "completed"
      case Failed => "failed"
    }
  }

  datatype ReportTagType = Report | Proposal | Complaint | Inquiry | Appreciation
  {
    function Wire(): string
    {
      match this
      case Report => "report"
      case Proposal => "proposal"
      case Complaint => "complaint"
      case Inquiry => "inquiry"
      case Appreciation => "appreciation"
    }
  }

  datatype CategoryInfo = CategoryInfo(categoryId: string, name: string)

  /** A report row as the reports page and the dashboard read it. */
  datatype DashboardReport = DashboardReport(
    id: string,
    title: string,
    description: string,
    status: string,
    categories: seq<CategoryInfo>)

  datatype Ticket = Ticket(
    id: string,
    referenceNumber: string,
    platform: string,
    status: string,
    processedAt: Option<string>)

  datatype RateLimitConfig = RateLimitConfig(key: string, value: int, description: Option<string>)

  datatype Prompt = Prompt(id: string, key: string, name: string, isActive: bool, version: int)

  datatype PromptKeyDefinition = PromptKeyDefinition(key: string, description: string)

  /** Body of a create-prompt request; `variables` holds the JSON text the page parsed. */
  datatype CreatePromptDto = CreatePromptDto(
    key: string,
    name: string,
    description: Option<string>,
    templateContent: string,
    variables: Option<string>)

  datatype UpdatePromptDto = UpdatePromptDto(
    name: Option<string>,
    description: Option<string>,
    templateContent: Option<string>,
    variables: Option<string>)

  datatype DashboardSummary = DashboardSummary(
    totalReports: int,
    pendingCount: int,
    resolvedCount: int,
    reportsThisWeek: int,
    reportsThisMonth: int)

  datatype CategoryReportSummary = CategoryReportSummary(id: string, name: string, reportCount: int)

  datatype TagReportSummary = TagReportSummary(tagType: string, tagLabel: string, reportCount: int)

  /** The signed-in account as returned by the current-user endpoint. */
  datatype User = User(accountId: Option<string>, roles: Option<seq<string>>)
}

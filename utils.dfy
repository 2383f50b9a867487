/** The display helpers of lib/utils.ts: the label and colour lookup tables with their
    fallbacks, `truncate`, and the prompt-status helpers. Lookups take the raw string the
    backend sent, since the pages pass whatever arrived over the wire. */
module Utils {
  import opened Types

  const GRAY := "bg-gray-100 text-gray-800"
  const BLUE := "bg-blue-100 text-blue-800"
  const YELLOW := "bg-yellow-100 text-yellow-800"
  const PURPLE := "bg-purple-100 text-purple-800"
  const GREEN := "bg-green-100 text-green-800"
  const RED := "bg-red-100 text-red-800"
  const ORANGE := "bg-orange-100 text-orange-800"

  const DEFAULT_TRUNCATE_LENGTH := 100

  // ----- Report status -----

  function ParseReportStatus(s: string): (r: Option<ReportStatus>)
    ensures r.Some? ==> r.value.Wire() == s
    ensures r.None? ==> forall st: ReportStatus :: st.Wire() != s
  {
    if s == "draft" then Some(Draft)
    else if s == "pending" then Some(Pending)
    else if s == "verified" then Some(Verified)
    else if s == "in_progress" then Some(InProgress)
    else if s == "resolved" then Some(Resolved)
    else if s == "rejected" then Some(Rejected)
    else None
  }

  /** The colour table for report statuses. */
  function ReportStatusColor(st: ReportStatus): string
  {
    match st
    case Draft => GRAY
    case Pending => YELLOW
    case Verified => BLUE
    case InProgress => PURPLE
    case Resolved => GREEN
    case Rejected => RED
  }

  /** The label table for report statuses. */
  function ReportStatusLabel(st: ReportStatus): string
  {
    match st
    case Draft => "Draft"
    case Pending => "Pending"
    case Verified => "Verified"
    case InProgress => "In Progress"
    case Resolved => "Resolved"
    case Rejected => "Rejected"
  }

  /** `getStatusColor`: the table entry, or gray for a value outside the table. */
  function StatusColor(status: string): (r: string)
    ensures forall st: ReportStatus :: st.Wire() == status ==> r == ReportStatusColor(st)
    ensures (forall st: ReportStatus :: st.Wire() != status) ==> r == GRAY
  {
    var entry := match ParseReportStatus(status)
      case Some(st) => Some(ReportStatusColor(st))
      case None => None;
    OrElse(entry, GRAY)
  }

  /** `getStatusLabel`: the table entry, or the status string itself. */
  function StatusLabel(status: string): (r: string)
    ensures forall st: ReportStatus :: st.Wire() == status ==> r == ReportStatusLabel(st)
    ensures (forall st: ReportStatus :: st.Wire() != status) ==> r == status
  {
    var entry := match ParseReportStatus(status)
      case Some(st) => Some(ReportStatusLabel(st))
      case None => None;
    OrElse(entry, status)
  }

  lemma ReportStatusLabelsDistinct(a: ReportStatus, b: ReportStatus)
    requires a != b
    ensures StatusLabel(a.Wire()) != StatusLabel(b.Wire())
  {
  }

  /** The label fallback is not injective over strings: an unknown value can show the same
      text as a known one. */
  lemma UnknownStatusCanShowKnownLabel()
    ensures StatusLabel("Draft") == StatusLabel(Draft.Wire())
  {
    assert ParseReportStatus("Draft") == None;
  }

  // ----- Severity -----

  function ParseSeverity(s: string): (r: Option<ReportSeverity>)
    ensures r.Some? ==> r.value.Wire() == s
    ensures r.None? ==> forall sv: ReportSeverity :: sv.Wire() != s
  {
    if s == "low" then Some(Low)
    else if s == "medium" then Some(Medium)
    else if s == "high" then Some(High)
    else if s == "critical" then Some(Critical)
    else None
  }

  function ReportSeverityColor(sv: ReportSeverity): string
  {
    match sv
    case Low => BLUE
    case Medium => YELLOW
    case High => ORANGE
    case Critical => RED
  }

  function ReportSeverityLabel(sv: ReportSeverity): string
  {
    match sv
    case Low => "Low"
    case Medium => "Medium"
    case High => "High"
    case Critical => "Critical"
  }

  /** `getSeverityColor` */
  function SeverityColor(severity: string): (r: string)
    ensures forall sv: ReportSeverity :: sv.Wire() == severity ==> r == ReportSeverityColor(sv)
    ensures (forall sv: ReportSeverity :: sv.Wire() != severity) ==> r == GRAY
  {
    var entry := match ParseSeverity(severity)
      case Some(sv) => Some(ReportSeverityColor(sv))
      case None => None;
    OrElse(entry, GRAY)
  }

  /** `getSeverityLabel` */
  function SeverityLabel(severity: string): (r: string)
    ensures forall sv: ReportSeverity :: sv.Wire() == severity ==> r == ReportSeverityLabel(sv)
    ensures (forall sv: ReportSeverity :: sv.Wire() != severity) ==> r == severity
  {
    var entry := match ParseSeverity(severity)
      case Some(sv) => Some(ReportSeverityLabel(sv))
      case None => None;
    OrElse(entry, severity)
  }

  /** No severity is shown in the fallback gray. */
  lemma SeverityColorsAvoidFallback(sv: ReportSeverity)
    ensures SeverityColor(sv.Wire()) != GRAY
  {
  }

  lemma SeverityLabelsDistinct(a: ReportSeverity, b: ReportSeverity)
    requires a != b
    ensures SeverityLabel(a.Wire()) != SeverityLabel(b.Wire())
  {
  }

  // ----- Ticket status -----

  function ParseTicketStatus(s: string): (r: Option<TicketStatus>)
    ensures r.Some? ==> r.value.Wire() == s
    ensures r.None? ==> forall ts: TicketStatus :: ts.Wire() != s
  {
    if s == "submitted" then Some(Submitted)
    else if s == "processing" then Some(Processing)
    else if s == "completed" then Some(Completed)
    else if s == "failed" then Some(Failed)
    else None
  }

  function TicketStatusColorOf(ts: TicketStatus): string
  {
    match ts
    case Submitted => BLUE
    case Processing => YELLOW
    case Completed => GREEN
    case Failed => RED
  }

  function TicketStatusLabelOf(ts: TicketStatus): string
  {
    match ts
    case Submitted => "Submitted"
    case Processing => "Processing"
    case Completed => "Completed"
    case Failed => "Failed"
  }

  /** `getTicketStatusColor` */
  function TicketStatusColor(status: string): (r: string)
    ensures forall ts: TicketStatus :: ts.Wire() == status ==> r == TicketStatusColorOf(ts)
    ensures (forall ts: TicketStatus :: ts.Wire() != status) ==> r == GRAY
  {
    var entry := match ParseTicketStatus(status)
      case Some(ts) => Some(TicketStatusColorOf(ts))
      case None => None;
    OrElse(entry, GRAY)
  }

  /** `getTicketStatusLabel` */
  function TicketStatusLabel(status: string): (r: string)
    ensures forall ts: TicketStatus :: ts.Wire() == status ==> r == TicketStatusLabelOf(ts)
    ensures (forall ts: TicketStatus :: ts.Wire() != status) ==> r == status
  {
    var entry := match ParseTicketStatus(status)
      case Some(ts) => Some(TicketStatusLabelOf(ts))
      case None => None;
    OrElse(entry, status)
  }

  lemma TicketStatusLabelsDistinct(a: TicketStatus, b: TicketStatus)
    requires a != b
    ensures TicketStatusLabel(a.Wire()) != TicketStatusLabel(b.Wire())
  {
  }

  // ----- Tag type -----

  function ParseTagType(s: string): (r: Option<ReportTagType>)
    ensures r.Some? ==> r.value.Wire() == s
    ensures r.None? ==> forall tt: ReportTagType :: tt.Wire() != s
  {
    if s == "report" then Some(Report)
    else if s == "proposal" then Some(Proposal)
    else if s == "complaint" then Some(Complaint)
    else if s == "inquiry" then Some(Inquiry)
    else if s == "appreciation" then Some(Appreciation)
    else None
  }

  function TagTypeColorOf(tt: ReportTagType): string
  {
    match tt
    case Report => BLUE
    case Proposal => PURPLE
    case Complaint => RED
    case Inquiry => YELLOW
    case Appreciation => GREEN
  }

  function TagTypeLabelOf(tt: ReportTagType): string
  {
    match tt
    case Report => "Report"
    case Proposal => "Proposal"
    case Complaint => "Complaint"
    case Inquiry => "Inquiry"
    case Appreciation => "Appreciation"
  }

  /** `getTagTypeColor` */
  function TagTypeColor(tagType: string): (r: string)
    ensures forall tt: ReportTagType :: tt.Wire() == tagType ==> r == TagTypeColorOf(tt)
    ensures (forall tt: ReportTagType :: tt.Wire() != tagType) ==> r == GRAY
  {
    var entry := match ParseTagType(tagType)
      case Some(tt) => Some(TagTypeColorOf(tt))
      case None => None;
    OrElse(entry, GRAY)
  }

  /** `getTagTypeLabel` */
  function TagTypeLabel(tagType: string): (r: string)
    ensures forall tt: ReportTagType :: tt.Wire() == tagType ==> r == TagTypeLabelOf(tt)
    ensures (forall tt: ReportTagType :: tt.Wire() != tagType) ==> r == tagType
  {
    var entry := match ParseTagType(tagType)
      case Some(tt) => Some(TagTypeLabelOf(tt))
      case None => None;
    OrElse(entry, tagType)
  }

  lemma TagTypeLabelsDistinct(a: ReportTagType, b: ReportTagType)
    requires a != b
    ensures TagTypeLabel(a.Wire()) != TagTypeLabel(b.Wire())
  {
  }

  /** Each tag type has its own colour. */
  lemma TagTypeColorsDistinct(a: ReportTagType, b: ReportTagType)
    requires a != b
    ensures TagTypeColor(a.Wire()) != TagTypeColor(b.Wire())
  {
  }

  // ----- truncate -----

  /** `truncate(str, length)`: the string itself when it fits, otherwise its first `length`
      characters followed by "...". A negative length keeps no character, as `substring`
      clamps it to 0. */
  function Truncate(s: string, length: int): (r: string)
    ensures |s| <= length ==> r == s
    ensures |s| > length ==> |r| == (if length < 0 then 0 else length) + 3
    ensures |s| > length ==> r[..|r| - 3] == s[..|r| - 3] && r[|r| - 3..] == "..."
  {
    if |s| <= length then s
    else s[..if length < 0 then 0 else length] + "..."
  }

  /** `truncate(str)` with its default length. */
  function TruncateDefault(s: string): (r: string)
    ensures |s| <= 100 ==> r == s
    ensures |s| > 100 ==> |r| == 103 && r[..100] == s[..100]
  {
    Truncate(s, DEFAULT_TRUNCATE_LENGTH)
  }

  /** Truncating twice at the same length changes nothing more. */
  lemma TruncateIdempotent(s: string, length: int)
    ensures Truncate(Truncate(s, length), length) == Truncate(s, length)
  {
    if |s| > length {
      var k := if length < 0 then 0 else length;
      var t := Truncate(s, length);
      assert t[..k] == s[..k];
    }
  }

  /** The result never shows a character the input does not have at that position,
      except for the three trailing dots. */
  lemma TruncateKeepsPrefix(s: string, length: int, i: int)
    requires 0 <= i < |Truncate(s, length)|
    requires |s| <= length || i < |Truncate(s, length)| - 3
    ensures Truncate(s, length)[i] == s[i]
  {
  }

  // ----- Prompt status -----

  /** `getPromptStatusColor` */
  function PromptStatusColor(isActive: bool): (r: string)
    ensures isActive ==> r == GREEN
    ensures !isActive ==> r == GRAY
  {
    if isActive then GREEN else GRAY
  }

  /** `getPromptStatusLabel` */
  function PromptStatusLabel(isActive: bool): (r: string)
    ensures isActive ==> r == "Active"
    ensures !isActive ==> r == "Inactive"
  {
    if isActive then "Active" else "Inactive"
  }

  /** Active and inactive prompts never look alike. */
  lemma PromptStatusDistinguishes(a: bool, b: bool)
    requires a != b
    ensures PromptStatusLabel(a) != PromptStatusLabel(b)
    ensures PromptStatusColor(a) != PromptStatusColor(b)
  {
  }
}

# Balungpisah admin dashboard — a Dafny model

Balungpisah's admin dashboard is a Next.js front end to the Balungpisah back end. Administrators use it to browse citizen reports and tickets. They also edit rate-limit settings and manage prompt templates.
This project models the core of the dashboard:

- **The API client** (`lib/api-client.ts`). Every wrapper is modelled as the request it builds: verb, path, query parameters (with their snake_case wire names and defaults) and body.
  - The request interceptor attaches the stored bearer token.
  - The response interceptor, on a 401, forgets the token and sends the browser to `/`.
  - These are modelled as a `Browser` class holding the token and the location.
- **The display helpers** (`lib/utils.ts`). These cover status, severity, ticket-status, tag-type and prompt-status colours and labels, with the fallbacks for unknown values, and `truncate`.
- **The pages.**
  - The overview (`app/dashboard/page.tsx`).
  - The report list (`app/dashboard/reports/page.tsx`).
  - The ticket list (`app/dashboard/tickets/page.tsx`).
  - The rate-limit settings (`app/dashboard/settings/page.tsx`).
  - The prompt list with its create and delete dialogs (`app/dashboard/prompts/page.tsx`).
  - The dashboard frame with its navigation and session check (`app/dashboard/layout.tsx`).

Each page is a class whose fields are its React state slots. Each handler is a method whose `ensures` clauses give the whole new state. The values derived for display (filters, charts, default names, button states) are functions, and lemmas state their properties.

How I/O is modelled:

- The result of every asynchronous call is a parameter.
  - An `Outcome` is either the envelope the server answered with (`Fulfilled`) or a rejection with an optional HTTP status (`Thrown`).
  - Every call that can be made returns the `Request` it sends, so the contracts say both what is asked and what is done with the answer.
- `JSON.parse` is a parameter `isJson` that says whether a text parses.

The modules are:

- `Types`: the records of `lib/types.ts`, and the `||` fallbacks of JavaScript written out as `OrDefault` (numbers), `OrElse` (strings) and `ListOrEmpty` (lists).
- `Text`: lower-casing, substring search, split and join, and `parseInt` with its printing inverse.
- `Listing`: the pager and the client-side filter shared by the list pages.
- `ApiClient`, `Utils`, `DashboardPage`, `ReportsPage`, `TicketsPage`, `SettingsPage`, `PromptsPage` and `DashboardLayout`: one per source file above.

The report list calls `getReports(page, pageSize)` with two numbers, but the wrapper takes one optional filters object.
As a result:

- Every request the report list sends asks for page 1 with 10 rows, whatever page the pager shows.
- The page reads the total from `meta.total_items`, while the other list pages read `meta.total`.

The model follows the code as written (`ReportsPage.ReportsRequest`, `ReportsPage.ReportsRequestIgnoresPage`, `ReportsPage.ReportsPage.LoadReports`).

## Model

| member | source | states |
|---|---|---|
| Types.OrDefault | lib/api-client.ts:131-132 | `x \|\| d` on a number: the default exactly when the value is missing or 0, otherwise the value |
| Types.OrElse | app/dashboard/layout.tsx:119 | `s \|\| d` on a string: the default exactly when the value is missing or empty |
| Types.ListOrEmpty | app/dashboard/settings/page.tsx:25 | `data \|\| []`: the list when present, otherwise empty |
| Types.TotalPagesOf | app/dashboard/prompts/page.tsx:54 | `meta?.total_pages \|\| 1`: never 0; the sent page count when it is there and non-zero, otherwise 1 |
| Types.TotalOf | app/dashboard/prompts/page.tsx:55 | `meta?.total \|\| 0`: the sent total when it is there and non-zero, otherwise 0 |
| Types.TotalItemsOf | app/dashboard/reports/page.tsx:41-45 | `meta?.total_items \|\| 0`: the sent item count when it is there and non-zero, otherwise 0 |
| Text.Lower | app/dashboard/reports/page.tsx:53-56 | `toLowerCase` keeps the length and lower-cases every character |
| Text.LowerIdempotent | app/dashboard/reports/page.tsx:53-56 | lower-casing twice is lower-casing once |
| Text.Contains | app/dashboard/reports/page.tsx:53-56 | `includes` holds exactly when the term occurs at some position |
| Text.Split | app/dashboard/prompts/page.tsx:364-374 | `split`: at least one piece, and no piece contains the separator |
| Text.SplitJoinRoundTrip | app/dashboard/prompts/page.tsx:364-374 | joining the pieces of a split with the same separator gives back the text |
| Text.ParseInt | app/dashboard/settings/page.tsx:59 | NaN for text without a decimal digit; a number, never negative, for text that opens with a decimal digit not followed by `x` |
| Text.ParseShowRoundTrip | app/dashboard/settings/page.tsx:58-63 | `parseInt` reads back every integer printed in decimal |
| Utils.ParseReportStatus | lib/utils.ts:16-26 | known wire names map to their status, any other text to none |
| Utils.StatusColor | lib/utils.ts:16-26 | colour of a report status; grey fallback for values outside the six statuses |
| Utils.StatusLabel | lib/utils.ts:28-38 | label of a report status; unknown values are shown as themselves |
| Utils.ReportStatusLabelsDistinct | lib/utils.ts:28-38 | distinct known statuses have distinct labels |
| Utils.UnknownStatusCanShowKnownLabel | lib/utils.ts:28-38 | an unknown status whose text is a known label is shown as that label |
| Utils.ParseSeverity | lib/utils.ts:40-48 | known severities map to their value, anything else to none |
| Utils.SeverityColor | lib/utils.ts:40-48 | colour of a severity, grey fallback for unknown values |
| Utils.SeverityLabel | lib/utils.ts:50-58 | label of a severity; unknown values are shown as themselves |
| Utils.SeverityColorsAvoidFallback | lib/utils.ts:40-48 | no known severity gets the fallback colour |
| Utils.SeverityLabelsDistinct | lib/utils.ts:50-58 | distinct severities have distinct labels |
| Utils.ParseTicketStatus | lib/utils.ts:60-68 | known ticket statuses map to their value, anything else to none |
| Utils.TicketStatusColor | lib/utils.ts:60-68 | colour of a ticket status, grey fallback for unknown values |
| Utils.TicketStatusLabel | lib/utils.ts:70-78 | label of a ticket status; unknown values are shown as themselves |
| Utils.TicketStatusLabelsDistinct | lib/utils.ts:70-78 | distinct ticket statuses have distinct labels |
| Utils.ParseTagType | lib/utils.ts:80-89 | known tag types map to their value, anything else to none |
| Utils.TagTypeColor | lib/utils.ts:80-89 | colour of a tag type, grey fallback for unknown values |
| Utils.TagTypeLabel | lib/utils.ts:91-100 | label of a tag type; unknown values are shown as themselves |
| Utils.TagTypeLabelsDistinct | lib/utils.ts:91-100 | distinct tag types have distinct labels |
| Utils.TagTypeColorsDistinct | lib/utils.ts:80-89 | distinct tag types have distinct colours |
| Utils.Truncate | lib/utils.ts:102-105 | text no longer than the limit is unchanged; longer text becomes its first `length` characters (none for a negative limit) followed by `...` |
| Utils.TruncateDefault | lib/utils.ts:102 | with the default limit of 100, longer text keeps its first 100 characters and grows to 103 |
| Utils.TruncateIdempotent | lib/utils.ts:102-105 | truncating twice with the same limit is truncating once |
| Utils.TruncateKeepsPrefix | lib/utils.ts:102-105 | every character before the `...` is the original's character at that position |
| Utils.PromptStatusColor | lib/utils.ts:115-117 | green for active prompts, grey for inactive ones |
| Utils.PromptStatusLabel | lib/utils.ts:119-121 | `Active` or `Inactive` |
| Utils.PromptStatusDistinguishes | lib/utils.ts:115-121 | colour and label each tell active from inactive |
| ApiClient.BaseUrl | lib/api-client.ts:4 | the configured URL when set and non-empty, otherwise `http://localhost:8000` |
| ApiClient.Login | lib/api-client.ts:48-51 | POST `/api/auth/login` with the credentials as body and no query |
| ApiClient.GetMe | lib/api-client.ts:53-56 | GET `/api/auth/me` with no query and no body |
| ApiClient.GetDashboardSummary | lib/api-client.ts:59-62 | GET of the summary with no query and no body |
| ApiClient.GetRecentReports | lib/api-client.ts:64-69 | `days` and `limit`, defaulting to 7 and 10 when omitted |
| ApiClient.GetReportsByCategory | lib/api-client.ts:71-76 | slug forwarded; page and page size are default parameters: 1 and 10 when omitted, otherwise sent as given (0 included) |
| ApiClient.GetReportsByLocation | lib/api-client.ts:78-88 | province and regency forwarded; page and page size 1 and 10 when omitted, otherwise sent as given (0 included) |
| ApiClient.GetReportsByTag | lib/api-client.ts:90-95 | tag type forwarded; page and page size 1 and 10 when omitted, otherwise sent as given (0 included) |
| ApiClient.GetMapData | lib/api-client.ts:97-114 | every map filter forwarded under its wire name, nothing else sent |
| ApiClient.GetReports | lib/api-client.ts:116-145 | page and page size `\|\|`-defaulted to 1 and 10, every other filter forwarded under its wire name |
| ApiClient.GetTickets | lib/api-client.ts:160-189 | page and page size `\|\|`-defaulted, every ticket filter forwarded |
| ApiClient.GetContributors | lib/api-client.ts:196-219 | page and page size `\|\|`-defaulted, every contributor filter forwarded |
| ApiClient.GetExpectations | lib/api-client.ts:226-247 | page and page size `\|\|`-defaulted, every expectation filter forwarded |
| ApiClient.GetPrompts | lib/api-client.ts:301-316 | page and page size `\|\|`-defaulted, search and active flag forwarded |
| ApiClient.ListingsNeverSendZeroPaging | lib/api-client.ts:131-132 | a listing query never carries page or page size 0 |
| ApiClient.OrDefaultStable | lib/api-client.ts:131-132 | applying the `\|\|` default twice is applying it once |
| ApiClient.ReportsPagingStable | lib/api-client.ts:131-132 | replacing page and page size by their `\|\|`-defaulted values leaves the report request unchanged |
| ApiClient.TicketsPagingStable | lib/api-client.ts:175-176 | the same for tickets |
| ApiClient.ContributorsPagingStable | lib/api-client.ts:208-209 | the same for contributors |
| ApiClient.ExpectationsPagingStable | lib/api-client.ts:237-238 | the same for expectations |
| ApiClient.PromptsPagingStable | lib/api-client.ts:309-310 | the same for prompts |
| ApiClient.GetReport | lib/api-client.ts:147-150 | GET of the report's own path, with no query and no body |
| ApiClient.UpdateReportStatus | lib/api-client.ts:152-158 | PATCH of the report's status path with the status and notes as body and no query |
| ApiClient.GetTicket | lib/api-client.ts:191-194 | GET of the ticket's own path, with no query and no body |
| ApiClient.GetContributor | lib/api-client.ts:221-224 | GET of the contributor's own path, with no query and no body |
| ApiClient.GetExpectation | lib/api-client.ts:249-252 | GET of the expectation's own path, with no query and no body |
| ApiClient.GetCategories | lib/api-client.ts:255-260 | `tree` flag, false when omitted |
| ApiClient.GetRateLimitConfigs | lib/api-client.ts:263-266 | GET of all rate-limit configurations with no query and no body |
| ApiClient.GetRateLimitConfig | lib/api-client.ts:268-271 | GET of one configuration by key, with no query and no body |
| ApiClient.UpdateRateLimitConfig | lib/api-client.ts:273-278 | PUT of the key's path with the value, which may be undefined, as body and no query |
| ApiClient.GetProvinces | lib/api-client.ts:281-286 | search forwarded |
| ApiClient.GetRegencies | lib/api-client.ts:288-293 | search forwarded |
| ApiClient.GetMapMarkers | lib/api-client.ts:295-298 | GET of the map data with no query and no body |
| ApiClient.GetPromptKeys | lib/api-client.ts:318-321 | GET of the prompt keys with no query and no body |
| ApiClient.GetPrompt | lib/api-client.ts:323-326 | GET of the prompt's own path, with no query and no body |
| ApiClient.CreatePrompt | lib/api-client.ts:328-331 | POST of the new prompt as body, with no query |
| ApiClient.UpdatePrompt | lib/api-client.ts:333-336 | PUT of the prompt's path with the changes as body and no query |
| ApiClient.DeletePrompt | lib/api-client.ts:338-341 | DELETE of the prompt's path, with no query and no body |
| ApiClient.RestorePrompt | lib/api-client.ts:343-346 | POST to the prompt's restore path, with no query and no body |
| ApiClient.EmbeddingInjective | lib/api-client.ts:147-150 | two paths built from the same prefix and suffix are equal only for equal ids |
| ApiClient.SingleRecordPathsDetermineId | lib/api-client.ts:147-150 | different report, ticket or prompt ids, or rate-limit keys, give different request paths |
| ApiClient.Browser.constructor | lib/api-client.ts:20-21 | sets up the browser environment the interceptors read (lines 20-21 and 37-39): whether a window exists, the stored `access_token` and the current location |
| ApiClient.Browser.AttachToken | lib/api-client.ts:18-29 | with a window and a non-empty token the request gains `Authorization: Bearer <token>`, otherwise it is unchanged |
| ApiClient.Browser.OnResponseError | lib/api-client.ts:32-44 | on 401 in a browser the token is removed and the location becomes `/`; the error is always rethrown |
| ApiClient.Browser.Call | lib/api-client.ts:18-44 | the request carries the session; a 2xx answer fulfils with its body, anything else rejects with its status and runs the 401 handling |
| ApiClient.CarriesSessionIsFunctional | lib/api-client.ts:18-29 | the interceptor determines the sent request |
| ApiClient.AttachTwiceSameAsOnce | lib/api-client.ts:18-29 | attaching the token twice gives the same request as once |
| Listing.PrevPage | app/dashboard/prompts/page.tsx:319-320 | `Math.max(1, p - 1)`: never below 1, one less otherwise |
| Listing.NextPage | app/dashboard/prompts/page.tsx:326-327 | `Math.min(totalPages, p + 1)`: never above the page count |
| Listing.PagerHiddenExactlyWhenStuck | app/dashboard/prompts/page.tsx:312 | for a page in range, the pager (`totalPages > 1`) is hidden exactly when neither button could change the page |
| Listing.PagingStaysInRange | app/dashboard/prompts/page.tsx:319-327 | from a page in range, both buttons stay in range |
| Listing.PrevDisabledExactlyWhenIdle | app/dashboard/prompts/page.tsx:319-320 | the previous button is disabled exactly when pressing it would change nothing |
| Listing.NextDisabledExactlyWhenIdle | app/dashboard/prompts/page.tsx:326-327 | the next button is disabled exactly when pressing it would change nothing |
| Listing.PrevNextInverse | app/dashboard/prompts/page.tsx:319-327 | next after previous, and previous after next, return to the page when it was not at an end |
| Listing.Filter | app/dashboard/reports/page.tsx:53-56 | keeps exactly the elements that pass, in order |
| Listing.FilterSingleton | app/dashboard/reports/page.tsx:53-56 | a one-element list is kept exactly when its element passes |
| Listing.FilterAppend | app/dashboard/reports/page.tsx:53-56 | filtering a concatenation concatenates the filtered parts |
| Listing.FilterKeepsAll | app/dashboard/reports/page.tsx:53-56 | a filter every element passes returns the list itself |
| Listing.FilterMonotone | app/dashboard/reports/page.tsx:53-56 | a stricter test keeps no more elements |
| Listing.FilterCongruent | app/dashboard/reports/page.tsx:53-56 | tests that agree on every element give the same result |
| DashboardPage.Others | app/dashboard/page.tsx:96 | the "Others" slice is never negative and completes pending plus resolved to the total |
| DashboardPage.StatusDistribution | app/dashboard/page.tsx:90-99 | no slices without a summary, otherwise Pending, Resolved, Others in that order |
| DashboardPage.DistributionSum | app/dashboard/page.tsx:90-99 | the slices add up to the total, or to pending plus resolved when these exceed it |
| DashboardPage.TagChartData | app/dashboard/page.tsx:101-104 | one bar per tag, in order, with its label and count |
| DashboardPage.TopCategories | app/dashboard/page.tsx:193 | a prefix of the categories of length five, or all of them when fewer |
| DashboardPage.PieColor | app/dashboard/page.tsx:180-181 | the palette indexed modulo its length |
| DashboardPage.PieColorsCycle | app/dashboard/page.tsx:180-181 | colours repeat every six slices and differ within six consecutive ones |
| DashboardPage.StatValue | app/dashboard/page.tsx:124-158 | each card shows its summary field, 0 without a summary |
| DashboardPage.DashboardPage.constructor | app/dashboard/page.tsx:47-50 | no summary and empty lists |
| DashboardPage.DashboardPage.LoadDashboardData | app/dashboard/page.tsx:57-77 | the four requests (5 reports over 7 days; page 1 of 10 for categories and tags, none selected); nothing stored on any rejection; each slot set only on its own success; data missing from a successful response stops the later steps |
| ReportsPage.Matches | app/dashboard/reports/page.tsx:53-56 | a report matches exactly when the lower-cased term occurs in its lower-cased title or description, which needs the term to be no longer than one of them |
| ReportsPage.FilterReports | app/dashboard/reports/page.tsx:53-56 | exactly the reports whose title or description contains the term, ignoring case, in loaded order |
| ReportsPage.EmptySearchShowsAll | app/dashboard/reports/page.tsx:53-56 | an empty term shows every report |
| ReportsPage.SearchIgnoresCase | app/dashboard/reports/page.tsx:53-56 | searching the lower-cased term shows the same rows |
| ReportsPage.CategoryBadges | app/dashboard/reports/page.tsx:155-167 | at most the first two categories as badges; a `+n` counter exactly when there are more, badges plus counter counting every category |
| ReportsPage.ReportsRequest | app/dashboard/reports/page.tsx:39 | `getReports(page, pageSize)` sends page 1 and page size 10 and no filter at all |
| ReportsPage.ReportsPage.constructor | app/dashboard/reports/page.tsx:24-30 | empty list on page 1 of 1 with no term |
| ReportsPage.ReportsPage.Displayed | app/dashboard/reports/page.tsx:53-56 | the rows on screen are loaded reports that match the term, every matching report is among them, and an empty term shows the whole list |
| ReportsPage.ReportsPage.LoadReports | app/dashboard/reports/page.tsx:36-51 | sends `ReportsRequest` of the shown page; a success replaces list, page count and `total_items` total; anything else changes nothing |
| ReportsPage.ReportsPage.SetSearchTerm | app/dashboard/reports/page.tsx:84 | only the term changes; the rows shown are the filtered loaded list |
| ReportsPage.ReportsPage.GoToPrevPage | app/dashboard/reports/page.tsx:209-210 | previous page; a reload happens exactly when the page changed |
| ReportsPage.ReportsPage.GoToNextPage | app/dashboard/reports/page.tsx:216-217 | next page, bounded by the page count; a reload exactly when it changed |
| ReportsPage.ReportsRequestIgnoresPage | app/dashboard/reports/page.tsx:39 | any two pages and page sizes give the same request |
| TicketsPage.Matches | app/dashboard/tickets/page.tsx:38-40 | a ticket matches exactly when the lower-cased term occurs in its lower-cased reference number, which needs the term to be no longer than it |
| TicketsPage.FilterTickets | app/dashboard/tickets/page.tsx:38-40 | exactly the tickets whose reference number contains the term, ignoring case |
| TicketsPage.EmptySearchShowsAll | app/dashboard/tickets/page.tsx:38-40 | an empty term shows every ticket |
| TicketsPage.SearchIgnoresCase | app/dashboard/tickets/page.tsx:38-40 | the case of the term does not matter |
| TicketsPage.HeaderTotal | app/dashboard/tickets/page.tsx:49 | the header shows the number of loaded tickets, never below the rows shown for any term |
| TicketsPage.ProcessedCellOf | app/dashboard/tickets/page.tsx:146 | a dash exactly when `processed_at` is missing or empty, otherwise that time |
| TicketsPage.TicketsPage.constructor | app/dashboard/tickets/page.tsx:15-17 | no tickets, no term |
| TicketsPage.TicketsPage.Displayed | app/dashboard/tickets/page.tsx:38-40 | the rows on screen are loaded tickets that match the term, every matching ticket is among them, and an empty term shows the whole list |
| TicketsPage.TicketsPage.LoadTickets | app/dashboard/tickets/page.tsx:23-36 | the filterless request; a success replaces the tickets, anything else changes nothing |
| TicketsPage.TicketsPage.SetSearchTerm | app/dashboard/tickets/page.tsx:66 | only the term changes; rows shown are the filtered list |
| SettingsPage.InitialValues | app/dashboard/settings/page.tsx:27-30 | its keys are exactly the loaded configurations' keys |
| SettingsPage.BuildInitialValues | app/dashboard/settings/page.tsx:27-30 | the `forEach` loop builds the map InitialValues describes, later keys overwriting earlier ones |
| SettingsPage.InitialValuesLastWins | app/dashboard/settings/page.tsx:27-30 | a key ends with the value of its last configuration |
| SettingsPage.NoChangesAfterLoad | app/dashboard/settings/page.tsx:65-67 | after a load with distinct keys no configuration shows a change |
| SettingsPage.RepeatedKeyShowsChange | app/dashboard/settings/page.tsx:27-30 | with a repeated key the earlier configuration shows a change straight after loading |
| SettingsPage.HasChanges | app/dashboard/settings/page.tsx:65-67 | a configuration without an edited value always shows a change; otherwise it shows one exactly when the value in its input differs from the stored one |
| SettingsPage.DisplayedValue | app/dashboard/settings/page.tsx:122 | the edited value, 0 when the key has none |
| SettingsPage.UpdateDisabled | app/dashboard/settings/page.tsx:132 | the save button is disabled while its key is being saved, and otherwise exactly when the input shows the stored value of an edited key |
| SettingsPage.SaveButtonsDisabledAfterLoad | app/dashboard/settings/page.tsx:132 | after a load with distinct keys every save button is disabled |
| SettingsPage.EditEnablesSaveButton | app/dashboard/settings/page.tsx:132 | typing a different number enables the save button unless that key is being saved |
| SettingsPage.ChangedValues | app/dashboard/settings/page.tsx:58-63 | text `parseInt` reads sets that key; other text changes nothing; other keys untouched |
| SettingsPage.RetypingStoredValueClearsChange | app/dashboard/settings/page.tsx:58-67 | typing the stored value back clears the change and leaves other configurations alone |
| SettingsPage.TypingOtherValueShowsChange | app/dashboard/settings/page.tsx:58-67 | typing a different number shows a change |
| SettingsPage.SettingsPage.constructor | app/dashboard/settings/page.tsx:10-13 | nothing loaded, nothing saving, no edits |
| SettingsPage.SettingsPage.LoadConfigs | app/dashboard/settings/page.tsx:19-38 | a success replaces the configurations and resets the edits to them (no changes when keys are distinct); anything else changes nothing |
| SettingsPage.SettingsPage.HandleValueChange | app/dashboard/settings/page.tsx:58-63 | the edits become `ChangedValues` of the old edits |
| SettingsPage.SettingsPage.HandleUpdate | app/dashboard/settings/page.tsx:40-56 | sends the key's edited value; a success reloads; `updating` ends cleared whatever happens |
| PromptsPage.Capitalize | app/dashboard/prompts/page.tsx:370-372 | first character upper-cased, the rest unchanged |
| PromptsPage.CapitalizeAll | app/dashboard/prompts/page.tsx:369-373 | every word capitalised, in order |
| PromptsPage.SegmentNames | app/dashboard/prompts/page.tsx:366-374 | every `/` segment named, in order |
| PromptsPage.DefaultName | app/dashboard/prompts/page.tsx:364-374 | the proposed name is empty exactly when no key is chosen (its text is fixed by the DefaultName lemmas below) |
| PromptsPage.DefaultNameIsNameFrom | app/dashboard/prompts/page.tsx:364-374 | the split/map/join default name equals the one-character-at-a-time definition |
| PromptsPage.DefaultNameLength | app/dashboard/prompts/page.tsx:364-374 | the name is the key's length plus two per `/` |
| PromptsPage.DefaultNameHasNoSeparators | app/dashboard/prompts/page.tsx:364-374 | the name contains no `/` or `_` |
| PromptsPage.DefaultNameRoundTrip | app/dashboard/prompts/page.tsx:364-374 | for lower-case keys the key can be recovered from the name |
| PromptsPage.DefaultNameInjective | app/dashboard/prompts/page.tsx:364-374 | distinct lower-case keys get distinct default names |
| PromptsPage.FindKeyDef | app/dashboard/prompts/page.tsx:363 | a definition with that key, none exactly when no definition has it |
| PromptsPage.SelectKey | app/dashboard/prompts/page.tsx:361-380 | key and default name set, description from the key's definition (empty without one), template and variables kept |
| PromptsPage.CreateDto | app/dashboard/prompts/page.tsx:96-119 | no request exactly when the key is empty or the variables are non-blank invalid JSON; empty description and blank variables become undefined |
| PromptsPage.PromptQuery | app/dashboard/prompts/page.tsx:45-50 | page and size 20; search undefined exactly when empty; active flag undefined for "", true for "true", false otherwise |
| PromptsPage.PromptListRequest | app/dashboard/prompts/page.tsx:45-50 | the request carries the page, size 20, and the search when one is typed |
| PromptsPage.RowActionFor | app/dashboard/prompts/page.tsx:284-300 | delete for active prompts, restore for inactive ones, disabled and captioned while that prompt is being restored |
| PromptsPage.RowActionMatchesBadge | app/dashboard/prompts/page.tsx:267-300 | the delete action appears exactly on rows badged Active |
| PromptsPage.PromptsPage.constructor | app/dashboard/prompts/page.tsx:11-40 | page 1 of 1, active filter "true", dialogs closed, empty form |
| PromptsPage.PromptsPage.LoadPrompts | app/dashboard/prompts/page.tsx:42-62 | sends the query of the current state; a success replaces list, page count (`total_pages \|\| 1`) and total (`total \|\| 0`); anything else changes nothing |
| PromptsPage.PromptsPage.LoadPromptKeys | app/dashboard/prompts/page.tsx:68-80 | keys replaced only by a success that carries data |
| PromptsPage.PromptsPage.OpenCreateModal | app/dashboard/prompts/page.tsx:82-85 | loads the keys and opens the dialog |
| PromptsPage.PromptsPage.CloseCreateModal | app/dashboard/prompts/page.tsx:344 | closes the dialog, keeping the form |
| PromptsPage.PromptsPage.ChooseKey | app/dashboard/prompts/page.tsx:361-380 | the form becomes `SelectKey` of the old form |
| PromptsPage.PromptsPage.EditField | app/dashboard/prompts/page.tsx:402-445 | only the edited field changes |
| PromptsPage.PromptsPage.HandleCreate | app/dashboard/prompts/page.tsx:93-133 | nothing sent when `CreateDto` refuses; on success the dialog closes, the form is cleared, the list reloads with the page shown before and then the page becomes 1; a successful reload replaces list, page count and total, a failed one changes none of them |
| PromptsPage.PromptsPage.SetSearchTerm | app/dashboard/prompts/page.tsx:196 | only the term changes |
| PromptsPage.PromptsPage.HandleSearch | app/dashboard/prompts/page.tsx:87-91 | the list reloads with the state as it was, and the page becomes 1; a successful reload replaces list, page count and total, a failed one changes none of them |
| PromptsPage.PromptsPage.SetActiveFilter | app/dashboard/prompts/page.tsx:203-206 | filter set and page back to 1 |
| PromptsPage.PromptsPage.GoToPrevPage | app/dashboard/prompts/page.tsx:319-320 | page becomes `PrevPage` of the old one |
| PromptsPage.PromptsPage.GoToNextPage | app/dashboard/prompts/page.tsx:326-327 | page becomes `NextPage` of the old one |
| PromptsPage.PromptsPage.AskDelete | app/dashboard/prompts/page.tsx:286 | that prompt becomes the delete target |
| PromptsPage.PromptsPage.CancelDelete | app/dashboard/prompts/page.tsx:492 | no delete target |
| PromptsPage.PromptsPage.HandleDelete | app/dashboard/prompts/page.tsx:135-152 | nothing without a target; otherwise deletes it, and on success clears the target and reloads; a successful reload replaces list, page count and total, a failed one changes none of them |
| PromptsPage.PromptsPage.HandleRestore | app/dashboard/prompts/page.tsx:154-168 | restores the prompt, reloads on success (a successful reload replaces list, page count and total, a failed one changes none of them), and `restoringId` ends cleared whatever happens |
| DashboardLayout.IsActiveDesktop | app/dashboard/layout.tsx:87-88 | Overview is highlighted only on an exact match; every other item whenever its href is a character prefix of the path |
| DashboardLayout.IsActiveMobile | app/dashboard/layout.tsx:167 | the mobile menu highlights exactly the desktop highlights whose href has the path's full length |
| DashboardLayout.OverviewActiveOnlyOnExactMatch | app/dashboard/layout.tsx:87-88 | Overview is highlighted only on its own path |
| DashboardLayout.MobileActiveImpliesDesktopActive | app/dashboard/layout.tsx:167 | what the mobile menu highlights the sidebar highlights too |
| DashboardLayout.PrefixMatchIsByCharacters | app/dashboard/layout.tsx:87-88 | sub-pages light up their section on desktop only, and the match is by characters, not path segments |
| DashboardLayout.MenuHrefsPrefixFree | app/dashboard/layout.tsx:27-36 | no menu href but Overview's starts with another one |
| DashboardLayout.AtMostOneActiveDesktop | app/dashboard/layout.tsx:85-88 | for any path at most one sidebar item is highlighted |
| DashboardLayout.AvatarInitial | app/dashboard/layout.tsx:114 | the account id's first letter upper-cased, `A` without one |
| DashboardLayout.DisplayName | app/dashboard/layout.tsx:119 | the account id, `Admin` without one |
| DashboardLayout.RoleLabel | app/dashboard/layout.tsx:122 | the first role, `Administrator` without one |
| DashboardLayout.DashboardLayout.constructor | app/dashboard/layout.tsx:39-42 | no user, sidebar closed |
| DashboardLayout.DashboardLayout.Mount | app/dashboard/layout.tsx:44-62 | without a token: to `/`, no request; otherwise `getMe` with the session; a rejection removes the token and goes to `/`; a success sets the user |
| DashboardLayout.DashboardLayout.HandleLogout | app/dashboard/layout.tsx:64-67 | token removed, location `/` |
| DashboardLayout.DashboardLayout.SetSidebarOpen | app/dashboard/layout.tsx:142-209 | the sidebar state becomes the requested one |

## Left out

- HTTP transport: axios, URL and JSON serialisation, headers beyond the defaults and `Authorization`, and the server itself. Answers are inputs.
- Asynchrony: the order in which concurrent promises settle, and React's batching of state updates. Each handler is one atomic step. Its reloads are taken as already settled outcomes.
- The reloads React effects run after a state change (the effects on `page`, on `loadPrompts` and on mount). The pager methods return whether a reload is due, or change only the page. The reload itself is a separate `Load…` call.
- The transient `loading`, `loadingKeys`, `creating` and `deleting` flags. They only grey out controls.
- Floating-point values (confidence, percentages, `formatPercentage`) and number formatting (`formatNumber`). These are display only.
- Dates: `formatDate`, `formatDateTime`, `formatRelativeTime` (date-fns and `Intl`) are display only, and `processed_at` is kept as text.
- `JSON.parse`: modelled as the `isJson` parameter. The parsed object is kept as its text.
- Text.Lower: lower-cases ASCII letters only, because Unicode case mapping is out of scope. Text.IsBlank knows the common whitespace characters, not every one `trim` removes.
- Text.UpperChar: upper-cases ASCII letters only and maps one character to one. `toUpperCase` maps every letter and can lengthen one (`ß` becomes `SS`). So PromptsPage.Capitalize (length kept) and DashboardLayout.AvatarInitial (one character) hold for ASCII input only.
- PromptsPage.Capitalize: ASCII-only upper-casing of the first letter, as Text.UpperChar above.
- DashboardLayout.AvatarInitial: ASCII-only upper-casing; the one-character result does not hold for letters that `toUpperCase` lengthens. `charAt(0)` takes the first UTF-16 code unit, and the model takes the first character, so an account id starting outside the Basic Multilingual Plane gives a lone surrogate in the source and the whole character here.
- Utils.Truncate: lengths and positions count characters, where `length` and `substring` count UTF-16 code units. Text with characters outside the Basic Multilingual Plane is measured shorter here and is never cut inside a surrogate pair, as the source can be (`truncate("ab😀cd", 3)`).
- Utils.TruncateDefault: the limit of 100 and the resulting 103 count characters, not UTF-16 code units, as for Utils.Truncate.
- Text.ParseInt: reads leading spaces, an optional sign, then a `0x`-prefixed hexadecimal or a decimal digit run, stopping at the first other character. Whitespace beyond the common space characters and the loss of precision of very large numbers are not modelled.
- Utils.StatusLabel: `labels[status] || status` on a plain object would also find inherited keys such as `constructor`. Only the listed statuses are treated as known.
- Utils.StatusColor: the lookup at lib/utils.ts:25 also finds inherited `Object.prototype` keys, so for text such as `constructor` or `toString` the source returns that inherited function. The model returns the grey class for every text outside the listed values.
- Utils.SeverityColor: the lookup at lib/utils.ts:47 also finds inherited `Object.prototype` keys, so for text such as `constructor` or `toString` the source returns that inherited function. The model returns the grey class for every text outside the listed values.
- Utils.SeverityLabel: the lookup at lib/utils.ts:57 also finds inherited `Object.prototype` keys, so for text such as `constructor` or `toString` the source returns that inherited function. The model returns the text itself for every text outside the listed values.
- Utils.TicketStatusColor: the lookup at lib/utils.ts:67 also finds inherited `Object.prototype` keys, so for text such as `constructor` or `toString` the source returns that inherited function. The model returns the grey class for every text outside the listed values.
- Utils.TicketStatusLabel: the lookup at lib/utils.ts:77 also finds inherited `Object.prototype` keys, so for text such as `constructor` or `toString` the source returns that inherited function. The model returns the text itself for every text outside the listed values.
- Utils.TagTypeColor: the lookup at lib/utils.ts:88 also finds inherited `Object.prototype` keys, so for text such as `constructor` or `toString` the source returns that inherited function. The model returns the grey class for every text outside the listed values.
- Utils.TagTypeLabel: the lookup at lib/utils.ts:99 also finds inherited `Object.prototype` keys, so for text such as `constructor` or `toString` the source returns that inherited function. The model returns the text itself for every text outside the listed values.
- SettingsPage.InitialValues: `editedValues` is a plain object (app/dashboard/settings/page.tsx:13, 27-29), and the model uses a map. For a configuration key `__proto__`, the assignment in the `forEach` calls the prototype setter, which ignores a number. Reading the key then yields `Object.prototype`, so in the source the configuration shows a change straight after loading, its input shows that object, and saving sends it. The model binds the key to the loaded value, so SettingsPage.BuildInitialValues, SettingsPage.HasChanges, SettingsPage.DisplayedValue and SettingsPage.SettingsPage.HandleUpdate describe every key except `__proto__`.
- `alert`, `console.error` and the text of rejection messages: they only inform the user.
- The browser's `required` form validation, and the JSX markup beyond the values and button states modelled.
- The router beyond the location the session logic sets: `usePathname` is an input to the highlighting predicates.
- DashboardLayout.DashboardLayout.Mount: requires a browser window, because effects never run during server rendering.
- The detail pages (`app/dashboard/reports/[id]`, `app/dashboard/prompts/[id]`) and the categories, contributors, expectations and locations pages. Only their API wrappers are modelled.
- The root layout (`app/layout.tsx`) and `next.config.js`: configuration with no behaviour.

# Rybbit analytics core, modelled in Dafny

This project models the core of the Rybbit web-analytics server and of its admin dashboard. The model has one module per source file. Every operation is proved against a specification.

- **Filter compiler** (`FilterStatement`). Turns the dashboard's filter list into the text of an SQL `AND …` condition. It keeps the source's operator table, its ordered dispatch and its fail-fast validation of regex and numeric filters. The final field-rename pass is a loop, proved equal to the mappings applied in entry order.
- **Funnel step sessions** (`FunnelStepSessions`, `FunnelSemantics`). Covers:
  - request validation in its fixed order, and the dropped-at-last-step short cut;
  - the per-step condition builder, a loop over the property filters;
  - the chain of `Step` CTEs, built by a loop;
  - the `TargetSessions` selection;
  - its own `AggregatedSessions` rows, grouped by session and user, with the first page title and query string;
  - the paging, and the rows the handler sends.
  
  Besides the query text, a reference semantics over a session's events defines what `Step k` means. `FunnelSemantics` proves that the greedy earliest-match chain finds a session exactly when it has a strictly increasing chain of matching events. From that it proves that the step sets are nested and that "dropped" is `Step n` minus `Step n+1`.
- **Session list** (`Sessions`). Covers:
  - request defaults and the offset;
  - the filter options;
  - the meaning of `AggregatedSessions` over the stored events: one row per session, first-touch and last-touch columns, bounds and counts;
  - `ReplaySessions` and `has_replay`;
  - order, selection and paging of the result.
- **Import bookkeeping** (`ImportQuota`, `CsvParse`).
  - The quota manager is a class whose two maps are updated in place. It covers concurrent-import admission, completion, abandoned-import clean-up and the tracker cache.
  - The CSV worker's loop filters rows, asks the quota tracker, and sends chunks of 5000 followed by one final message. The rows are given as a sequence, and `jobQueue.send` appends to a log.
- **Site creation** (`AddSiteApi`, `AddSiteForm`). The server's domain pattern is proved equal to a label-by-label description of a host name. The model also covers the defaults and the hex id. On the client, the plan's site limit, the button gate and the form's state are a class.
- **Admin dashboard** (`AdminOrganizations`, `FilteredOrganizations`, `OrganizationStats`, `SubscriptionTiers`, `OrganizationsTable`, `GrowthChart`). Covers:
  - the filter pipeline over organizations;
  - the four summary counters;
  - the breakdown by plan and its sort;
  - the organizations table's paging and expanded rows;
  - the growth chart's per-day counts.

`Util` holds `Option`/`Result`, joining and string helpers, sums and filtering. `Sorting` holds a sort by an integer key. `Events` holds the event row shared by the session list and the funnel.

Calls into code outside these files enter the model as function-valued parameters. Examples are SQL escaping, `patternToRegex`, regex validity, `Number(…)`, JavaScript's Unicode `toLowerCase`, date parsing, the quota tracker's decision, the database insert, `isValidDomain` and `normalizeDomain`. The clock enters as an integer `now`.

Where the code and its description differ, the model follows the code:
- A filter the funnel endpoint cannot compile is answered with status 500, not 400, because it is compiled inside the `try`.
- The sessions list compiles its filters outside the `try`, so the model has the error escape the handler.
- A session whose id is the empty string never has a replay, because `has_replay` tests the joined id against `''`.
- `user_id` filters with an operator other than equals or not-equals get the "not equal to either id" clause.
- The organization search matches the lower-cased query untrimmed, blanks included. It is switched on only when the trimmed query is non-empty. Trimming removes exactly JavaScript's white space and line terminators; lower-casing is the host's `toLowerCase`.
- The funnel groups its `AggregatedSessions` by session and user, so a session with two user ids gives two rows.

## Model

| member | source | states |
|---|---|---|
| FilterStatement.Operator | server/src/api/analytics/utils/getFilterStatement.ts:18-36 | the operator is missing exactly for the regex and not-regex kinds |
| FilterStatement.Comparisons | server/src/api/analytics/utils/getFilterStatement.ts:192-194 | one comparison per value, in value order |
| FilterStatement.SqlParamUrlParameters | server/src/api/analytics/utils/getFilterStatement.ts:40-49 | `url_param:name` and every `utm_…` parameter read `url_parameters['…']` |
| FilterStatement.SqlParamPlainColumn | server/src/api/analytics/utils/getFilterStatement.ts:51-76 | a parameter outside the URL-parameter and computed-dimension cases is its own column |
| FilterStatement.StripLeadingAnd | server/src/api/analytics/utils/getFilterStatement.ts:99 | stripping the leading `AND` never lengthens the time statement |
| FilterStatement.TimeFilterStripsAnd | server/src/api/analytics/utils/getFilterStatement.ts:99 | `AND ` followed by a condition without outer blanks yields exactly that condition |
| FilterStatement.ScopeWhere | server/src/api/analytics/utils/getFilterStatement.ts:108 | the subquery scope is empty exactly when both the site filter and the time filter are |
| FilterStatement.CompileFilters | server/src/api/analytics/utils/getFilterStatement.ts:125-301 | on success one fragment per filter, each that filter's own compilation in input order; fails exactly when some filter fails |
| FilterStatement.ReplaceAllSelf | server/src/api/analytics/utils/getFilterStatement.ts:309 | replacing every occurrence of a key by itself changes nothing |
| FilterStatement.MapFieldsAbsent | server/src/api/analytics/utils/getFilterStatement.ts:305-311 | mappings whose keys do not occur leave the statement unchanged |
| FilterStatement.GetFilterStatement | server/src/api/analytics/utils/getFilterStatement.ts:79-314 | the handler, with its field-mapping loop, computes the statement the specification function defines |
| FilterStatement.ApplyFieldMappings | server/src/api/analytics/utils/getFilterStatement.ts:305-311 | the loop applies every mapping, in entry order, to the whole text |
| FilterStatement.EmptyFiltersYieldEmpty | server/src/api/analytics/utils/getFilterStatement.ts:85-94 | a missing or empty filter list gives the empty statement |
| FilterStatement.StatementShape | server/src/api/analytics/utils/getFilterStatement.ts:123-302 | a non-empty list fails exactly when some filter fails; otherwise it gives `AND ` and the fragments joined by ` AND ` |
| FilterStatement.FirstErrorWins | server/src/api/analytics/utils/getFilterStatement.ts:125-301 | when every filter before the k-th compiles and the k-th fails, the list fails with the k-th filter's error |
| FilterStatement.SessionLevelDispatch | server/src/api/analytics/utils/getFilterStatement.ts:132-134 | a session-level parameter is compiled to the session subquery before any other case |
| FilterStatement.UserIdSingleValue | server/src/api/analytics/utils/getFilterStatement.ts:213-221 | one user id: equals matches either id, not-equals excludes both |
| FilterStatement.UserIdSeveralValues | server/src/api/analytics/utils/getFilterStatement.ts:223-236 | several user ids: per-value clauses OR-joined for equals, AND-joined otherwise |
| FilterStatement.UserIdOtherOperatorsExclude | server/src/api/analytics/utils/getFilterStatement.ts:223-236 | a single user id with any other operator becomes the parenthesised not-equal-to-either clause |
| FilterStatement.RegexValidation | server/src/api/analytics/utils/getFilterStatement.ts:240-263 | empty pattern, then invalid pattern, then a length over 500 UTF-16 code units fail in that order; otherwise `match(…)`, negated for not-regex |
| Util.Utf16Length | server/src/api/analytics/utils/getFilterStatement.ts:256 | `pattern.length` counts UTF-16 code units: between the number of code points and twice it, and equal to it when every code point is below U+10000 |
| FilterStatement.NumericValidation | server/src/api/analytics/utils/getFilterStatement.ts:266-272 | greater/less fail exactly on a non-numeric first value; otherwise `field > n` or `field < n` |
| FilterStatement.DefaultCase | server/src/api/analytics/utils/getFilterStatement.ts:290-300 | one value gives `field op value`, several a parenthesised OR; contains kinds wrap the value in `%` |
| FilterStatement.LatLonBand | server/src/api/analytics/utils/getFilterStatement.ts:275-280 | one latitude or longitude value gives the closed band around it |
| FilterStatement.PageFilters | server/src/api/analytics/utils/getFilterStatement.ts:136-208 | entry and exit page filters test the first or last pathname per session, inside the scope, OR-ing several values |
| FunnelSemantics.FirstMatchAfter | server/src/api/analytics/funnels/getFunnelStepSessions.ts:147-170 | none exactly when no event qualifies; otherwise the timestamp of a qualifying event that no qualifying event precedes |
| FunnelSemantics.StepTimesIncrease | server/src/api/analytics/funnels/getFunnelStepSessions.ts:158-170 | a session at step k+1 was at step k, strictly earlier |
| FunnelSemantics.GreedyChainIsOptimal | server/src/api/analytics/funnels/getFunnelStepSessions.ts:147-171 | the greedy step time exists exactly when some event ends a strictly increasing chain of matches, and it is the earliest such end |
| FunnelSemantics.StepSessionsNested | server/src/api/analytics/funnels/getFunnelStepSessions.ts:158-171 | Step k+1's sessions are among Step k's |
| FunnelSemantics.StepSessionsMeaning | server/src/api/analytics/funnels/getFunnelStepSessions.ts:147-171 | a session is in Step k exactly when its events hold a strictly increasing chain matching steps 1..k |
| FunnelSemantics.ReachedSplitsIntoNextAndDropped | server/src/api/analytics/funnels/getFunnelStepSessions.ts:173-193 | reached at n is the disjoint union of reached at n+1 and dropped at n |
| FunnelSemantics.DroppedMeaning | server/src/api/analytics/funnels/getFunnelStepSessions.ts:183-192 | dropped at n means completing steps 1..n but not 1..n+1 |
| FunnelStepSessions.ValidationOrder | server/src/api/analytics/funnels/getFunnelStepSessions.ts:46-57 | each 400 is given exactly when the earlier checks pass and its own fails; passing all three gives ≥ 2 steps, a step in range and one of the two modes |
| FunnelStepSessions.StepsToCheckWithinSteps | server/src/api/analytics/funnels/getFunnelStepSessions.ts:79-80 | after validation and the dropped-at-last-step case, between 1 and the number of steps are checked |
| FunnelStepSessions.BuildStepCondition | server/src/api/analytics/funnels/getFunnelStepSessions.ts:80-126 | the `+=` loop builds the step's clauses joined with ` AND ` |
| FunnelStepSessions.StepMatchesSplit | server/src/api/analytics/funnels/getFunnelStepSessions.ts:83-123 | an event matches a step exactly when it meets the base clauses, every property filter and the hostname if one is set |
| FunnelStepSessions.PageStepMeaning | server/src/api/analytics/funnels/getFunnelStepSessions.ts:83-98 | a page step matches a pageview whose path matches the pattern's regex and whose URL parameters equal each filter's text |
| FunnelStepSessions.EventStepMeaning | server/src/api/analytics/funnels/getFunnelStepSessions.ts:99-119 | an event step matches a custom event of that name whose props compare with each filter by the value's type |
| FunnelStepSessions.LegacyPropertyIgnored | server/src/api/analytics/funnels/getFunnelStepSessions.ts:88-92 | when `propertyFilters` is present the legacy key and value change nothing |
| FunnelStepSessions.NoPropertyWithoutLegacyPair | server/src/api/analytics/funnels/getFunnelStepSessions.ts:103-107 | without `propertyFilters`, a missing or empty key or a missing value adds no property clause |
| FunnelStepSessions.BuildStepConditions | server/src/api/analytics/funnels/getFunnelStepSessions.ts:80-126 | the `.map` yields the condition of each of the first `stepsToCheck` steps |
| FunnelStepSessions.BuildStepCtes | server/src/api/analytics/funnels/getFunnelStepSessions.ts:129-171 | Step1 from the first condition, then Step i+1 from Step i and the next condition, one per condition |
| FunnelStepSessions.GetFunnelStepSessions | server/src/api/analytics/funnels/getFunnelStepSessions.ts:39-263 | the handler gives the response its specification function defines |
| FunnelStepSessions.DroppedAtLastStepIsEmpty | server/src/api/analytics/funnels/getFunnelStepSessions.ts:59-62 | dropped mode at the last step answers with no rows and no query |
| FunnelStepSessions.FilterErrorIsServerError | server/src/api/analytics/funnels/getFunnelStepSessions.ts:64-76 | a valid request whose filters fail to compile gets the 500 answer |
| FunnelStepSessions.RunQueryShape | server/src/api/analytics/funnels/getFunnelStepSessions.ts:79-261 | a query that runs has stepNumber (+1 if dropped) conditions within the steps, one CTE per condition, the mode's target, the compiled filters, limit `limit or 25` and offset (page−1)·limit |
| FunnelStepSessions.FunnelTargetsMeaning | server/src/api/analytics/funnels/getFunnelStepSessions.ts:173-193 | a target session completes steps 1..n in increasing time, and for dropped does not complete 1..n+1 |
| FunnelStepSessions.TargetEvents | server/src/api/analytics/funnels/getFunnelStepSessions.ts:239-240 | the joined events are exactly the scoped events of target sessions |
| FunnelStepSessions.KeyGroup | server/src/api/analytics/funnels/getFunnelStepSessions.ts:244-246 | a (session, user) group holds exactly the scoped events with that session and user |
| FunnelStepSessions.TargetGroup | server/src/api/analytics/funnels/getFunnelStepSessions.ts:239-246 | for a target session, joining with `TargetSessions` leaves its (session, user) group whole |
| FunnelStepSessions.FunnelFirstTouch | server/src/api/analytics/funnels/getFunnelStepSessions.ts:217-226 | referrer, channel, hostname, page title, query string and the UTM columns all come from one earliest event |
| FunnelStepSessions.FunnelLastTouch | server/src/api/analytics/funnels/getFunnelStepSessions.ts:206-238 | geo, device, browser, OS, screen, ip and coordinates all come from one latest event |
| FunnelStepSessions.FunnelTotals | server/src/api/analytics/funnels/getFunnelStepSessions.ts:227-235 | start and end bound the timestamps and are attained, duration is their difference, the four counts add up to at most the group's size |
| FunnelStepSessions.TargetRowsKeys | server/src/api/analytics/funnels/getFunnelStepSessions.ts:202-246 | every row is of a target session and aggregates all the scoped events of its session and user; no two rows share both |
| FunnelStepSessions.TargetRowsComplete | server/src/api/analytics/funnels/getFunnelStepSessions.ts:239-246 | every scoped event of a target session has the row of its session and user |
| FunnelStepSessions.FunnelPageProperties | server/src/api/analytics/funnels/getFunnelStepSessions.ts:247-252 | at most `limit` rows, each an input row kept by the filter, latest session end first |
| FunnelStepSessions.FunnelRowsMeaning | server/src/api/analytics/funnels/getFunnelStepSessions.ts:202-252 | the page holds at most `limit` rows, latest end first, each kept, of a target session, and the aggregate of its session and user's events |
| FunnelStepSessions.RunQueryTarget | server/src/api/analytics/funnels/getFunnelStepSessions.ts:46-62 | a query that runs has the request's step number, between 1 and the steps and below the last step for dropped, and the request's mode |
| FunnelStepSessions.TargetPageMeaning | server/src/api/analytics/funnels/getFunnelStepSessions.ts:173-252 | each row of the page is kept, of a session completing steps 1..n (not n+1 for dropped), and the aggregate of its group; at most `limit`, latest first |
| FunnelStepSessions.FunnelAnswerMeaning | server/src/api/analytics/funnels/getFunnelStepSessions.ts:59-269 | no rows for a drop-off at the last step, nothing on a 400 or 500, and for a query that runs, rows exactly when its LIMIT and OFFSET are non-negative: the page of the step's target sessions |
| FunnelStepSessions.FunnelAnswerRows | server/src/api/analytics/funnels/getFunnelStepSessions.ts:39-266 | the rows sent for a query that runs: at most `limit`, latest end first, each kept, of a session completing the requested steps (not the next one for dropped), each its group's aggregate |
| Sessions.GetSessionsPlan | server/src/api/analytics/getSessions.ts:69-156 | limit `limit or 100`, offset (page−1)·limit with page 1 by default, identified-only exactly for `"true"`; fails exactly when the filters fail |
| Sessions.DefaultsAskForFirstPage | server/src/api/analytics/getSessions.ts:70 | with no parameters: limit 100, offset 0, identified-only off |
| Sessions.SessionsFilterLevels | server/src/api/analytics/getSessions.ts:79-82 | event_name, pathname and page_title filters compile to the session-level subquery, not to a condition on the row |
| Sessions.SessionMappingsHarmless | server/src/api/analytics/getSessions.ts:61-67 | the five UTM mappings have non-empty keys, and leave a statement without those keys unchanged |
| Sessions.PageRows | server/src/api/analytics/getSessions.ts:144 | at most `limit` rows: the consecutive rows from `offset`, none past the end |
| Sessions.PagesFollowOn | server/src/api/analytics/getSessions.ts:153-155 | page p+1 starts where page p ends, so two pages together are one page of twice the limit |
| Sessions.UserIdMatchesEitherId | server/src/api/analytics/getSessions.ts:124 | a user id keeps exactly the site's in-range events whose device id or identified id equals it |
| Sessions.EarliestWhere | server/src/api/analytics/getSessions.ts:101-112 | `argMin`/`argMinIf`: none exactly when nothing qualifies, otherwise a qualifying event no qualifying event precedes |
| Sessions.LatestWhere | server/src/api/analytics/getSessions.ts:88-100 | `argMax`/`argMaxIf`: none exactly when nothing qualifies, otherwise a qualifying event no qualifying event follows |
| Sessions.CountKind | server/src/api/analytics/getSessions.ts:114-117 | `countIf` is at most the number of events, and zero exactly when no event has that type |
| Sessions.SessionBounds | server/src/api/analytics/getSessions.ts:109-111 | start and end are the least and greatest timestamps, both attained; duration is their difference and not negative |
| Sessions.LastTouchColumns | server/src/api/analytics/getSessions.ts:88-120 | user ids, geo, device, browser, OS, screen, ip and coordinates all come from one latest event |
| Sessions.FirstTouchColumns | server/src/api/analytics/getSessions.ts:101-108 | referrer, channel, hostname and the UTM columns all come from one earliest event |
| Sessions.EntryExitPages | server/src/api/analytics/getSessions.ts:112-113 | entry and exit pages are the paths of the earliest and latest pageview, empty without pageviews |
| Sessions.FourCountsBounded | server/src/api/analytics/getSessions.ts:114-117 | the four type counts add up to at most the number of events |
| Sessions.TypeCountsBounded | server/src/api/analytics/getSessions.ts:114-117 | a row's pageviews, events, errors and outbound add up to at most its session's events |
| Sessions.DistinctKeys | server/src/api/analytics/getSessions.ts:126-127 | the group keys are pairwise distinct and are exactly the keys of the events |
| Sessions.GroupOf | server/src/api/analytics/getSessions.ts:126-127 | a group holds exactly the events with its key, in event order |
| Sessions.Groups | server/src/api/analytics/getSessions.ts:126-127 | distinct keys, non-empty groups, and every event's key has a group |
| Sessions.AggregatedSessions | server/src/api/analytics/getSessions.ts:85-129 | one row per group, carrying the group's session id |
| Sessions.OneRowPerSession | server/src/api/analytics/getSessions.ts:126-127 | no two rows share a session, and every scoped event's session has a row |
| Sessions.RowsComeFromEvents | server/src/api/analytics/getSessions.ts:121-127 | every row's session has a scoped event |
| Sessions.RowAggregatesItsSession | server/src/api/analytics/getSessions.ts:85-127 | each row is the aggregate of all of its session's events |
| Sessions.HasReplayMeaning | server/src/api/analytics/getSessions.ts:130-141 | has_replay is 0 or 1, and 1 exactly for a non-empty session id with the site's replay metadata of at least two events |
| Sessions.WithReplay | server/src/api/analytics/getSessions.ts:137-141 | the join keeps every row and its order, setting each row's has_replay |
| Sessions.Selected | server/src/api/analytics/getSessions.ts:142-143 | the outer WHERE keeps exactly the rows the filter keeps, identified ones only when asked, in order |
| Sessions.SelectionKeepsOrder | server/src/api/analytics/getSessions.ts:142-143 | filtering rows ordered latest first with distinct sessions keeps them so |
| Sessions.ListRowsProperties | server/src/api/analytics/getSessions.ts:128-144 | the page holds at most `limit` rows with distinct sessions, latest end first, all kept by the filter and identified when asked |
| Sessions.ListRowsFromInput | server/src/api/analytics/getSessions.ts:137-144 | every listed row is an aggregated row with its has_replay set |
| Sessions.SortedLatestFirst | server/src/api/analytics/getSessions.ts:128 | ordering by session end descending gives rows latest first, each an input row |
| Sessions.SessionsListProperties | server/src/api/analytics/getSessions.ts:84-145 | over the stored events: at most `limit` rows with distinct sessions, latest first, kept by the filter, each the aggregate of its session's scoped events with its replay flag |
| ImportQuota.Live | server/src/services/import/importQuotaManager.ts:89-97 | the surviving imports are exactly those not older than two hours |
| ImportQuota.StartAdmitsIffNoLiveImport | server/src/services/import/importQuotaManager.ts:39-61 | a start is admitted exactly when the organization has no live import; it records one import started now and leaves other organizations alone; a refusal only cleans up |
| ImportQuota.StartKeepsWellFormed | server/src/services/import/importQuotaManager.ts:39-61 | after a start no organization maps to an empty set or to more than one import |
| ImportQuota.CompleteKeepsWellFormed | server/src/services/import/importQuotaManager.ts:63-78 | completing removes the organization's entry, keeps the others and the invariant |
| ImportQuota.StartCompleteStart | server/src/services/import/importQuotaManager.ts:39-78 | after an admitted start and its completion a new start is admitted |
| ImportQuota.SecondStartRefused | server/src/services/import/importQuotaManager.ts:52-54 | a second start within two hours of an admitted one is refused |
| ImportQuota.SweepLeavesLiveImports | server/src/services/import/importQuotaManager.ts:114-117 | the sweep keeps the invariant, keeps only live imports in order, and keeps every organization that has one |
| ImportQuota.SweepKeepsRecentTrackers | server/src/services/import/importQuotaManager.ts:107-112 | exactly the trackers used within 30 minutes remain, unchanged |
| ImportQuota.TrackerReuse | server/src/services/import/importQuotaManager.ts:21-37 | a tracker used less than 30 minutes ago is reused, otherwise the new one; either is cached as used now; other entries stay |
| ImportQuota.TrackerStable | server/src/services/import/importQuotaManager.ts:25-28 | asking again within 30 minutes, in a look-up that does not overlap another, returns the same tracker |
| ImportQuota.ImportQuotaManager.constructor | server/src/services/import/importQuotaManager.ts:13-15 | both maps start empty |
| ImportQuota.ImportQuotaManager.GetTracker | server/src/services/import/importQuotaManager.ts:21-37 | the tracker and the new cache are as specified; imports are untouched |
| ImportQuota.ImportQuotaManager.StartImport | server/src/services/import/importQuotaManager.ts:39-61 | outside the cloud admits and changes nothing; in the cloud admits and updates as specified, keeping the invariant |
| ImportQuota.ImportQuotaManager.CompleteImport | server/src/services/import/importQuotaManager.ts:63-78 | removes the first import and the emptied entry; no entry, no change |
| ImportQuota.ImportQuotaManager.CleanupAbandonedImports | server/src/services/import/importQuotaManager.ts:80-102 | the two loops remove the organization's abandoned imports and its entry if emptied |
| ImportQuota.ImportQuotaManager.Cleanup | server/src/services/import/importQuotaManager.ts:104-118 | stale trackers go and every organization's abandoned imports go; the invariant is kept |
| ImportQuota.ImportQuotaManager.SweepTrackers | server/src/services/import/importQuotaManager.ts:107-112 | the loop deletes exactly the trackers idle for more than 30 minutes |
| ImportQuota.ImportQuotaManager.SweepImports | server/src/services/import/importQuotaManager.ts:114-117 | the loop over organizations gives the all-organization clean-up |
| CsvParse.GetImportDataHeaders | server/src/services/import/workers/csvParseWorker.ts:16-23 | only "umami" has headers; any other platform is the unsupported-platform error |
| CsvParse.DateRangeErrors | server/src/services/import/workers/csvParseWorker.ts:49-61 | fails exactly on a given bound that does not parse, the start checked first; otherwise a bound exactly where one was given |
| CsvParse.DateRangeByDay | server/src/services/import/workers/csvParseWorker.ts:63-78 | a row date is in range exactly when it parses and its day is within the given bounds' days |
| CsvParse.AcceptedAccounting | server/src/services/import/workers/csvParseWorker.ts:128-147 | accepted rows are eligible rows in stream order, and accepted + quota-skipped + dropped = all rows |
| CsvParse.ChunksPartition | server/src/services/import/workers/csvParseWorker.ts:149-174 | chunks hold 1..5000 rows and concatenate to the accepted rows |
| CsvParse.ChunksOfFull | server/src/services/import/workers/csvParseWorker.ts:149-174 | full chunks followed by a shorter remainder are the chunking of their concatenation |
| CsvParse.AcceptStep | server/src/services/import/workers/csvParseWorker.ts:128-147 | one more row is accepted when eligible and allowed, and counted as skipped when eligible and refused |
| CsvParse.PushRow | server/src/services/import/workers/csvParseWorker.ts:146-160 | pushing a row, and flushing at 5000, keeps the sent chunks full and the rows in order |
| CsvParse.ParseRows | server/src/services/import/workers/csvParseWorker.ts:128-199 | the loop, the leftover flush and the final step give the specified outcome |
| CsvParse.RunCsvParseJob | server/src/services/import/workers/csvParseWorker.ts:88-203 | the worker body gives the specified outcome, set-up errors included |
| CsvParse.SetupErrorsSendNothing | server/src/services/import/workers/csvParseWorker.ts:200-206 | an unsupported platform or a bad bound sends nothing and ends in the generic failure |
| CsvParse.DataMessagesCarryAcceptedRows | server/src/services/import/workers/csvParseWorker.ts:146-174 | data messages hold 1..5000 rows, together the accepted rows in order, and the processed count is their number |
| CsvParse.FinalSignalIffNoQuotaSkips | server/src/services/import/workers/csvParseWorker.ts:176-199 | the final message is sent exactly when no row was skipped for quota, last and once; otherwise the import is marked failed with the count |
| AddSiteApi.DomainMatchesSound | server/src/api/sites/addSite.ts:25 | a domain the check accepts is one or more labels of 1–63 letters, digits or hyphens, not starting or ending with a hyphen, each followed by a dot, then a TLD of ≥ 2 letters |
| AddSiteApi.DomainMatchesComplete | server/src/api/sites/addSite.ts:25 | every domain of that shape is accepted |
| AddSiteApi.DomainCheckIsPattern | server/src/api/sites/addSite.ts:25 | the check accepts exactly the domains of that shape |
| AddSiteApi.HexId | server/src/api/sites/addSite.ts:37 | two lower-case hex digits per byte |
| AddSiteApi.HexIdRoundTrip | server/src/api/sites/addSite.ts:37 | the id decodes back to its bytes |
| AddSiteApi.InvalidDomainRejected | server/src/api/sites/addSite.ts:24-30 | a malformed domain gets 400 whatever the database would do |
| AddSiteApi.ValidDomainInserted | server/src/api/sites/addSite.ts:32-59 | a valid domain inserts a row with a 12-digit hex id, public and salting only when true, bot blocking unless explicitly false; 201 with the row, or 500 |
| AddSiteForm.AppsumoHasNoTier | client/src/app/components/AddSite.tsx:28-42 | the lifetime plan names contain neither "standard" nor "pro", so their branches are reached |
| AddSiteForm.SiteLimitTiers | client/src/app/components/AddSite.tsx:27-44 | "standard" wins over "pro"; no subscription or any other plan gets the free limit |
| AddSiteForm.AppsumoLimits | client/src/app/components/AddSite.tsx:34-42 | appsumo-1, -2 and -3 allow 3, 10 and 25 sites |
| AddSiteForm.SiteLimitGate | client/src/app/components/AddSite.tsx:54-56 | never over the limit outside the cloud; over it, one more site stays over it; with the count still loading, over exactly in the cloud with a limit of 0; the button is enabled exactly when not disabled and, in the cloud, below the limit |
| AddSiteForm.SubmitGuards | client/src/app/components/AddSite.tsx:64-76 | a missing organization is rejected before an invalid domain, and a rejection never reaches the server |
| AddSiteForm.SubmitCallsServer | client/src/app/components/AddSite.tsx:78-95 | a valid submission sends the normalized domain as domain and name, and succeeds exactly when the server does |
| AddSiteForm.Form.constructor | client/src/app/components/AddSite.tsx:58-62 | closed, empty domain and error, both switches off |
| AddSiteForm.Form.SetDomain | client/src/app/components/AddSite.tsx:160 | stores the input lower-cased by `toLowerCase`, so Add is disabled exactly when that is empty; nothing else changes |
| AddSiteForm.Form.SetIsPublic | client/src/app/components/AddSite.tsx:174 | only the public switch changes |
| AddSiteForm.Form.SetSaltUserIds | client/src/app/components/AddSite.tsx:187 | only the salting switch changes |
| AddSiteForm.Form.ResetForm | client/src/app/components/AddSite.tsx:97-102 | domain and error empty, both switches off, Add disabled, open unchanged |
| AddSiteForm.Form.OnOpenChange | client/src/app/components/AddSite.tsx:128-133 | opening resets the form and leaves Add disabled; closing keeps the fields |
| AddSiteForm.Form.HandleSubmit | client/src/app/components/AddSite.tsx:64-95 | the error shows the outcome's message or is cleared, the dialog closes and navigation happens only on success, the fields are kept |
| AdminOrganizations.RecentIffPositive | client/src/app/admin/components/organizations/useOrganizationStats.ts:18-32 | the 30-day sum is positive exactly when some site had events |
| FilteredOrganizations.Stages | client/src/app/admin/components/organizations/useFilteredOrganizations.ts:18-51 | the four stages give a subsequence holding exactly the organizations meeting every enabled condition |
| FilteredOrganizations.FilterMeaning | client/src/app/admin/components/organizations/useFilteredOrganizations.ts:15-52 | no list gives []; otherwise exactly the list filtered, in order, by `Kept`: the search on a non-blank query and each enabled show flag |
| FilteredOrganizations.NoFiltersIsIdentity | client/src/app/admin/components/organizations/useFilteredOrganizations.ts:18-51 | a blank query, both show flags on and over-limit off return the input |
| FilteredOrganizations.BlankQueryIgnored | client/src/app/admin/components/organizations/useFilteredOrganizations.ts:21-22 | a query of blanks filters as the empty one |
| OrganizationStats.OrganizationStats | client/src/app/admin/components/organizations/useOrganizationStats.ts:6-32 | all zero without a list; otherwise total is the length and active and paid are at most it |
| OrganizationStats.CountersMeaning | client/src/app/admin/components/organizations/useOrganizationStats.ts:15-32 | active is 0 or all exactly when none or all had events; likewise paid for non-free plans; the event total is 0 exactly when none is active |
| OrganizationStats.TotalZeroIffNoneActive | client/src/app/admin/components/organizations/useOrganizationStats.ts:28-32 | the 30-day total is zero exactly when no organization had events |
| OrganizationStats.StatsAdd | client/src/app/admin/components/organizations/useOrganizationStats.ts:15-32 | each counter adds up over a split of the list |
| SubscriptionTiers.TierIndex | client/src/app/admin/components/organizations/SubscriptionTiersTable.tsx:31-33 | the plan's entry if it has one, and none exactly when no entry has that plan |
| SubscriptionTiers.AddOrganizationTiers | client/src/app/admin/components/organizations/SubscriptionTiersTable.tsx:30-34 | an organization adds its plan ("unknown" if none) only when the plan is new |
| SubscriptionTiers.AddOrganizationEffect | client/src/app/admin/components/organizations/SubscriptionTiersTable.tsx:29-41 | an organization bumps its plan's count and event sums by its own, and no other plan's |
| SubscriptionTiers.TallyTiers | client/src/app/admin/components/organizations/SubscriptionTiersTable.tsx:29-41 | one entry per distinct plan name, and exactly those |
| SubscriptionTiers.TallyRows | client/src/app/admin/components/organizations/SubscriptionTiersTable.tsx:29-41 | each entry's count and sums are those of its plan's organizations |
| SubscriptionTiers.TallySums | client/src/app/admin/components/organizations/SubscriptionTiersTable.tsx:26-43 | the counts add up to the number of organizations, and the plan sums to the grand totals |
| SubscriptionTiers.TierData | client/src/app/admin/components/organizations/SubscriptionTiersTable.tsx:25-41 | the `forEach` builds the tally and the two grand totals |
| SubscriptionTiers.TierSortClicks | client/src/app/admin/components/organizations/SubscriptionTiersTable.tsx:65-70 | a click sorts its column; another column starts descending; the current column flips direction, and clicking it twice restores the state |
| SubscriptionTiers.SortRowsMeaning | client/src/app/admin/components/organizations/SubscriptionTiersTable.tsx:54-62 | sorting keeps the rows and orders the column ascending or descending as asked |
| SubscriptionTiers.SubscriptionBreakdown | client/src/app/admin/components/organizations/SubscriptionTiersTable.tsx:22-63 | the memo body gives the specified breakdown |
| SubscriptionTiers.BreakdownRowsMeaning | client/src/app/admin/components/organizations/SubscriptionTiersTable.tsx:43-52 | each row carries its plan's count and sums, and shows "0.0" for a zero grand total |
| SubscriptionTiers.BreakdownCoversAll | client/src/app/admin/components/organizations/SubscriptionTiersTable.tsx:29-52 | one row per plan, every plan has a row, and the counts add up to the organizations |
| SubscriptionTiers.EmptyBreakdown | client/src/app/admin/components/organizations/SubscriptionTiersTable.tsx:23 | the breakdown is empty exactly when there are no organizations |
| OrganizationsTable.PageCountMeaning | client/src/app/admin/components/organizations/OrganizationsTable.tsx:160-161 | zero exactly for no rows; otherwise the fewest pages holding every row |
| OrganizationsTable.PagingMeaning | client/src/app/admin/components/organizations/OrganizationsTable.tsx:155-177 | back never goes below 0 and moves exactly when allowed; next never passes the last page and, from a page, moves exactly when allowed |
| OrganizationsTable.VisibleRowsMeaning | client/src/app/admin/components/organizations/OrganizationsTable.tsx:149-151 | at most a page of rows: the rows from pageIndex·size to the next page or the end, none past the end |
| OrganizationsTable.ToggleMeaning | client/src/app/admin/components/organizations/OrganizationsTable.tsx:38-49 | flips the one organization, leaves the others, and undoes itself |
| OrganizationsTable.Table.constructor | client/src/app/admin/components/organizations/OrganizationsTable.tsx:31-36 | nothing expanded, page 0, 50 rows a page |
| OrganizationsTable.Table.ToggleExpand | client/src/app/admin/components/organizations/OrganizationsTable.tsx:38-49 | the expanded set is toggled at the id; paging is unchanged |
| OrganizationsTable.Table.SetPageIndex | client/src/app/admin/components/organizations/OrganizationsTable.tsx:162 | only the page index changes |
| OrganizationsTable.Table.PreviousPage | client/src/app/admin/components/organizations/OrganizationsTable.tsx:163-167 | the page index moves back, never below 0; nothing else changes |
| OrganizationsTable.Table.NextPage | client/src/app/admin/components/organizations/OrganizationsTable.tsx:168-177 | the page index moves on, never past the last page; nothing else changes |
| GrowthChart.DistinctMeaning | client/src/app/admin/components/shared/GrowthChart.tsx:26-31 | the map's keys are distinct and are exactly the items' days |
| GrowthChart.DailyCounts | client/src/app/admin/components/shared/GrowthChart.tsx:26-31 | the loop yields the days in first-appearance order, each with its number of items |
| GrowthChart.SortPoints | client/src/app/admin/components/shared/GrowthChart.tsx:40 | the points ordered by date, a rearrangement of the input |
| GrowthChart.CountsSum | client/src/app/admin/components/shared/GrowthChart.tsx:26-39 | the per-day counts add up to the number of items |
| GrowthChart.PointsMeaning | client/src/app/admin/components/shared/GrowthChart.tsx:26-39 | one point per distinct day, each day present, each count that day's positive number of items, summing to the item count |
| GrowthChart.ComputeChartData | client/src/app/admin/components/shared/GrowthChart.tsx:22-48 | the memo body gives the specified chart |
| GrowthChart.ChartMeaning | client/src/app/admin/components/shared/GrowthChart.tsx:22-48 | empty exactly without items; otherwise one series named by the lower-cased title, ordered by date, of the per-day points |

## Left out

- Route registration, CORS, logging, authentication, the queue adapter and the shutdown logic: framework plumbing with no logic to state.
- Query execution, `processResults` and `enrichWithTraits`: the queries' results are modelled only as their meaning over event rows, not as the text the database parses.
- SQL escaping, `patternToRegex`, `getTimeStatement`, `validateFilters`/`filterParamSchema` and the host's `new RegExp` check: these enter as uninterpreted parameters. `filterParamSchema.parse` is taken to return its argument.
- `isValidDomain`, `normalizeDomain` and the database insert of the site: these enter as parameters. The site-limit constants also enter as parameters, because their values are configuration.
- Floating point. The lat/lon ±0.001 band, the `toFloat64` comparison and `Number(…)` are host renderings. The `toFixed(1)` percentages are computed exactly in tenths, rounded half up, so a binary rounding artefact of the source is not reproduced.
- SubscriptionTiers.SortRowsMeaning: the plan-name column is compared through a given rank that stands for `localeCompare`, not by the locale's collation.
- Dates and clocks. Luxon parsing and formatting enter as parameters: day numbers and milliseconds for the CSV worker, `dayOf` and `millisOf` for the growth chart. `Date.now()` is a `now` parameter, read once per operation.
- `randomBytes(6)`: the six bytes are a parameter. Only the id's length, alphabet and decoding are stated.
- The CSV stream itself: stream creation, the inactivity timer, `stream.destroy`, file deletion and storage access. The stream is the sequence of its parsed rows. A stream error or timeout would end in the generic failure, and that path is not modelled.
- `ImportQuotaTracker`: only its decision for a date, given the dates it has let through, and its summary after the loop are modelled.
- JavaScript values a typed model cannot hold. These include a non-boolean `public`, `saltUserIds` or `blockBots` in the site body, `NaN` limits and pages, and a plan name that is `null`. An empty plan name stands for a missing one.
- The tooltip text shown when over the site limit, and other presentational markup: not logic.
- `Object.entries` order of the field mappings: the mappings are a sequence in the order written in the source.
- The table's own sorting of organization rows (the `getSortedRowModel` column sort): it belongs to the table library. Paging is modelled over the rows in whatever order it returns them.

- SQL layout. The blanks and line breaks of the source's multi-line template literals are written as single spaces, so the generated text differs from the source's only in white space.
- ListRows and PageOfSorted (in `Sessions`): a negative LIMIT or OFFSET (a negative `limit`, or a `page` below 1) gives no result in the model. The source passes the numbers to ClickHouse, whose answer to them is not modelled.
- FunnelAnswer (in `FunnelStepSessions`): likewise gives no rows for a negative LIMIT or OFFSET, which the source passes to ClickHouse.
- LastTouchColumns (in `Sessions`): the model takes every last-touch column from one latest event. When several events share the latest timestamp, ClickHouse evaluates each `argMax` on its own and may take columns from different tied events; the lemma does not describe that case.
- FirstTouchColumns (in `Sessions`): likewise, every first-touch column comes from one earliest event, while ClickHouse may take each `argMin` from a different event tied for the earliest timestamp.
- FunnelFirstTouch and FunnelLastTouch (in `FunnelStepSessions`): the same one-event reading of `argMin` and `argMax` under timestamp ties.
- ListRowsProperties, SessionsListProperties and SortedLatestFirst (in `Sessions`): the model orders rows by session end before the LEFT JOIN and the outer WHERE and paging. It assumes the `ORDER BY session_end DESC` inside the CTE survives them, which SQL does not promise.
- FunnelPageProperties, FunnelRowsMeaning, TargetPageMeaning and FunnelAnswerRows (in `FunnelStepSessions`): the same assumption that the CTE's `ORDER BY session_end DESC` survives the outer WHERE and paging.
- ChartMeaning (in `GrowthChart`): the series id lower-cases the chart title in ASCII only. The one title passed in the dashboard, "Organizations", is ASCII, so the id is the one JavaScript computes.
- GetTracker and TrackerStable (in `ImportQuota`): a look-up is one atomic step, with the `await ImportQuotaTracker.create(…)` inside it. Two look-ups for one organization can overlap on an empty or stale cache. Both then miss, each creates and returns its own tracker, and the cache keeps the one written last. The model does not capture this interleaving: stability is promised only for look-ups that do not overlap.

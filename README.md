# Factory cockpit: a verified model of the OEE engine and its guards

This project models the deterministic core of a small factory "cockpit" web
application in Dafny and proves what that core promises. The app is a Next.js
demo that records shift headers and production events, derives OEE
(availability × performance × quality) and raises findings from threshold
rules. It also ranks loss categories, reads a JSON array out of a language
model's reply, lets a planner pick evidence events for an action plan, and
guards every page with a cookie session.

One Dafny module per source file:

- `EngineeringDemo` (lib/engineering-demo.ts): the record types, the demo shift
  and events, `deriveMetrics` (downtime sum, runtime floor of one minute, the
  three ratios and OEE) and `runDeterministicFindings` (f1 repeated machine
  downtime, f2 changeover minutes ≥ 15, f3 OEE < 0.65).
- `Metrics` (lib/metrics.ts): the older fixed shift summary and the unguarded
  OEE calculation. Its divisions follow JavaScript, so a zero divisor gives
  an infinity or NaN (`Js.Divide`, `Js.Multiply`).
- `EngineeringRules` (lib/engineering-rules.ts): the older single
  loss-pattern rule.
- `IngestClient` (app/ingest/ingest-client.tsx): the category lists,
  `validateEvent`, the type-change normaliser, the shift-id guard of
  `submitEvent` and the JSON body the form posts.
- `IngestShiftRoute` (app/api/ingest/shift/route.ts): the session check, the
  `Number(...)` coercions, the ordered field checks and the row the handler
  builds for its insert.
- `IngestEventsRoute` (app/api/ingest/events/route.ts): the type-gated insert
  row.
- `AiClient` (app/ai/ai-client.tsx): `tryParseJSONArray` (fence stripping,
  trimming, bracket fallback), `mapIngestToEngineeringEvent` and the choice of
  events and metrics for a review.
- `HomeClient` (app/home-client.tsx): `clamp01`, the scrap rate and the
  loss-by-category table. The table is computed by a loop over the events
  that fills a first-insertion-ordered map, then a stable sort by minutes and
  a cut to five.
- `ActionPlan` (app/action-plan/page.tsx): the evidence toggle and a class
  holding the form state that `createActionPlan` guards, posts and resets.
- `Middleware` (middleware.ts): the public-path test and the redirect
  decision.
- `LoginRoute` (app/api/auth/login/route.ts): the demo credential check and
  the session cookie.
- `MockData` (lib/mock-data.ts): the organisation and line fixtures and their
  lookups.

Shared helpers:

- `Wrappers`: `Option`.
- `Seqs`: `filter`, `find`, `startsWith`, `indexOf` and `lastIndexOf`.
- `Js`: JavaScript numbers with NaN and the infinities, JSON values, property
  reads, `Number()` coercion, truthiness and `trim`.

Conventions:

- Engine ratios are Dafny `real`, which is exact rational arithmetic. Threshold
  comparisons such as `oee < 0.65` are therefore exact.
- Event types and categories are case-sensitive strings, as in the source.

## Model

| member | source | states |
|---|---|---|
| EngineeringDemo.DowntimeMinutes | lib/engineering-demo.ts:86-88 | downtime is the sum of `durationMin ?? 0` over the events whose type is exactly "Downtime" or "Changeover" (reference `MinutesWhere`), and is non-negative when durations are |
| EngineeringDemo.SumOfFilter | lib/engineering-demo.ts:86-88 | filtering then reducing equals summing the matching events' minutes event by event |
| EngineeringDemo.MinutesWhereNonNegative | lib/engineering-demo.ts:86-88 | with non-negative durations a minutes total is non-negative |
| EngineeringDemo.MinutesWhereAppend | lib/engineering-demo.ts:86-88 | the minutes of two event lists together are the sum of their minutes |
| EngineeringDemo.ScrapAddsNoDowntime | lib/engineering-demo.ts:86-88 | appending an event that is neither Downtime nor Changeover (e.g. Scrap) leaves the downtime unchanged |
| EngineeringDemo.RuntimeMinutes | lib/engineering-demo.ts:90 | runtime is at least one minute and is the planned minus downtime whenever that is at least one |
| EngineeringDemo.Ratio | lib/engineering-demo.ts:92-98 | each ratio is an exact quotient: quotient times divisor gives the dividend |
| EngineeringDemo.DeriveMetrics | lib/engineering-demo.ts:85-107 | availability × planned = runtime, performance × runtime × 60 = output × ideal cycle, quality × max(output, 1) = output − scrap, OEE is the product of the three |
| EngineeringDemo.DerivedMetricsHold | lib/engineering-demo.ts:85-107 | the metrics `deriveMetrics` returns satisfy its five equations together (`MetricsOf`) |
| EngineeringDemo.AvailabilityInUnitInterval | lib/engineering-demo.ts:90-92 | with planned ≥ 1 and non-negative durations availability lies in (0, 1] |
| EngineeringDemo.UnitFraction | lib/engineering-demo.ts:92-98 | q × d = n with 0 ≤ n ≤ d puts q in [0, 1], and above 0 when n is |
| EngineeringDemo.QualityInUnitInterval | lib/engineering-demo.ts:98 | with 0 ≤ scrap ≤ output, quality lies in [0, 1] |
| EngineeringDemo.PerformanceMayExceedOne | lib/engineering-demo.ts:96 | performance is not clamped: a 10-minute shift of 100 parts at 60 s has performance above 1 |
| EngineeringDemo.DemoDowntime | lib/engineering-demo.ts:51-88 | the demo events carry 39 minutes of downtime |
| EngineeringDemo.DemoShiftRatios | lib/engineering-demo.ts:90-105 | with 39 minutes of downtime the demo shift runs 441 minutes, availability is 441/480, quality 402/420 and OEE is below 0.65 |
| EngineeringDemo.DemoMetrics | lib/engineering-demo.ts:44-107 | the demo shift and events give downtime 39, availability 441/480, quality 402/420, OEE below 0.65 |
| EngineeringDemo.RepeatedDowntimeRule | lib/engineering-demo.ts:112-120 | f1 (High) is emitted iff at least two events are Downtime in category Machine, citing their ids in input order |
| EngineeringDemo.ChangeoverRule | lib/engineering-demo.ts:122-131 | f2 (Medium) is emitted iff the changeover minutes reach 15, citing the changeover ids |
| EngineeringDemo.LowOeeRule | lib/engineering-demo.ts:133-140 | f3 (High) is emitted iff OEE < 0.65, citing every input event |
| EngineeringDemo.RunDeterministicFindings | lib/engineering-demo.ts:109-143 | at most three findings; each of f1, f2, f3 is present exactly when its threshold is met |
| EngineeringDemo.RulesPresent | lib/engineering-demo.ts:110-142 | concatenating the three optional findings reports a rule's finding exactly when that rule fired |
| EngineeringDemo.FindingsInRuleOrder | lib/engineering-demo.ts:110-142 | findings come in rule order f1, f2, f3 (so ids are distinct) and each is its rule's finding |
| EngineeringDemo.RulesInOrder | lib/engineering-demo.ts:110-142 | entries of the concatenation have strictly increasing rule rank and equal their rule's finding |
| EngineeringDemo.IdsOfFilter | lib/engineering-demo.ts:118-129 | an id cited by a filtered rule is the id of an input event |
| EngineeringDemo.IdsOfFilterExactly | lib/engineering-demo.ts:118-129 | the ids of a filtered list are exactly the ids of the input events passing the filter |
| EngineeringDemo.EvidenceComesFromInput | lib/engineering-demo.ts:118-138 | every evidence id of every finding is the id of an input event |
| EngineeringDemo.RepeatedDowntimeEvidence | lib/engineering-demo.ts:112-119 | f1 cites at least two ids, each of a Downtime/Machine input event |
| EngineeringDemo.ChangeoverBoundary | lib/engineering-demo.ts:124 | a single 15-minute changeover triggers f2, a 14-minute one does not |
| EngineeringDemo.LowOeeWithoutEvidence | lib/engineering-demo.ts:133-140 | with no events the demo shift still yields f3, citing no events |
| EngineeringDemo.DemoFilters | lib/engineering-demo.ts:112-122 | on the demo events the machine-downtime filter keeps e1 and e3 and the changeover filter keeps e2 |
| EngineeringDemo.DemoRules | lib/engineering-demo.ts:112-131 | on the demo events f1 cites e1, e3 and f2 cites e2 |
| EngineeringDemo.DemoLowOee | lib/engineering-demo.ts:133-140 | on the demo events f3, when it fires, cites e1..e4 |
| EngineeringDemo.Concat3 | lib/engineering-demo.ts:110-142 | when each rule emits one finding the result is those three in order |
| EngineeringDemo.DemoFindingsBelowThreshold | lib/engineering-demo.ts:109-143 | on the demo events with OEE below 0.65 the findings are exactly f1 [e1, e3], f2 [e2], f3 [e1..e4] |
| EngineeringDemo.DemoFindings | lib/engineering-demo.ts:44-143 | the demo review raises all three findings with that evidence |
| Metrics.DeriveShiftMetrics | lib/metrics.ts:3-17 | downtime is the Downtime/Changeover minutes of the events; every other field is the constant 480, 420, 18, 12 |
| Metrics.CalculateOEE | lib/metrics.ts:19-30 | each ratio is the exact quotient when its divisor is non-zero and not finite when it is zero (planned = 0, planned = downtime, output = 0); OEE is finite iff all three are, and is then their product |
| Metrics.AgreesWithEngine | lib/metrics.ts:3-30 | while at least one minute runs, the unguarded ratios equal the engine's on the same events |
| Metrics.FullDowntimeDiverges | lib/metrics.ts:20-28 | with downtime = 480 performance is +Infinity and OEE NaN, where the engine's runtime floor gives performance 84 |
| Metrics.OverlongDowntimeNegative | lib/metrics.ts:20 | downtime beyond the planned time makes availability negative |
| Metrics.NoOutputQuality | lib/metrics.ts:22-28 | with no output and no scrap, quality and OEE are NaN |
| EngineeringRules.DetectLossPatterns | lib/engineering-rules.ts:3-20 | at most one finding, present iff at least two Downtime/Machine events; it is f1, High, and cites exactly the ids of those events |
| EngineeringRules.SameAsEngineRule | lib/engineering-rules.ts:3-20 | the rule fires exactly when the engine's f1 does, with the same evidence; only the description differs |
| EngineeringRules.DemoLossPatterns | lib/engineering-rules.ts:3-20 | on the demo events the finding cites e1 and e3 |
| IngestClient.CategoryByType | app/ingest/ingest-client.tsx:48-54 | every type offers at least five categories, "other" last |
| IngestClient.ValidateEvent | app/ingest/ingest-client.tsx:239-262 | the result is null iff no check fails (reference `Failures`), otherwise it is the first failing check's message |
| IngestClient.ValidIffAcceptable | app/ingest/ingest-client.tsx:239-262 | validation passes exactly on events with line, timestamp, category, a 1..480 whole-minute duration exactly for downtime/changeover and a 1..100000 count exactly for scrap/quality |
| IngestClient.CommonFieldsFirst | app/ingest/ingest-client.tsx:240-242 | line, then timestamp, then category are reported before any type-specific check |
| IngestClient.DurationBeforeQty | app/ingest/ingest-client.tsx:247-258 | a downtime event with a count and no duration reports the duration error |
| IngestClient.Boundaries | app/ingest/ingest-client.tsx:249-256 | 480 minutes accepted, 481 rejected; 100000 parts accepted, 100001 rejected |
| IngestClient.NonIntegralDurationRejected | app/ingest/ingest-client.tsx:248 | NaN and 2.5 minutes are not positive integers |
| IngestClient.OnTypeChange | app/ingest/ingest-client.tsx:114-127 | category becomes the type's first; duration kept (default 10) only for downtime/changeover, count kept (default 1) only for scrap/quality; no other field changes |
| IngestClient.OnTypeChangeIdempotent | app/ingest/ingest-client.tsx:114-127 | normalising twice equals normalising once |
| IngestClient.NormalisedHasNoStrayFields | app/ingest/ingest-client.tsx:114-127 | after normalising, the "should be empty" and "category required" errors cannot occur |
| IngestClient.DefaultsAreAcceptable | app/ingest/ingest-client.tsx:122-124 | a form with line and timestamp and no numbers entered is acceptable after a type change |
| IngestClient.ClientEventBody | app/ingest/ingest-client.tsx:286 | the posted body holds "type" and "shiftId", and "durationMin"/"qty" exactly when the form has them |
| IngestClient.SubmitEvent | app/ingest/ingest-client.tsx:269-287 | a request is sent iff a non-empty shift id is loaded and the form is acceptable; without a shift id the shift message is shown; the body is the form plus the shift id |
| IngestClient.SubmitReportsValidation | app/ingest/ingest-client.tsx:275-280 | an invalid form is refused with its validation message |
| IngestShiftRoute.ShiftName | app/api/ingest/shift/route.ts:43 | a falsy shift name becomes "A", a string one is kept |
| IngestShiftRoute.PostShift | app/api/ingest/shift/route.ts:32-63 | 401 iff no session; a null body fails; otherwise 400 with the first failing check (reference `ShiftFailures`) or, iff none fails, `Insert` of the row built for the database, with org "demo-org", planned ≥ 1, output and scrap ≥ 0 whole numbers and the fields as coerced |
| IngestShiftRoute.FractionalCycleOnly | app/api/ingest/shift/route.ts:46-47 | a 2.5 s ideal cycle is accepted, a 2.5 minute planned time is not |
| IngestShiftRoute.ScrapMayExceedOutput | app/api/ingest/shift/route.ts:48-49 | scrap 5 with output 0 is inserted |
| IngestShiftRoute.MissingPlannedTimeRejected | app/api/ingest/shift/route.ts:39-46 | a missing (NaN) or null (0) planned time is rejected |
| IngestEventsRoute.GatedColumn | app/api/ingest/events/route.ts:22-23 | a gated column is non-null only when kept and then holds the body's value |
| IngestEventsRoute.RowFrom | app/api/ingest/events/route.ts:13-25 | shift id and type copied unvalidated, reason or null; the duration is non-null only for downtime/changeover and the quantity only for scrap/quality, each holding the body's value |
| IngestEventsRoute.BuildEventRow | app/api/ingest/events/route.ts:13-25 | the route as written: duration from `durationMinutes`, quantity from `quantity` |
| IngestEventsRoute.NeverBothMeasures | app/api/ingest/events/route.ts:14-23 | a row never has both a duration and a quantity |
| IngestEventsRoute.OtherTypesStoredBare | app/api/ingest/events/route.ts:13-24 | any other type string, "note" included, is stored with neither measure |
| IngestEventsRoute.ClientBodyKeys | app/ingest/ingest-client.tsx:286 | the form's body has no `durationMinutes`, `quantity` or `reason` key |
| IngestEventsRoute.ClientMeasuresDropped | app/api/ingest/events/route.ts:22-24 | every event the form posts is stored with null duration, quantity and reason |
| IngestEventsRoute.BuildEventRowFromFormKeys | app/api/ingest/events/route.ts:13-25 | the route reading the keys the form sends |
| IngestEventsRoute.FormMeasuresKept | app/api/ingest/events/route.ts:22-23 | with the form's keys an accepted event keeps its duration or count |
| AiClient.ReplaceJsonFences | app/ai/ai-client.tsx:45 | the replacement never lengthens the text |
| AiClient.RemoveFences | app/ai/ai-client.tsx:46 | fence removal never lengthens the text |
| AiClient.RemovedStartsWithTwoBackticks | app/ai/ai-client.tsx:46 | two backticks at the front after removal were two at the front before |
| AiClient.RemoveFencesLeavesNone | app/ai/ai-client.tsx:46 | no "```" is left after removing them all |
| AiClient.SliceHasNoFence | app/ai/ai-client.tsx:47 | a stretch of fence-free text is fence-free |
| AiClient.TrimStartKeepsNoFence | app/ai/ai-client.tsx:47 | trimming the front keeps text fence-free |
| AiClient.TrimEndKeepsNoFence | app/ai/ai-client.tsx:47 | trimming the end keeps text fence-free |
| AiClient.CleanHasNoFence | app/ai/ai-client.tsx:44-47 | the cleaned text never contains "```" |
| AiClient.ReplaceKeepsPlainPrefix | app/ai/ai-client.tsx:45 | text without backticks passes through the replacement unchanged |
| AiClient.RemoveKeepsPlainPrefix | app/ai/ai-client.tsx:46 | text without backticks passes through fence removal unchanged |
| AiClient.UpperCaseJsonFence | app/ai/ai-client.tsx:45 | "```JSON" matches the case-insensitive pattern |
| AiClient.ReplaceKeepsBareFence | app/ai/ai-client.tsx:45 | a bare "```" is kept by the replacement |
| AiClient.ReplaceExample | app/ai/ai-client.tsx:45 | "```JSON\n[]\n```" becomes "```\n[]\n```" |
| AiClient.RemoveExample | app/ai/ai-client.tsx:46 | "```\n[]\n```" becomes "\n[]\n" |
| AiClient.TrimStartExample | app/ai/ai-client.tsx:47 | a leading newline is trimmed |
| AiClient.TrimEndExample | app/ai/ai-client.tsx:47 | a trailing newline is trimmed |
| AiClient.TrimExample | app/ai/ai-client.tsx:47 | "\n[]\n" trims to "[]" |
| AiClient.CleanFencedReply | app/ai/ai-client.tsx:44-47 | a fenced reply "```JSON\n[]\n```" cleans to "[]" |
| AiClient.BracketSlice | app/ai/ai-client.tsx:54-57 | a slice exists iff there is a "[" and a "]" after it; it runs from the first "[" to the last "]" inclusive |
| AiClient.TryParseJsonArray | app/ai/ai-client.tsx:43-65 | a whole-text array wins; otherwise the bracket slice's array, or null |
| AiClient.NoBracketNoFallback | app/ai/ai-client.tsx:54-64 | without "[" only a whole-text array is returned |
| AiClient.ResultIsParsedArray | app/ai/ai-client.tsx:49-64 | any result is an array a parse of the cleaned text or of its bracket slice produced |
| AiClient.MapIngestToEngineeringEvent | app/ai/ai-client.tsx:67-83 | id, timestamp, type, category, duration and comment copied verbatim, type not normalised |
| AiClient.MapAll | app/ai/ai-client.tsx:97 | the mapped list has one mapped event per ingested event, in order |
| AiClient.ActiveEvents | app/ai/ai-client.tsx:95-100 | the mapped ingested events iff they are wanted and non-empty, otherwise the demo events |
| AiClient.ReviewMetrics | app/ai/ai-client.tsx:102 | whatever the events, the review's metrics satisfy all five `deriveMetrics` equations (`MetricsOf`) against the demo shift: downtime from the active events, availability × 480 = runtime, performance × runtime × 60 = 420 × 12, quality × 420 = 402, OEE the product |
| AiClient.ReviewFindings | app/ai/ai-client.tsx:103 | over the active events, f1 is raised iff at least two are Downtime/Machine, f2 iff their changeover minutes reach 15, and f3 iff their OEE against the demo shift is below 0.65 |
| AiClient.EmptyIngestReviewsDemo | app/ai/ai-client.tsx:95-103 | with nothing ingested the review is the demo review |
| AiClient.IngestedTypesNeverMatch | app/ai/ai-client.tsx:74-103 | lower-case ingest types count no downtime: availability is 1 and f1, f2 never fire |
| AiClient.EngineType | lib/engineering-demo.ts:8 | "downtime", "changeover" and "scrap" become the engine's "Downtime", "Changeover" and "Scrap"; any other type, "quality" and "note" included, has no engine spelling and is kept |
| AiClient.MapIngestWithEngineType | app/ai/ai-client.tsx:67-83 | the mapping with the engine's type spelling, otherwise identical |
| AiClient.MapAllWithEngineType | app/ai/ai-client.tsx:97 | the ingested list mapped element-wise with the engine's spelling |
| AiClient.MappedMinutesWhere | app/ai/ai-client.tsx:97-102 | when an engine test agrees with an ingest test through the respelling, the engine's minutes equal the ingested minutes (reference `IngestedMinutesWhere`) |
| AiClient.MappedCount | app/ai/ai-client.tsx:97-103 | likewise the engine's filter keeps as many events as pass the ingest test (reference `IngestedCount`) |
| AiClient.EngineTypeMatches | lib/engineering-demo.ts:8 | on the form's five types the respelling gives "Downtime" or "Changeover" exactly for "downtime" or "changeover" |
| AiClient.RespellingAgrees | app/ai/ai-client.tsx:97-103 | through the respelling the engine's changeover and machine-downtime tests agree with the ingest ones event by event |
| AiClient.EngineTypeCountsDowntime | app/ai/ai-client.tsx:97-102 | with the engine's spelling the engine counts exactly the ingested downtime and changeover minutes |
| AiClient.EngineTypeRaisesChangeover | app/ai/ai-client.tsx:97-103 | with the engine's spelling f2 fires iff the ingested changeovers reach 15 minutes |
| AiClient.EngineTypeRaisesRepeatedDowntime | app/ai/ai-client.tsx:97-103 | with the engine's spelling f1 fires iff at least two ingested downtimes have category "Machine" |
| HomeClient.Clamp01 | app/home-client.tsx:16-19 | the result is in [0, 1], the identity on [0, 1], 0 for non-finite values, clipped outside |
| HomeClient.Clamp01Idempotent | app/home-client.tsx:16-19 | clamping a clamped value changes nothing |
| HomeClient.ScrapRate | app/home-client.tsx:26 | scrap over output when output > 0, else 0 |
| HomeClient.ScrapRateIsFraction | app/home-client.tsx:26 | with 0 ≤ scrap ≤ output the rate is in [0, 1]; from one part on it is one minus the engine's quality |
| HomeClient.CategoriesDistinctAndComplete | app/home-client.tsx:29-34 | the map's keys are distinct and are exactly the events' categories |
| HomeClient.AbsentCategoryHasNoMinutes | app/home-client.tsx:29-34 | a category no event has has no minutes |
| HomeClient.CategoryMinutesAsFilter | app/home-client.tsx:30-34 | a category's minutes are the sum of `durationMin ?? 0` over its events |
| HomeClient.Entries | app/home-client.tsx:36 | one entry per category, in first-appearance order, with its minutes |
| HomeClient.InsertByMinutes | app/home-client.tsx:37 | insertion adds exactly one row to the table |
| HomeClient.InsertSorted | app/home-client.tsx:37 | insertion keeps a table sorted by minutes, largest first |
| HomeClient.SortByMinutesDesc | app/home-client.tsx:37 | the sort is sorted, largest first, and a permutation of its input |
| HomeClient.InsertKeepsTies | app/home-client.tsx:37 | insertion puts the row ahead of the rows with equal minutes and changes them in no other way |
| HomeClient.SortIsStable | app/home-client.tsx:37 | rows with equal minutes keep their first-appearance order |
| HomeClient.SortedUnchanged | app/home-client.tsx:37 | an already sorted table is left as it is |
| HomeClient.Take | app/home-client.tsx:38 | at most n rows, a prefix of the input |
| HomeClient.TopLossesAreTheLargest | app/home-client.tsx:36-38 | at most five rows, sorted, none smaller than a row left out |
| HomeClient.InsertDistinct | app/home-client.tsx:37 | inserting a new category keeps categories distinct |
| HomeClient.SortKeepsDistinct | app/home-client.tsx:37 | sorting keeps categories distinct |
| HomeClient.TopLossesAreCategoryTotals | app/home-client.tsx:28-39 | each row shown is a distinct category of some event with its total minutes |
| HomeClient.DemoCategories | app/home-client.tsx:29-34 | the demo categories are Machine, Method, Material, in that order |
| HomeClient.DemoCategoryMinutes | app/home-client.tsx:30-34 | Machine has 21 and Method 18 demo minutes |
| HomeClient.DemoEntries | app/home-client.tsx:28-36 | the unsorted demo table |
| HomeClient.OrderedEntriesShown | app/home-client.tsx:36-38 | up to five categories already in order are shown as they are |
| HomeClient.DemoLossTable | app/home-client.tsx:28-39 | the cockpit shows Machine 21, Method 18, Material 0 |
| HomeClient.LossByCategory | app/home-client.tsx:28-39 | the loop over the events with its map, then sort and slice, returns the reference top-five table |
| ActionPlan.ToggleFlips | app/action-plan/page.tsx:73-79 | toggling flips the id's membership and no other id's |
| ActionPlan.ToggleKeepsOthers | app/action-plan/page.tsx:75-77 | apart from the id, the selection is the same list in the same order |
| ActionPlan.ToggleRemovesOrAppends | app/action-plan/page.tsx:75-77 | a selected id is removed (the list shrinks), an unselected one appended at the end |
| ActionPlan.ToggleKeepsNoDuplicates | app/action-plan/page.tsx:75-77 | a duplicate-free selection stays duplicate-free |
| ActionPlan.ToggleTwice | app/action-plan/page.tsx:75-77 | toggling an unselected id twice restores the selection |
| ActionPlan.ActionPlanForm.constructor | app/action-plan/page.tsx:36-44 | a new form has no selected events, empty fields and the drawer closed |
| ActionPlan.ActionPlanForm.Request | app/action-plan/page.tsx:90-104 | the body has status "Open", org "ORG_1", line "LINE_1", the four fields and the selection as evidence |
| ActionPlan.ActionPlanForm.ToggleEvent | app/action-plan/page.tsx:73-79 | the selection becomes its toggle; nothing else changes |
| ActionPlan.ActionPlanForm.CreateActionPlan | app/action-plan/page.tsx:84-121 | a request is sent iff all four fields are filled; on success everything resets, otherwise nothing changes and the matching alert is shown |
| ActionPlan.CreateTwice | app/action-plan/page.tsx:84-121 | after a successful creation a second click sends nothing |
| Middleware.Decide | middleware.ts:10-31 | a redirect always goes to "/login" with `next` set to the original path |
| Middleware.IsPublicIff | middleware.ts:4-8 | public iff the path starts with "/login", "/_next" or "/favicon.ico" |
| Middleware.PrefixExamples | middleware.ts:4-28 | "/loginx" passes without a session, "/" is redirected |
| Middleware.DotSuffixIffDot | middleware.ts:17 | on a path without line terminators the static-file pattern matches iff the path contains "." |
| Middleware.PublicPathsPass | middleware.ts:14 | public paths pass whatever the cookie |
| Middleware.DottedPathsPass | middleware.ts:17 | a dotted path passes without a session |
| Middleware.RedirectIff | middleware.ts:10-31 | a redirect happens exactly for a non-public, dot-free path without a session |
| Middleware.SessionNeverRedirected | middleware.ts:23-30 | with a non-empty session cookie nothing is redirected |
| Middleware.NoRedirectLoop | middleware.ts:4-25 | the redirect target is itself never redirected |
| LoginRoute.OrDefault | app/api/auth/login/route.ts:9-10 | an unset or empty variable falls back to the default |
| LoginRoute.Login | app/api/auth/login/route.ts:5-28 | logged in iff email and password equal the configured ones, otherwise 401 "Invalid credentials"; the cookie is session=demo-session, httpOnly, sameSite lax, path "/", maxAge 28800, secure iff NODE_ENV is "production" |
| LoginRoute.DefaultCredentials | app/api/auth/login/route.ts:9-14 | with the variables unset, exactly demo@factory.com / demo1234 log in |
| LoginRoute.NumericPasswordRefused | app/api/auth/login/route.ts:12 | the comparison is strict: a numeric password never matches |
| LoginRoute.LoginCookieIsASession | app/api/auth/login/route.ts:19 | the cookie set on login passes the middleware on every path |
| MockData.GetOrganizations | lib/mock-data.ts:60-62 | returns the organisations fixture |
| MockData.GetOrganizationById | lib/mock-data.ts:64-66 | finds an organisation with that id, or none iff no organisation has it |
| MockData.GetLinesForOrg | lib/mock-data.ts:68-70 | exactly the lines of that organisation |
| MockData.GetLineById | lib/mock-data.ts:72-74 | finds a line with that id, or none iff no line has it |
| MockData.LineLookupRoundTrip | lib/mock-data.ts:72-74 | looking a line up by its own id finds it |
| MockData.LinesReferenceOrganizations | lib/mock-data.ts:32-70 | each line's organisation exists and lists the line |
| MockData.LinesPerOrg | lib/mock-data.ts:68-70 | "org-1" owns both lines in order, any other id none |
| MockData.UnknownIdsFindNothing | lib/mock-data.ts:64-74 | "line-3" and "org-2" find nothing |
| Js.Divide | lib/metrics.ts:20-22 | a JavaScript division: the exact quotient for a non-zero divisor, ±Infinity or NaN by the dividend's sign otherwise |
| Js.Multiply | lib/metrics.ts:28 | a JavaScript product: finite iff both factors are, NaN for NaN or infinity × 0, otherwise a signed infinity |
| Js.Member | app/api/ingest/shift/route.ts:38-43 | a property read is defined iff the value is an object holding the key |
| Js.ToNumber | app/api/ingest/shift/route.ts:39-42 | `Number()`: undefined NaN, null 0, booleans 1/0, numbers themselves, strings by the numeric-string parser, arrays through their string form, objects NaN |
| Js.TrimStart | app/ai/ai-client.tsx:47 | removes exactly the leading whitespace |
| Js.TrimEnd | app/ai/ai-client.tsx:47 | removes exactly the trailing whitespace |
| Seqs.Filter | lib/engineering-demo.ts:87 | the kept elements are exactly those passing the test, no more than the input |
| Seqs.FilterAppend | lib/engineering-demo.ts:112-131 | filtering distributes over concatenation, keeping order |
| Seqs.Find | lib/mock-data.ts:64-74 | the first element passing the test, none iff none passes |
| Seqs.IndexOf | app/ai/ai-client.tsx:54 | the first position of the character, −1 iff absent |
| Seqs.LastIndexOf | app/ai/ai-client.tsx:55 | the last position of the character, −1 iff absent |

## Left out

- Floating point: ratios and sums are exact reals, so IEEE-754 rounding is not modelled. `oee < 0.65` and similar comparisons are exact.
- EngineeringDemo.DeriveMetrics: requires a non-zero planned time. The source divides by it unguarded; every caller passes the demo shift's 480 minutes.
- `pct` and its `Math.round` formatting are display only.
- `JSON.parse` and the parsing of numeric strings by `Number()` are parameters (`parse`, `parseNumeric`). `String()` of a non-string shift name is the parameter `toText`.
- A request body that is not valid JSON makes `req.json()` throw; the routes are modelled from the parsed body on.
- Clocks (`nowISO`, `nowLocalISO`, `created_at`), `fetch` sequencing, React state and rendering, `alert` and navigation are not modelled. For `createActionPlan`, the POST's success is the parameter `serverOk`.
- The database: every Supabase query and insert, the GET handler of the shift route, and the ordering of "latest shift". The events route is modelled up to the row it hands to the database.
- IngestShiftRoute.PostShift: its `Insert(row)` answer means "every check passed, and this is the row the handler builds". The handler never reaches the insert. app/api/ingest/shift/route.ts:51 calls `supabaseAdmin()`, but lib/supabase/admin.ts:11 exports a client object, not a function. So the call throws a TypeError and the answer is a 500 with no row stored. The GET handler at route.ts:20 makes the same call. The model does not capture this failure.
- app/api/ingest/events/route.ts exports only `POST`, so the AI page's `GET /api/ingest/events` (app/ai/ai-client.tsx:115) gets an error answer. `ingestedEvents` stays empty, and the page reviews the demo events (`AiClient.EmptyIngestReviewsDemo`). The ingested-event path that `AiClient.ActiveEvents` models is reached only once such a handler exists.
- The LLM proxy routes and the prompt text of the AI page are calls to an external model.
- The `config.matcher` routing of middleware.ts is done by the framework before the middleware runs.
- AiClient.MapIngestToEngineeringEvent: the result carries only the fields the engine reads. The copied lineId, qty, station and operator are not carried because the engine ignores them.
- lib/mock-data.ts declares `export const organizations` twice (lines 24 and 51). In one module that is a redeclaration error: TypeScript rejects it, and JavaScript throws a SyntaxError before the module runs. So the module does not load as written. `MockData` models the fixture as evidently intended, with one organisation list; it takes the later, described declaration.
- HomeClient.Clamp01: app/ai/ai-client.tsx:38-41 declares the same function; it is modelled once.
- IngestShiftRoute.PostShift: a body that is a non-object (number, string, array) is read as having no fields, which is what property reads on those values give for these keys.
- Middleware.DotSuffixIffDot: the "contains a dot" reading holds for paths without line terminators. URL pathnames cannot contain raw line terminators; the exact regular-expression meaning is `MatchesDotSuffix`.
- `tryParseJSONArray`'s `(s || "")` guard on a missing string is not modelled; the argument is always a string.

## Findings

| source | as written | input that shows it | evidently intended | confidence | as-written member | corrected member |
|---|---|---|---|---|---|---|
| app/api/ingest/events/route.ts:22-23 | the route reads `body.durationMinutes` and `body.quantity`, but the form posts `durationMin` and `qty` (app/ingest/ingest-client.tsx:286) | a downtime event of 12 minutes posted by the form | the stored row keeps the 12-minute duration (or the scrap count) | not executed | IngestEventsRoute.ClientMeasuresDropped | IngestEventsRoute.FormMeasuresKept |
| app/ai/ai-client.tsx:74 | ingested lower-case types ("downtime") are copied verbatim into an engine that compares with "Downtime" (lib/engineering-demo.ts:87-112) | any non-empty list of ingested downtime events, once the events route serves them (it has no GET handler) | ingested downtime and changeover minutes count towards downtime, and f2 fires on 15 changeover minutes (`AiClient.EngineTypeRaisesChangeover`); f1 also needs the category "Machine", which the form's categories never are | not executed | AiClient.IngestedTypesNeverMatch | AiClient.EngineTypeCountsDowntime |

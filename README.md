# Website audit analyzers: a verified model

This project models the decision logic of a website-audit backend. The backend
fetches a page, runs a set of analyzers over it, and reports per-analyzer scores,
letter grades, issues and recommendations. An AI support assistant then flattens,
ranks and explains those issues.

The model covers these parts:

- **AI support assistant** (`AiSupport`):
  - flattening the nine analyzers' issue lists, with category tagging and the severity default;
  - severity/description ranking, cut to 20;
  - quick-win detection;
  - the fix-time estimate;
  - the analytics summary;
  - tutorial generation gated on an API key, with the HTTP outcome given as input;
  - the prompt's content;
  - the local knowledge-base lookup.
- **Waterfall analyzer** (`Waterfall`): the simulated resource timeline, its MIME classification, metrics and efficiency score.
- **Multi-location analyzer** (`MultiLocation`): per-location rows, aggregate metrics (fastest, slowest, mean, median, spread, regions) and the consistency score.
- **Device simulation analyzer** (`DeviceSimulation`): per-device thresholds and rows, the responsive and mobile-friendly checks, category metrics, the score and the recommendations.
- **Core Web Vitals analyzer** (`CoreWebVitals`): the FID, INP and LCP estimators, Good / Needs Improvement / Poor classification, the deduction score and the error path.
- **Accessibility analyzer** (`Accessibility`):
  - the button, alt-text, heading, form-label, contrast and keyboard checks over an abstracted page;
  - the WCAG-level heuristic;
  - the analyzer's own score, grade and recommendations.
- **Security analyzer** (`Security`):
  - the TLS scheme rule;
  - the five-header checklist, matched case-insensitively;
  - the mixed-content check;
  - the framework-generator check;
  - issue order, score, grade and recommendations.
- **Shared pieces**:
  - the issue-count score `get_score` (`Base`);
  - the two letter-grade ladders (`Grading`);
  - the URL normaliser and validator, over a simplified `urlsplit` (`Urls`, `Validator`).

Imperative code is modelled as methods with loops and invariants, or as classes whose
methods update the analyzer's `issues` and `recommendations` fields. Each such method
is proved against a specification function. The properties the code promises are
proved about that function. Pure code is modelled as functions and lemmas.
`Prelude` and `Sequences` hold the shared helpers, including a stable insertion sort
with sortedness, permutation and stability lemmas. These helpers model Python's
`sorted`, `str.count`, `str.lower` (ASCII), `str.split` and substring tests.

## Model

| member | source | states |
|---|---|---|
| Base.GetScore | backend/app/analyzers/base.py:34-39 | 100 for a zero maximum or no issues; never negative; for a positive maximum at most 100, 0 once found ≥ max, and otherwise score · max = 100 · (max − found) |
| Base.GetScoreAntitone | backend/app/analyzers/base.py:38 | more issues never give a higher score |
| Grading.SimulationGrade | backend/app/analyzers/waterfall.py:216-226 | A/B/C/D/F exactly at ≥85/70/55/40 (shared by the waterfall, location and device analyzers) |
| Grading.SimulationGradeMonotone | backend/app/analyzers/multi_location.py:162-172 | a higher score never gets a worse grade |
| Grading.StandardGrade | backend/app/analyzers/security.py:143-154 | A/B/C/D/F exactly at ≥90/80/70/60 (shared by Core Web Vitals, accessibility and security) |
| Grading.StandardGradeMonotone | backend/app/analyzers/core_web_vitals.py:181-192 | a higher score never gets a worse grade |
| AiSupport.TagAll | backend/app/analyzers/ai_support.py:176-179 | one issue per entry, in order, with fields kept, category set to the key, and severity "medium" only when the key is absent (a present None is kept) |
| AiSupport.ExtractAllIssues | backend/app/analyzers/ai_support.py:161-181 | the loop over the nine keys builds exactly the specified concatenation of tagged lists |
| AiSupport.AppendTagged | backend/app/analyzers/ai_support.py:176-179 | the inner loop appends exactly the tagged entries of one list |
| AiSupport.ExtractedFields | backend/app/analyzers/ai_support.py:166-179 | every extracted issue has a severity and one of the nine keys as its category |
| AiSupport.ExtractReadsOnlyAnalyzerKeys | backend/app/analyzers/ai_support.py:166-175 | two results that agree on the nine keys extract the same issues |
| AiSupport.UnknownKeyIgnored | backend/app/analyzers/ai_support.py:166-175 | adding or changing any other key changes nothing |
| AiSupport.SeverityRank | backend/app/analyzers/ai_support.py:185-190 | rank 2 exactly for an absent or "medium" severity; ranks are 0..3 or 99 |
| AiSupport.Prioritize | backend/app/analyzers/ai_support.py:183-195 | length min(20, n), sorted by (severity rank, longer description first), a sub-multiset of the input |
| Sequences.SortSpec | backend/app/analyzers/ai_support.py:187-193 | the key sort returns a sorted permutation of its input |
| Sequences.SortStable | backend/app/analyzers/ai_support.py:187-193 | the sort keeps the input order among equal keys |
| AiSupport.PrioritizedOrder | backend/app/analyzers/ai_support.py:187-193 | severity ranks never decrease; within a rank, description lengths never increase |
| AiSupport.PrioritizeStable | backend/app/analyzers/ai_support.py:187-195 | kept issues with equal keys are the first ones of the input with that key, in input order |
| AiSupport.PrioritizeKeepsBest | backend/app/analyzers/ai_support.py:195 | nothing cut off ranks before anything kept |
| AiSupport.QuickWinCandidates | backend/app/analyzers/ai_support.py:202-210 | one candidate per issue whose lower-cased title holds a keyword |
| AiSupport.QuickWinCandidatesSpec | backend/app/analyzers/ai_support.py:199-210 | candidate k copies the title, category and description of the k-th matching issue, at 5 minutes |
| AiSupport.IdentifyQuickWins | backend/app/analyzers/ai_support.py:197-212 | the loop returns the first five candidates |
| AiSupport.QuickWinsShape | backend/app/analyzers/ai_support.py:197-212 | at most five wins, each 5 minutes, each titled with a keyword |
| AiSupport.MissingTitleNeverQuickWin | backend/app/analyzers/ai_support.py:203-204 | an issue without a title never matches |
| AiSupport.FixTimeByCounts | backend/app/analyzers/ai_support.py:214-236 | total = 60·critical + 30·high + 5·low + 15·rest over all issues; focus = 60·critical + 30·high |
| AiSupport.FixTimeBounds | backend/app/analyzers/ai_support.py:223-235 | focus ≤ total, and total lies between 5 and 60 minutes per issue |
| AiSupport.GetIssueAnalytics | backend/app/analyzers/ai_support.py:128-159 | the no-issues message exactly when nothing is extracted; otherwise the counts, the ranking, quick wins and the estimate of the extracted issues, with critical + high ≤ total |
| AiSupport.BuildPromptMentionsIssue | backend/app/analyzers/ai_support.py:97-126 | the prompt opens with the preamble and the title line, contains the severity and description lines, and ends with the fixed instructions |
| AiSupport.TutorialsCount | backend/app/analyzers/ai_support.py:37-42 | one record per request that was not a non-200 response |
| AiSupport.GetIssueTutorials | backend/app/analyzers/ai_support.py:19-49 | the not-configured message without a key; otherwise only the first 10 issues are attempted, with `total_issues` = n and `tutorials_generated` = the number of records ≤ 10 |
| AiSupport.FirstMatch | backend/app/analyzers/ai_support.py:299-301 | the index of the first entry whose lower-cased title occurs in the lower-cased issue title, or none when no entry matches |
| AiSupport.GetSolution | backend/app/analyzers/ai_support.py:294-303 | an unknown category gives the documentation text; otherwise the first match's solution, or the documentation text when nothing matches |
| AiSupport.GetSolutionIgnoresCase | backend/app/analyzers/ai_support.py:300 | lower-casing the issue title first changes nothing |
| AiSupport.FirstMatchIgnoresCase | backend/app/analyzers/ai_support.py:300 | the search ignores the case of the issue title |
| Waterfall.MimeType | backend/app/analyzers/waterfall.py:152-160 | one of four types, each exactly when its test is the first to pass: css for ".css", then JavaScript for ".js", then jpeg for an image extension, html when none passes |
| Waterfall.JsonIsJavaScript | backend/app/analyzers/waterfall.py:155-156 | "data.json" is classified as JavaScript |
| Waterfall.CreateResource | backend/app/analyzers/waterfall.py:99-116 | total = dns + tcp + request + response, end = start + total, blocked 0, status 200, inputs copied |
| Waterfall.References | backend/app/analyzers/waterfall.py:122-150 | never empty: a page without matches still yields a reference |
| Waterfall.NameOrSpec | backend/app/analyzers/waterfall.py:56 | the name is the reference's last '/'-free suffix, or the fallback exactly when the reference is empty or ends in '/' |
| Waterfall.Rows | backend/app/analyzers/waterfall.py:53-95 | one row per reference |
| Waterfall.GenerateWaterfall | backend/app/analyzers/waterfall.py:33-97 | returns the specified timeline, sorted by start time |
| Waterfall.GenerateUnsorted | backend/app/analyzers/waterfall.py:35-95 | the appending loops with the advancing clock build the specified timeline |
| Waterfall.AddStylesheets | backend/app/analyzers/waterfall.py:52-63 | the stylesheet loop appends exactly the stylesheet rows |
| Waterfall.AddScripts | backend/app/analyzers/waterfall.py:68-79 | the script loop appends exactly the script rows |
| Waterfall.AddImages | backend/app/analyzers/waterfall.py:84-95 | the image loop appends exactly the image rows |
| Waterfall.RowsSpec | backend/app/analyzers/waterfall.py:53-95 | row i is built from reference i with index i |
| Waterfall.StylesheetsRun | backend/app/analyzers/waterfall.py:53-63 | up to five stylesheet rows from clock 400: all stylesheets, sorted by start, within [400,600], each well formed |
| Waterfall.ScriptsRun | backend/app/analyzers/waterfall.py:69-79 | up to eight script rows from clock 900: all scripts, sorted by start, within [900,1600], each well formed |
| Waterfall.ImagesRun | backend/app/analyzers/waterfall.py:85-95 | up to ten image rows from clock 1900: all images, sorted by start, within [1900,3700], each well formed |
| Waterfall.TimelineSorted | backend/app/analyzers/waterfall.py:36-97 | the generated timeline is sorted by start time and every row is well formed |
| Waterfall.TimelineSortedIsFixed | backend/app/analyzers/waterfall.py:97 | the stable sort returns the timeline unchanged |
| Waterfall.TimelineShape | backend/app/analyzers/waterfall.py:36-95 | 4 to 24 rows: one document first at time 0, then at most 5 + 8 + 10 rows |
| Waterfall.MaxEnd | backend/app/analyzers/waterfall.py:169 | the largest end time, attained by some row |
| Waterfall.CalculateWaterfallMetrics | backend/app/analyzers/waterfall.py:162-188 | no metrics for no rows; otherwise the count, the total size and the page time, which is the maximum end |
| Waterfall.ByTypeTotals | backend/app/analyzers/waterfall.py:172-179 | the per-type counts sum to the row count and the per-type sizes to the total size |
| Waterfall.ByTypeKeys | backend/app/analyzers/waterfall.py:172-179 | a type is a key exactly when some row has it |
| Waterfall.WaterfallScore | backend/app/analyzers/waterfall.py:190-214 | 50 for no rows; otherwise in [0,100] |
| Waterfall.CalculateWaterfallScore | backend/app/analyzers/waterfall.py:190-214 | the stepwise deductions arrive at the specified score, in [0,100] |
| Waterfall.ScoreAntitone | backend/app/analyzers/waterfall.py:197-212 | adding a resource to a non-empty timeline never raises the score |
| MultiLocation.LoadStatus | backend/app/analyzers/multi_location.py:112 | Pass < 3000 ≤ Warn < 5000 ≤ Fail |
| MultiLocation.LocationRow | backend/app/analyzers/multi_location.py:103-115 | code, name, region and latency copied, status from the load, and 0 ≤ ttfb ≤ fcp ≤ speed index ≤ lcp ≤ load |
| MultiLocation.TestAllLocations | backend/app/analyzers/multi_location.py:89-117 | the loop builds the location table: one row per location in table order, from the fetch time or 1000 ms when it is missing, each with load time ≥ 100 |
| MultiLocation.TestAllLocationsAsWritten | backend/app/analyzers/multi_location.py:92 | the location test raises exactly when `fetch_time` was never assigned; otherwise nine rows, each with load time ≥ 100 |
| MultiLocation.AnalysisAsWrittenRaises | backend/app/analyzers/multi_location.py:92 | on the analyzer the base constructor builds, the location test always raises |
| MultiLocation.AssignedAsWrittenAgrees | backend/app/analyzers/multi_location.py:92-117 | once the attribute is assigned, the code as written builds the same table as the corrected test |
| MultiLocation.LoadTimes | backend/app/analyzers/multi_location.py:124 | the k-th load time is row k's |
| MultiLocation.FastestIndex | backend/app/analyzers/multi_location.py:127 | the first row of least load time |
| MultiLocation.SlowestIndex | backend/app/analyzers/multi_location.py:128 | the first row of greatest load time |
| MultiLocation.LocationMetricsSpec | backend/app/analyzers/multi_location.py:119-135 | fastest ≤ every load ≤ slowest; spread = slowest − fastest ≥ 0; the median is a load; pass count ≤ rows; 1 ≤ regions ≤ rows |
| MultiLocation.MedianIsATime | backend/app/analyzers/multi_location.py:130 | the upper median is one of the times |
| MultiLocation.RegionsBound | backend/app/analyzers/multi_location.py:134 | at least one and at most as many regions as rows |
| MultiLocation.TableRegions | backend/app/analyzers/multi_location.py:10-65 | the nine locations cover four regions |
| MultiLocation.AverageBetween | backend/app/analyzers/multi_location.py:129 | for non-negative loads the truncated mean lies between fastest and slowest |
| MultiLocation.CalculateLocationScore | backend/app/analyzers/multi_location.py:137-160 | the stepwise penalties and bonus arrive at the specified score |
| MultiLocation.LocationScoreRange | backend/app/analyzers/multi_location.py:137-160 | 50 for no rows; otherwise between 55 + bonus and 100 + bonus, at most 115, so not capped at 100 |
| MultiLocation.ConsistentTableScore | backend/app/analyzers/multi_location.py:145-158 | all rows pass within 1000 ms of each other ⇒ 100 + min(15, rows) |
| MultiLocation.BoundaryRowNeitherPassNorSlow | backend/app/analyzers/multi_location.py:112-146 | a 3000 ms row is Warn, yet neither slow nor passing |
| DeviceSimulation.Threshold | backend/app/analyzers/device_simulation.py:129-134 | 2500 for mobile, 3000 for tablet, 3500 otherwise |
| DeviceSimulation.DeviceStatus | backend/app/analyzers/device_simulation.py:136 | Pass below T, Warn below 1.5·T, Fail from 1.5·T |
| DeviceSimulation.DeviceStatusMonotone | backend/app/analyzers/device_simulation.py:136 | a slower load never gets a better verdict |
| DeviceSimulation.MobileJudgedStrictest | backend/app/analyzers/device_simulation.py:129-136 | for one load, mobile is judged no better than tablet, and tablet no better than desktop or laptop |
| DeviceSimulation.StatusAtBoundaries | backend/app/analyzers/device_simulation.py:129-136 | 3000 ms: desktop Pass, tablet and mobile Warn; 3750 ms fails a phone |
| DeviceSimulation.MobileIndicators | backend/app/analyzers/device_simulation.py:171-176 | at most three indicators |
| DeviceSimulation.ResponsiveIgnoresCase | backend/app/analyzers/device_simulation.py:156-162 | the viewport test ignores letter case |
| DeviceSimulation.FriendlyWithoutViewport | backend/app/analyzers/device_simulation.py:164-177 | without a viewport a phone needs both "mobile" (any case) and "@media" (exact case) |
| DeviceSimulation.FriendlyWithViewport | backend/app/analyzers/device_simulation.py:164-177 | with a viewport a phone needs "mobile" or "@media" |
| DeviceSimulation.EmptyPageFailsChecks | backend/app/analyzers/device_simulation.py:159-177 | no page: neither responsive nor mobile-friendly on a phone |
| DeviceSimulation.DeviceRow | backend/app/analyzers/device_simulation.py:138-152 | device fields copied, status and checks from the load and page, and 0 ≤ fcp ≤ lcp ≤ tti ≤ load |
| DeviceSimulation.DeviceTableVerdicts | backend/app/analyzers/device_simulation.py:197-198 | the table is responsive exactly when the page is, and phone-friendly exactly when the page is friendly on a phone |
| DeviceSimulation.LaptopAveragedNowhere | backend/app/analyzers/device_simulation.py:184-186 | the laptop row is in no averaged category |
| DeviceSimulation.DeviceSimulationAnalyzer.constructor | backend/app/analyzers/device_simulation.py:85-87 | page and elapsed time stored; empty issue and recommendation lists |
| DeviceSimulation.DeviceSimulationAnalyzer.TestAllDevices | backend/app/analyzers/device_simulation.py:110-154 | one row per device in table order, each with load ≥ 200 |
| DeviceSimulation.DeviceSimulationAnalyzer.CalculateDeviceScore | backend/app/analyzers/device_simulation.py:201-229 | the stepwise penalties and bonuses arrive at the specified score |
| DeviceSimulation.DeviceSimulationAnalyzer.AddDeviceRecommendations | backend/app/analyzers/device_simulation.py:231-253 | appends exactly the specified advice to the analyzer's list; issues unchanged |
| DeviceSimulation.DeviceSimulationAnalyzer.Analyze | backend/app/analyzers/device_simulation.py:85-108 | lists reset; report of the device table, its metrics, score, grade and recommendations; the issue list stays empty |
| DeviceSimulation.AverageTimeBetween | backend/app/analyzers/device_simulation.py:188-189 | a category average is 0 when the category is empty, else within the loads' bounds |
| DeviceSimulation.DeviceMetricsSpec | backend/app/analyzers/device_simulation.py:179-196 | per category: average 0 and pass rate N/A exactly when absent; otherwise average within bounds and passes ≤ rows |
| DeviceSimulation.NoPhonesMobileFriendly | backend/app/analyzers/device_simulation.py:198 | with no phones the mobile-friendly verdict holds vacuously |
| DeviceSimulation.DeviceScoreRange | backend/app/analyzers/device_simulation.py:201-229 | 50 for no rows; otherwise in [50,120], and above 100 only when every row is phone-friendly or every row responsive |
| DeviceSimulation.BestDeviceScore | backend/app/analyzers/device_simulation.py:206-229 | no failures, phones averaging ≤ 2000 ms and both checks passed ⇒ 120 |
| DeviceSimulation.AdviceForSpec | backend/app/analyzers/device_simulation.py:231-253 | each advice at most once, in fixed order, exactly when its condition holds |
| DeviceSimulation.DeviceRecommendationsSpec | backend/app/analyzers/device_simulation.py:231-253 | advice exactly for a phone mean above 2500 ms, a failing first low-end device, or an unresponsive row |
| DeviceSimulation.PenaltyComesWithAdvice | backend/app/analyzers/device_simulation.py:214-253 | the 20-point phone penalty implies the slow-phone advice; the responsive advice comes exactly when the bonus is missing |
| CoreWebVitals.Classify | backend/app/analyzers/core_web_vitals.py:40-48 | Good < good ≤ Needs Improvement < poor ≤ Poor |
| CoreWebVitals.EstimateFid | backend/app/analyzers/core_web_vitals.py:110-123 | within [50,400]; 80 without a page |
| CoreWebVitals.FidIgnoresCase | backend/app/analyzers/core_web_vitals.py:117-118 | the estimate ignores letter case |
| CoreWebVitals.AsyncPagesStayAtBase | backend/app/analyzers/core_web_vitals.py:117-121 | no more `<script` than "async" ⇒ at most 80 |
| CoreWebVitals.InpAtLeastFid | backend/app/analyzers/core_web_vitals.py:141-146 | fid ≤ inp ≤ 1.1·fid, within [55,440] |
| CoreWebVitals.EstimateLcp | backend/app/analyzers/core_web_vitals.py:87-108 | never below 500 |
| CoreWebVitals.LcpGrowsWithFetchTime | backend/app/analyzers/core_web_vitals.py:108 | a slower fetch never lowers the estimate |
| CoreWebVitals.SmallPagesGoodLcp | backend/app/analyzers/core_web_vitals.py:93-108 | no images or videos and a fetch under 350 ms ⇒ never Poor; no page ⇒ Good |
| CoreWebVitals.MeasuredMetrics | backend/app/analyzers/core_web_vitals.py:38-82 | each vital carries its classification; INP is Good and ≥ FID |
| CoreWebVitals.CwvScoreRange | backend/app/analyzers/core_web_vitals.py:148-179 | 0 for no metrics; otherwise 100 minus the three deductions, in [0,100] |
| CoreWebVitals.CwvScoreMonotone | backend/app/analyzers/core_web_vitals.py:155-177 | better vitals never score lower |
| CoreWebVitals.VerdictsAgreeWithDeductions | backend/app/analyzers/core_web_vitals.py:155-177 | Good costs nothing, Needs Improvement at most the small deduction, Poor at least the small one |
| CoreWebVitals.ThresholdsDisagree | backend/app/analyzers/core_web_vitals.py:40-161 | at a good threshold: Needs Improvement but no deduction; at a poor threshold: Poor but only the small deduction |
| CoreWebVitals.FailedMeasurementGradesF | backend/app/analyzers/core_web_vitals.py:83-85 | a failed measurement scores 0 and grades F |
| CoreWebVitals.CoreWebVitalsAnalyzer.constructor | backend/app/analyzers/core_web_vitals.py:12-15 | inputs stored; empty lists |
| CoreWebVitals.CoreWebVitalsAnalyzer.MeasureCoreWebVitals | backend/app/analyzers/core_web_vitals.py:32-85 | without a fetch time: the error text appended and no metrics; otherwise the measured metrics |
| CoreWebVitals.CoreWebVitalsAnalyzer.CalculateCwvScore | backend/app/analyzers/core_web_vitals.py:148-179 | the stepwise deductions arrive at the specified score |
| CoreWebVitals.CoreWebVitalsAnalyzer.Analyze | backend/app/analyzers/core_web_vitals.py:12-30 | lists reset; metrics, score and grade as specified; without a fetch time the only issue is the error and the grade is F |
| Accessibility.AriaIssues | backend/app/analyzers/accessibility.py:59-92 | at most two issues (unlabelled buttons, unlabelled navigation) |
| Accessibility.AltReport | backend/app/analyzers/accessibility.py:119-138 | at most three issues |
| Accessibility.AltIssues | backend/app/analyzers/accessibility.py:94-142 | at most three issues |
| Accessibility.AltCountsBound | backend/app/analyzers/accessibility.py:108-117 | each image lands in at most one bucket: missing + empty + poor ≤ images |
| Accessibility.AltIssuesKinds | backend/app/analyzers/accessibility.py:101-138 | no images ⇒ no issue; each bucket's issue exactly when its count is positive |
| Accessibility.AltReportKinds | backend/app/analyzers/accessibility.py:119-138 | each issue exactly when its count is positive, carrying that count |
| Accessibility.AltIssuesOrdered | backend/app/analyzers/accessibility.py:119-138 | severities strictly decrease along the alt issues |
| Accessibility.AltReportOrdered | backend/app/analyzers/accessibility.py:119-138 | severities strictly decrease along the report |
| Accessibility.AltBucketsNonEmpty | backend/app/analyzers/accessibility.py:108-117 | a count is positive exactly when some image falls in its bucket |
| Accessibility.HeadingReport | backend/app/analyzers/accessibility.py:159-189 | at most two issues |
| Accessibility.HeadingIssues | backend/app/analyzers/accessibility.py:144-193 | at most two issues |
| Accessibility.HeadingReportKinds | backend/app/analyzers/accessibility.py:159-189 | no-H1 exactly for zero H1s, multiple-H1 exactly for several, broken exactly when broken |
| Accessibility.NoHeadingsAlone | backend/app/analyzers/accessibility.py:151-157 | no headings ⇒ only the no-headings issue, and only then |
| Accessibility.HeadingIssuesSpec | backend/app/analyzers/accessibility.py:159-189 | no-H1 exactly when no level is 1; broken exactly when some heading is more than one level deeper than its predecessor |
| Accessibility.NoH1Count | backend/app/analyzers/accessibility.py:160 | zero H1s exactly when no level is 1 |
| Accessibility.NoH1ComesWithBrokenHierarchy | backend/app/analyzers/accessibility.py:161-189 | a missing H1 always comes with a broken hierarchy |
| Accessibility.StartingBelowH1IsBroken | backend/app/analyzers/accessibility.py:175-181 | a first heading below h1 breaks the hierarchy |
| Accessibility.UnbrokenDepthBound | backend/app/analyzers/accessibility.py:175-182 | in an unbroken hierarchy heading i is at most h(i+1) |
| Accessibility.FormIssues | backend/app/analyzers/accessibility.py:195-242 | at most one issue |
| Accessibility.UnlabeledCountSpec | backend/app/analyzers/accessibility.py:207-231 | zero exactly when every input is skipped or labelled; never above the input count |
| Accessibility.MoreLabelsNeverHurt | backend/app/analyzers/accessibility.py:218-220 | more label targets never raise the count |
| Accessibility.FormIssuesSpec | backend/app/analyzers/accessibility.py:233-238 | the issue exactly when some input needs a label, carrying the count |
| Accessibility.ContrastIssues | backend/app/analyzers/accessibility.py:244-265 | at most one issue |
| Accessibility.KeyboardIssues | backend/app/analyzers/accessibility.py:267-308 | at most three issues |
| Accessibility.SkipFeatureMeansNoSkipIssue | backend/app/analyzers/accessibility.py:273 | a page credited with skip links has no skip-link issue; `#skip` alone avoids the issue without the credit |
| Accessibility.WcagLevelOf | backend/app/analyzers/accessibility.py:310-322 | None > 5, A in 3..5, AA in 1..2, AAA for 0 critical issues |
| Accessibility.WcagMonotone | backend/app/analyzers/accessibility.py:315-322 | more critical issues never earn a better level |
| Accessibility.AccessibilityScore | backend/app/analyzers/accessibility.py:392-396 | 0 once count ≥ max; otherwise in (0,100]; 100 for no issues |
| Accessibility.AccessibilityScoreVersusBase | backend/app/analyzers/accessibility.py:392-396 | agrees with the base score for a positive maximum; 0 where the base gives 100 for a zero maximum |
| Accessibility.AdviceAt | backend/app/analyzers/accessibility.py:375-388 | the advice at position n has rank n |
| Accessibility.RecommendFromLength | backend/app/analyzers/accessibility.py:375-388 | at most 7 − n pieces of advice from position n |
| Accessibility.RecommendFromMembers | backend/app/analyzers/accessibility.py:375-388 | advice from position n on is given exactly when its issue type occurs |
| Accessibility.RecommendFromOrdered | backend/app/analyzers/accessibility.py:375-388 | advice from position n on comes in strictly increasing rank |
| Accessibility.RecommendationsMembers | backend/app/analyzers/accessibility.py:370-390 | an advice is given exactly when its issue type occurs; the URL-check advice never is |
| Accessibility.RecommendationsOrdered | backend/app/analyzers/accessibility.py:370-390 | at most 7, each once, in the fixed order |
| Accessibility.RecommendationsIgnoreOrder | backend/app/analyzers/accessibility.py:373 | only which issue types occur matters |
| Accessibility.SameKindsSameAdvice | backend/app/analyzers/accessibility.py:373-388 | same issue types ⇒ same advice from any position |
| Accessibility.PageIssues | backend/app/analyzers/accessibility.py:12-37 | at most 12 issues |
| Accessibility.PageWcagLevel | backend/app/analyzers/accessibility.py:313-322 | only a missing alt text is critical, so the level is AA or AAA according to missing alt attributes |
| Accessibility.ChecksOtherThanAltNotCritical | backend/app/analyzers/accessibility.py:59-308 | no check other than alt text reports a critical issue |
| Accessibility.AltCritical | backend/app/analyzers/accessibility.py:119-124 | exactly one critical alt issue when some image lacks an alt attribute |
| Accessibility.FewIssuesGradeAtLeastC | backend/app/analyzers/accessibility.py:392-396 | at most 12 issues score ≥ 76 and grade C or better |
| Accessibility.PageGradeAtLeastC | backend/app/analyzers/accessibility.py:49-53 | a parsed page always grades C or better |
| Accessibility.AccessibilityAnalyzer.constructor | backend/app/analyzers/base.py:9-14 | page stored; empty issue list |
| Accessibility.AccessibilityAnalyzer.CheckAriaLabels | backend/app/analyzers/accessibility.py:59-92 | the counting loop gives the specified issues |
| Accessibility.AccessibilityAnalyzer.CheckAltText | backend/app/analyzers/accessibility.py:94-142 | the bucketing loop gives the specified issues |
| Accessibility.AccessibilityAnalyzer.CheckHeadingStructure | backend/app/analyzers/accessibility.py:144-193 | the H1 count and the early-exit scan give the specified issues |
| Accessibility.AccessibilityAnalyzer.CheckFormLabels | backend/app/analyzers/accessibility.py:195-242 | the skipping, counting loop gives the specified issues |
| Accessibility.AccessibilityAnalyzer.CheckKeyboardAccessibility | backend/app/analyzers/accessibility.py:267-308 | the checks and the early-exit tabindex scan give the specified issues |
| Accessibility.AccessibilityAnalyzer.CheckWcagLevel | backend/app/analyzers/accessibility.py:310-322 | the counting loop gives the level for the critical issues stored on the analyzer |
| Accessibility.AccessibilityAnalyzer.Analyze | backend/app/analyzers/accessibility.py:7-57 | the error report without a page; otherwise the page report, with the issues stored on the analyzer |
| Security.CheckSsl | backend/app/analyzers/security.py:53-82 | TLS iff the scheme is https; certificate valid iff TLS and verified; A iff valid, F iff no TLS, else C |
| Security.HttpsPrefixHasSsl | backend/app/analyzers/security.py:65-78 | an "https://" URL has TLS: A when verified, C when not |
| Security.HttpPrefixNoSsl | backend/app/analyzers/security.py:65 | an "http://" URL has no TLS and grades F |
| Security.HeaderSeverity | backend/app/analyzers/security.py:101 | high exactly for a missing CSP, medium for the rest |
| Security.ShortNameLengths | backend/app/analyzers/security.py:87-93 | the short name has 3 letters only for CSP and 4 only for HSTS |
| Security.LowerShortNames | backend/app/analyzers/security.py:99 | "CSP" and "HSTS" lower to "csp" and "hsts" |
| Security.TypeNameKeys | backend/app/analyzers/security.py:161-168 | each type the recommendations test picks out exactly one kind of issue |
| Security.HeaderTypeNamesDistinct | backend/app/analyzers/security.py:87-99 | different headers give different type names |
| Security.MissingFrom | backend/app/analyzers/security.py:96-102 | only missing checked headers are reported, at most one per header |
| Security.HeaderIssues | backend/app/analyzers/security.py:84-106 | at most five header issues |
| Security.MissingFromComplete | backend/app/analyzers/security.py:96-102 | every missing header is reported |
| Security.MissingFromNone | backend/app/analyzers/security.py:96-102 | a response with all headers gives no issue |
| Security.MissingFromOrdered | backend/app/analyzers/security.py:96 | issues follow the header order |
| Security.HeaderIssuesSpec | backend/app/analyzers/security.py:84-106 | none without a response (the lookup raises and is swallowed); otherwise an issue exactly for each missing header, in order |
| Security.MixedContentSpec | backend/app/analyzers/security.py:108-120 | mixed content exactly for an https URL whose page has "https://" and an `src="http://` or `href="http://` attribute |
| Security.ExposedFrom | backend/app/analyzers/security.py:130-137 | one issue per generator naming WordPress or Joomla, carrying its content |
| Security.ExposedFromComplete | backend/app/analyzers/security.py:130-137 | every such generator is reported |
| Security.ExposedFromNone | backend/app/analyzers/security.py:130-137 | no such generator ⇒ no issue |
| Security.FrameworkIssues | backend/app/analyzers/security.py:122-141 | only framework issues |
| Security.Recommendations | backend/app/analyzers/security.py:156-170 | at most four recommendations |
| Security.AdviceFor | backend/app/analyzers/security.py:161-168 | each advice exactly when its flag holds, in the fixed order |
| Security.RecommendationsSpec | backend/app/analyzers/security.py:156-170 | each advice exactly when its issue is present |
| Security.RecommendationsOrdered | backend/app/analyzers/security.py:161-168 | strictly increasing rank |
| Security.NoSslFirst | backend/app/analyzers/security.py:18-25 | the TLS issue exactly without TLS, then first and critical |
| Security.IssueCountBound | backend/app/analyzers/security.py:10-43 | at most seven issues plus one per framework generator |
| Security.SevenIssuesScore | backend/app/analyzers/security.py:43 | seven issues out of 40 score 82.5 |
| Security.NoFrameworkGradeAtLeastB | backend/app/analyzers/security.py:43-47 | no framework generator ⇒ score ≥ 82.5 and grade B or better |
| Security.FailedFetchGradedA | backend/app/analyzers/security.py:10-51 | a failed fetch finds at most the TLS issue, so the score is 100 or 97.5 and the grade A |
| Security.CleanSiteScoresFull | backend/app/analyzers/security.py:10-51 | TLS, all headers, no mixed content and no framework ⇒ no issue, 100, A |
| Security.FullScoreMeansNoIssues | backend/app/analyzers/security.py:43 | 100 exactly when there are no issues |
| Security.SecurityAnalyzer.constructor | backend/app/analyzers/base.py:9-14 | URL, fetch outcome and handshake result stored |
| Security.SecurityAnalyzer.CheckSecurityHeaders | backend/app/analyzers/security.py:84-106 | the header loop gives the specified issues |
| Security.SecurityAnalyzer.CheckVulnerabilities | backend/app/analyzers/security.py:122-141 | the generator loop gives the specified issues |
| Security.SecurityAnalyzer.Analyze | backend/app/analyzers/security.py:10-51 | the stepwise appends give the specified report |
| Urls.FindFirst | backend/app/utils/validator.py:13 | the first index of a stop character, or the length |
| Urls.Authority | backend/app/utils/validator.py:13 | the longest prefix free of '/', '?' and '#' |
| Urls.WebSchemeSplit | backend/app/utils/validator.py:13 | an http(s) URL splits into that scheme and the authority after "//" |
| Validator.NormalizeUrl | backend/app/utils/validator.py:32-36 | the result has a web scheme and is the input or starts with "https://" |
| Validator.NormalizeUrlSpec | backend/app/utils/validator.py:34-36 | unchanged with a web scheme, otherwise "https://" + input |
| Validator.NormalizeIdempotent | backend/app/utils/validator.py:32-36 | normalizing twice is normalizing once |
| Validator.ValidateUrlSpec | backend/app/utils/validator.py:5-30 | validity is the host pattern applied to the authority of the normalized URL |
| Validator.WebParts | backend/app/utils/validator.py:13-21 | a prefixed URL passes the scheme and netloc checks with its authority as netloc |
| Validator.ValidateNormalized | backend/app/utils/validator.py:32-36 | validating the normalized URL gives the same answer |
| Validator.EmptyHostRejected | backend/app/utils/validator.py:16-17 | an empty netloc is rejected |
| Validator.LabelsAccepted | backend/app/utils/validator.py:24-26 | valid labels followed by a valid final label, joined by dots, are accepted |
| Validator.AcceptedIsLabels | backend/app/utils/validator.py:24-26 | conversely, an accepted host splits into such labels |
| Validator.SingleLabelRejected | backend/app/utils/validator.py:24-26 | a host without a dot is rejected |
| Validator.TrailingDotRejected | backend/app/utils/validator.py:24-26 | a host ending in a dot is rejected |
| Validator.PortRejected | backend/app/utils/validator.py:24-26 | a host with a port (any ':') is rejected |
| Validator.NumericHostRejected | backend/app/utils/validator.py:24-26 | a dotted-decimal address is rejected |
| Validator.BareHostValidity | backend/app/utils/validator.py:9-26 | a bare host is valid exactly when it matches the pattern |
| Validator.HttpHostValidity | backend/app/utils/validator.py:9-26 | "http://" + host is valid exactly when the host matches |
| Validator.ExampleComValid | backend/app/utils/validator.py:5-28 | "example.com" is valid |
| Validator.LocalhostInvalid | backend/app/utils/validator.py:24-26 | "localhost" is not valid |
| Validator.PortUrlInvalid | backend/app/utils/validator.py:24-26 | a URL whose authority carries a port is not valid |

## Specification functions

Several source functions are modelled by a function that carries no contract
of its own. What the source promises of each is stated by the lemmas and
methods named beside it, which have rows in the table above.

- `Validator.ValidateUrl` (backend/app/utils/validator.py:5-30): covered by `Validator.ValidateUrlSpec`, `Validator.ValidateNormalized`, `Validator.BareHostValidity`, `Validator.HttpHostValidity`, `Validator.ExampleComValid`, `Validator.LocalhostInvalid` and `Validator.PortUrlInvalid`.
- `Validator.HostMatches` (backend/app/utils/validator.py:24-26): covered by `Validator.LabelsAccepted`, `Validator.AcceptedIsLabels`, `Validator.EmptyHostRejected`, `Validator.SingleLabelRejected`, `Validator.TrailingDotRejected`, `Validator.PortRejected` and `Validator.NumericHostRejected`.
- `Security.CheckMixedContent` (backend/app/analyzers/security.py:108-120): covered by `Security.MixedContentSpec`.
- `Security.SecurityIssues` and `Security.SecurityReportOf` (backend/app/analyzers/security.py:10-51): covered by `Security.NoSslFirst`, `Security.IssueCountBound`, `Security.NoFrameworkGradeAtLeastB`, `Security.FailedFetchGradedA`, `Security.CleanSiteScoresFull` and `Security.SecurityAnalyzer.Analyze`.
- `DeviceSimulation.CheckResponsive` (backend/app/analyzers/device_simulation.py:156-162): covered by `DeviceSimulation.ResponsiveIgnoresCase`, `DeviceSimulation.EmptyPageFailsChecks` and `DeviceSimulation.DeviceTableVerdicts`.
- `DeviceSimulation.CheckMobileFriendly` (backend/app/analyzers/device_simulation.py:164-177): covered by `DeviceSimulation.FriendlyWithoutViewport`, `DeviceSimulation.FriendlyWithViewport` and `DeviceSimulation.EmptyPageFailsChecks`.
- `DeviceSimulation.DeviceMetricsOf` (backend/app/analyzers/device_simulation.py:179-199): covered by `DeviceSimulation.DeviceMetricsSpec`, `DeviceSimulation.AverageTimeBetween` and `DeviceSimulation.NoPhonesMobileFriendly`.
- `DeviceSimulation.DeviceScore` (backend/app/analyzers/device_simulation.py:201-229): covered by `DeviceSimulation.DeviceScoreRange`, `DeviceSimulation.BestDeviceScore`, `DeviceSimulation.PenaltyComesWithAdvice` and `DeviceSimulation.DeviceSimulationAnalyzer.CalculateDeviceScore`.
- `DeviceSimulation.DeviceRecommendations` (backend/app/analyzers/device_simulation.py:231-253): covered by `DeviceSimulation.DeviceRecommendationsSpec` and `DeviceSimulation.DeviceSimulationAnalyzer.AddDeviceRecommendations`.
- `CoreWebVitals.EstimateInp` (backend/app/analyzers/core_web_vitals.py:141-146): covered by `CoreWebVitals.InpAtLeastFid`.
- `CoreWebVitals.CwvScore` (backend/app/analyzers/core_web_vitals.py:148-179): covered by `CoreWebVitals.CwvScoreRange`, `CoreWebVitals.CwvScoreMonotone`, `CoreWebVitals.VerdictsAgreeWithDeductions`, `CoreWebVitals.FailedMeasurementGradesF` and `CoreWebVitals.CoreWebVitalsAnalyzer.CalculateCwvScore`.
- `MultiLocation.LocationTable` (backend/app/analyzers/multi_location.py:89-117): covered by `MultiLocation.TestAllLocations`, `MultiLocation.TestAllLocationsAsWritten` and `MultiLocation.TableRegions`.
- `MultiLocation.Median` (backend/app/analyzers/multi_location.py:130): covered by `MultiLocation.MedianIsATime`.
- `MultiLocation.LocationMetricsOf` (backend/app/analyzers/multi_location.py:119-135): covered by `MultiLocation.LocationMetricsSpec` and `MultiLocation.AverageBetween`.
- `MultiLocation.LocationScore` (backend/app/analyzers/multi_location.py:137-160): covered by `MultiLocation.LocationScoreRange`, `MultiLocation.ConsistentTableScore` and `MultiLocation.CalculateLocationScore`.
- `AiSupport.Extracted` (backend/app/analyzers/ai_support.py:161-181): covered by `AiSupport.ExtractAllIssues`, `AiSupport.ExtractedFields`, `AiSupport.ExtractReadsOnlyAnalyzerKeys` and `AiSupport.UnknownKeyIgnored`.
- `AiSupport.QuickWins` (backend/app/analyzers/ai_support.py:197-212): covered by `AiSupport.IdentifyQuickWins` and `AiSupport.QuickWinsShape`.
- `AiSupport.EstimateFixTime` (backend/app/analyzers/ai_support.py:214-236): covered by `AiSupport.FixTimeByCounts` and `AiSupport.FixTimeBounds`.
- `AiSupport.BuildPrompt` (backend/app/analyzers/ai_support.py:97-126): covered by `AiSupport.BuildPromptMentionsIssue`.
- `AiSupport.GenerateTutorial` and `AiSupport.TutorialsFor` (backend/app/analyzers/ai_support.py:37-95): covered by `AiSupport.TutorialsCount` and `AiSupport.GetIssueTutorials`.
- `Waterfall.Timeline` (backend/app/analyzers/waterfall.py:33-97): covered by `Waterfall.GenerateWaterfall`, `Waterfall.TimelineSorted`, `Waterfall.TimelineSortedIsFixed` and `Waterfall.TimelineShape`.
- `Waterfall.ByType` (backend/app/analyzers/waterfall.py:172-179): covered by `Waterfall.ByTypeTotals` and `Waterfall.ByTypeKeys`.
- `Accessibility.UnlabeledCount` (backend/app/analyzers/accessibility.py:205-231): covered by `Accessibility.UnlabeledCountSpec` and `Accessibility.MoreLabelsNeverHurt`.
- `Accessibility.HierarchyBroken` (backend/app/analyzers/accessibility.py:175-182): covered by `Accessibility.HeadingIssuesSpec`, `Accessibility.StartingBelowH1IsBroken` and `Accessibility.UnbrokenDepthBound`.
- `Accessibility.FeaturesOf` (backend/app/analyzers/accessibility.py:324-355): covered by `Accessibility.SkipFeatureMeansNoSkipIssue`; the DOM queries behind it are listed under Left out.
- `Accessibility.Recommendations` (backend/app/analyzers/accessibility.py:370-390): covered by `Accessibility.RecommendationsMembers`, `Accessibility.RecommendationsOrdered` and `Accessibility.RecommendationsIgnoreOrder`.
- `Accessibility.PageReport` (backend/app/analyzers/accessibility.py:7-57): covered by `Accessibility.PageWcagLevel`, `Accessibility.PageGradeAtLeastC` and `Accessibility.AccessibilityAnalyzer.Analyze`.

## Left out

- Network and I/O are inputs or left out:
  - page fetching;
  - the TLS handshake, given as a certificate-verified boolean;
  - the response header names, as a set;
  - the language-model POST, as an `HttpOutcome` per attempted issue;
  - timestamps, the `generated_at` field, and the printed error messages.
- HTML parsing is abstracted. BeautifulSoup queries become inputs:
  - button records, image alt attributes, heading levels, input records with the set of label `for` ids, anchor hrefs, tabindex values and generator contents;
  - the regex-extracted file references of the waterfall.
  Every `except` around a parser query is left out, because the abstracted queries cannot raise.
- `count_accessibility_features` reads abstracted page flags (`FeaturesOf`). The DOM queries behind them are not modelled.
- Randomness and float timing are inputs:
  - the random variance of each location and device row is a given integer;
  - the base time is a given real, with `int()` modelled as truncation toward zero;
  - the float latency, throttle and bandwidth factors are kept as reals.
- Rounding and formatting are left out:
  - `round(score, 2)` in `get_score`;
  - the kilobyte columns and `critical_path_time` of the waterfall;
  - `estimated_hours`;
  - the pass-rate strings, modelled as passed/tested counts;
  - the CLS estimate, whose rounded value is an input of `CoreWebVitalsAnalyzer`.
- Messages are modelled by kind. Issue messages and recommendation texts become datatypes, with the text kept in one function per datatype. The security metrics entry `ssl_grade` is not reported separately; it is the `grade` of `CheckSsl`.
- `str.lower` is modelled as ASCII lowering only. Python also lowers non-ASCII letters.
- `Urls.Authority` is a simplified `urlsplit`. The model leaves out:
  - stripping of leading whitespace and control characters;
  - the deletion of every tab, carriage return and line feed from the URL, which current Python versions do before splitting, so `exa\tmple.com` is valid in Python and invalid in the model;
  - the `ValueError` that IPv6 brackets can raise;
  - ports and user-info, which stay part of the netloc (as in Python) and so fail the host pattern.
- `Validator.HostMatches` is the host pattern with `$` as the end of the host. Python's `$` also matches before a final line feed, but `urlsplit` deletes line feeds first, so that case does not reach the pattern.
- The waterfall and multi-location `analyze` methods only assemble already-modelled parts (rows, metrics, score, grade) into a dictionary. They are not modelled as separate members.
- `AiSupport.TagAll` requires every element of a collected issue list to be a mapping. The Core Web Vitals analyzer stores a plain error string, and extraction would then raise at the `category` write. The precondition keeps that case out.
- `AiSupport.ExtractAllIssues` returns the tagged issues as new values. The in-place write of `category` and `severity` into the caller's dictionaries is not modelled.
- An issue whose `title` key holds `None` would make quick-win detection raise. Titles are absent or strings in the model.
- An issue whose `description` key holds `None` would make the prioritisation key (`len` of the description) raise. Descriptions are absent or strings in the model, so `AiSupport.Prioritize` does not capture that failure.
- `AiSupport.TagAll` defaults the severity only when the key is absent, as the code does. A present `None` or empty severity is kept.
- `MultiLocation.TestAllLocations` treats a missing fetch time as the 1000 ms default. As written, the attribute read raises, because `base.py` never sets it; see Findings.
- `MultiLocation.LocationRow` computes each scaled time as `t · k / 10` exactly, truncated. Python multiplies by the binary float `0.7`, which lies just below 7/10, so `int(t * 0.7)` can be one lower (t = 1300 gives 909, the model 910). The 0.2, 0.4 and 0.6 factors agree with the exact value for every load the table produces.
- `DeviceSimulation.DeviceRow` computes the scaled times the same way. Its `int(t * 0.7)` LCP can be one lower in Python for the same reason; the 0.4 and 0.8 factors agree.
- `Waterfall.CalculateWaterfallMetrics` reports the count, size, page time and per-type totals. The rounded kilobyte total and the critical-path estimate are left out.
- The frontend, the Flask and model-service layers, and the DOM-only analyzers (performance, seo, code standards, user friendliness, mobile optimization, advanced metrics, user behaviour) are not part of this model.

## Findings

| source | as written | input that shows it | evidently intended | confidence | as-written member | corrected member |
|---|---|---|---|---|---|---|
| backend/app/analyzers/core_web_vitals.py:108 | `_estimate_lcp` reads `self.fetch_time`, which `BaseAnalyzer.__init__` (backend/app/analyzers/base.py:9-14) never sets. The `AttributeError` is caught at line 83, so every measurement records an error, returns no metrics, scores 0 and grades F. | any URL: the analyzer is built with no fetch time (`fetchTime == None`) | the LCP estimate uses the page's measured fetch time, and the vitals are classified and scored | not executed | CoreWebVitals.FailedMeasurementGradesF | CoreWebVitals.MeasuredMetrics |
| backend/app/analyzers/multi_location.py:92 | `_test_all_locations` reads `self.fetch_time`, which `BaseAnalyzer.__init__` (backend/app/analyzers/base.py:9-14) never sets. No handler surrounds the read, so `analyze` raises `AttributeError` on every call (`MultiLocation.AnalysisAsWrittenRaises`). | any URL: the analyzer is built without `fetch_time` (`ConstructedFetchTime == Unassigned`) | a missing fetch time falls back to 1000 ms, as the `else 1000` branch of the same line intends | not executed | MultiLocation.TestAllLocationsAsWritten | MultiLocation.TestAllLocations |

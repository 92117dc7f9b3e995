# Incident-swarm case management: expert matching and case views

This project models the decision logic of an incident "swarming" web
application for enterprise-system support cases.

- **The expert-matching engine.** It extracts keywords from a case and scores every expert on the roster. The five weighted criteria are skill relevance, availability, response time, success rate and similar resolved cases. It then ranks the roster, keeps the experts that reach a 60% match, and reports a confidence and up to five key factors.
- **The case-management dashboard.**
  - the case list with its four-way filter (search, status, module, severity);
  - selection and deletion;
  - the six quick-stat cards and their click and keyboard handlers;
  - the sortable case table, with its badges and empty state.
- **The new-case form.** It validates the form, clears errors on input, creates the case with its `CASE-<year>-<nnn>` id and resets on cancel.
- **The case timeline.** It filters entries by search text, activity type and date range, and lists them newest first.
- **The breadcrumb trail and the postmortem header.** The header formats the resolution time and colours and labels the status pill.

The Dafny modules follow the source files:

| module | file |
|---|---|
| `ExpertMatching` | the expert-matching service, with its roster and history in a class `ExpertMatchingService` |
| `Cases` | the case record and the filter shared by the dashboard and the table |
| `Dashboard` | the dashboard page state, in a class `DashboardState` |
| `QuickStats` | the stat cards |
| `CaseTable` | the table and its sort state, in a class `CaseTableView` |
| `CaseForm` | the form, in a class `CaseFormModal` |
| `Timeline` | the timeline page |
| `Breadcrumbs` | the breadcrumb trail |
| `PostmortemHeader` | the postmortem header |

Four support modules model JavaScript built-ins the source relies on:
- `StableSort`: `Array.prototype.sort`, which is stable. It is a function specification, insertion sort by a strict weak order, plus an in-place array method proved equal to it.
- `Text`: `toLowerCase`, `includes`, `trim`, `padStart`, number-to-string conversion and `<` on strings.
- `Seqs`: `filter`.
- `Base`: `Option`.

Values the browser supplies become parameters:
- the current time and the start of the current day;
- the random case number;
- the analysis time;
- whether a callback is present.

## Model

| member | source | states |
|---|---|---|
| ExpertMatching.KeywordsInSpec | src/utils/expertMatchingService.js:161-163 | a word of a list is kept iff the lower-cased text contains it lower-cased; kept words stay in list order; a list without duplicates yields none |
| ExpertMatching.VocabularyDistinct | src/utils/expertMatchingService.js:155-159 | the 19 technical terms are pairwise distinct |
| ExpertMatching.ExtractKeywords | src/utils/expertMatchingService.js:153-164 | defines `extractKeywords`: the technical terms found in the text, ignoring case; its properties are stated by ExtractKeywordsSpec |
| ExpertMatching.ExtractKeywordsSpec | src/utils/expertMatchingService.js:153-164 | the keywords are exactly the technical terms contained in the text ignoring case, in vocabulary order, each once |
| ExpertMatching.CountMatchingExtremes | src/utils/expertMatchingService.js:138-148 | the matched-skill count is 0 iff no skill matches a keyword, and equals the number of skills iff every skill matches |
| ExpertMatching.CountMatchingSkills | src/utils/expertMatchingService.js:135-148 | the loop's two counters both end equal to the number of skills matching some keyword in either direction, ignoring case |
| ExpertMatching.SkillRelevanceScore | src/utils/expertMatchingService.js:133-151 | defines `calculateSkillRelevance`: 0 without skills, else the matched share of the skills times 100; bounded by SkillRelevanceBounds |
| ExpertMatching.CalculateSkillRelevance | src/utils/expertMatchingService.js:133-151 | the returned score is the matched share of the skills times 100, always within 0..100 |
| ExpertMatching.SkillRelevanceBounds | src/utils/expertMatchingService.js:133-151 | skill relevance lies in 0..100; it is 0 iff no skills or no skill matches; with skills it is 100 iff every skill matches |
| ExpertMatching.NoKeywordsNoSkillRelevance | src/utils/expertMatchingService.js:139-142 | a case mentioning no technical term gives every expert zero skill relevance |
| ExpertMatching.AvailabilityScore | src/utils/expertMatchingService.js:166-171 | a busy or offline expert scores 0; an available one scores within 0..100 for a workload in 0..1, and 100 when idle |
| ExpertMatching.ResponseTimeScoreOf | src/utils/expertMatchingService.js:173-176 | never negative, at most 100 for a non-negative time, 100 at 0 minutes, 0 from 30 minutes on |
| ExpertMatching.SuccessRateScore | src/utils/expertMatchingService.js:178-180 | defines `calculateSuccessRateScore`: the expert's success rate as recorded |
| ExpertMatching.ResponseTimeMonotone | src/utils/expertMatchingService.js:173-176 | a slower average response never scores higher |
| ExpertMatching.SimilarCases | src/utils/expertMatchingService.js:183-186 | the similar cases are exactly the history entries resolved by the expert |
| ExpertMatching.CaseSimilarityScore | src/utils/expertMatchingService.js:182-200 | defines `calculateCaseSimilarity`: the share, in percent, of the expert's resolved cases sharing a keyword with the case; bounded by CaseSimilarityBounds |
| ExpertMatching.CaseSimilarityBounds | src/utils/expertMatchingService.js:182-200 | case similarity lies in 0..100 and is 0 for an expert who resolved nothing |
| ExpertMatching.SimilarCasesAppend | src/utils/expertMatchingService.js:183-186 | appending an entry the expert did not resolve leaves the expert's similar cases unchanged |
| ExpertMatching.RecordedCaseChangesNoMatch | src/utils/expertMatchingService.js:309-318 | recording a new open case changes no similarity score and no match result |
| ExpertMatching.CriteriaAreTheWeights | src/utils/expertMatchingService.js:209-215 | the five weights sum to 1, and the reported criteria weights are those weights as percentages, summing to 100 |
| ExpertMatching.Round | src/utils/expertMatchingService.js:225 | the rounded value lies within half a unit of the exact one |
| ExpertMatching.MatchPercentage | src/utils/expertMatchingService.js:202-226 | defines `calculateMatchPercentage`: the rounded weighted sum of the five sub-scores; bounded by MatchPercentageBounds |
| ExpertMatching.MatchPercentageBounds | src/utils/expertMatchingService.js:202-226 | for an expert with workload in 0..1, non-negative response time and success rate in 0..100, the match percentage lies in 0..100 |
| ExpertMatching.MoreMatchedOrder | src/utils/expertMatchingService.js:240 | ordering by descending match percentage is a strict weak order |
| ExpertMatching.Qualified | src/utils/expertMatchingService.js:241 | exactly the experts reaching 60% are kept, in order |
| ExpertMatching.QualifiedIsPrefix | src/utils/expertMatchingService.js:240-241 | on a descending list the qualified experts are a prefix, and every expert after it is below 60% |
| ExpertMatching.OverallConfidence | src/utils/expertMatchingService.js:261-268 | defines `calculateOverallConfidence`: 0 for nobody, else the mean and top percentages over 200, capped at 0.95; bounded by ConfidenceBounds |
| ExpertMatching.ConfidenceBounds | src/utils/expertMatchingService.js:261-268 | confidence is 0 with no qualified expert, otherwise between 0.6 and 0.95 |
| ExpertMatching.KeyFactors | src/utils/expertMatchingService.js:270-296 | defines `generateKeyFactors`: the top expert's skill, availability, success and similarity factors, cut to five; stated by KeyFactorsSpec and SixthFactorDropped |
| ExpertMatching.KeyFactorsSpec | src/utils/expertMatchingService.js:270-296 | at most five factors; none when nobody qualifies; at least one when the top expert has a skill or is available; the top expert's first skills (up to three, within the five) come first as `<skill> expertise` |
| ExpertMatching.SixthFactorDropped | src/utils/expertMatchingService.js:295 | when all six factors apply, the sixth, "Recent similar case resolution", is cut |
| ExpertMatching.PushSkillFactors | src/utils/expertMatchingService.js:276-280 | pushes `<skill> expertise` for each given skill, in order |
| ExpertMatching.GenerateKeyFactors | src/utils/expertMatchingService.js:270-296 | the factor list built step by step equals the key-factor specification |
| ExpertMatching.ScoreRoster | src/utils/expertMatchingService.js:231-238 | one scored copy of each roster expert, in roster order |
| ExpertMatching.RankedIsStableSort | src/utils/expertMatchingService.js:240 | the ranking is a stable sort of the scored roster by descending match percentage |
| ExpertMatching.Match | src/utils/expertMatchingService.js:228-259 | defines `matchExperts` for a given analysis time: the qualified prefix of the stable ranking with its confidence, criteria and key factors; stated by MatchRanking, MatchMembers, MatchSummary and MatchKeepsRosterOrderOnTies |
| ExpertMatching.MatchRanking | src/utils/expertMatchingService.js:228-259 | the result counts the whole roster, carries the analysis time and the five criteria, and lists a prefix of the ranking, in descending order, all at 60% or above; every expert after the prefix is below 60% |
| ExpertMatching.MatchMembers | src/utils/expertMatchingService.js:241 | an expert is listed iff it is a scored roster expert reaching 60% |
| ExpertMatching.MatchSummary | src/utils/expertMatchingService.js:245-258 | the confidence is 0 with nobody listed, else between 0.6 and 0.95; at most five key factors, none when nobody is listed |
| ExpertMatching.MatchKeepsRosterOrderOnTies | src/utils/expertMatchingService.js:240-241 | qualified experts with equal match percentage appear in roster order |
| ExpertMatching.FirstIndexOf | src/utils/expertMatchingService.js:299 | the first roster position with the id, or none when no expert has it |
| ExpertMatching.FindExpert | src/utils/expertMatchingService.js:298-300 | the first expert with the id, or none iff no expert has it |
| ExpertMatching.WithAvailability | src/utils/expertMatchingService.js:302-307 | defines the roster after `updateExpertAvailability`; stated by WithAvailabilitySpec and WithAvailabilityFound |
| ExpertMatching.WithAvailabilitySpec | src/utils/expertMatchingService.js:302-307 | the roster keeps its length; an unknown id changes nothing; only the first expert with the id changes, and only its availability |
| ExpertMatching.WithAvailabilityFound | src/utils/expertMatchingService.js:302-307 | after the update, looking up the id gives the old expert with the new availability |
| ExpertMatching.UnavailableScoresZero | src/utils/expertMatchingService.js:302-307 | after an expert is made busy or offline, the availability score is 0 |
| ExpertMatching.SeedExpertsWellFormed | src/utils/expertMatchingService.js:8-96 | every seeded expert has workload in 0..1, non-negative response time and success rate in 0..100 |
| ExpertMatching.SeedExpertsScoresInRange | src/utils/expertMatchingService.js:8-96 | every seeded expert's match percentage lies in 0..100 for any case and history |
| ExpertMatching.ExpertMatchingService.constructor | src/utils/expertMatchingService.js:3-6 | the service starts with the seeded roster and history |
| ExpertMatching.ExpertMatchingService.MatchExperts | src/utils/expertMatchingService.js:228-259 | returns the match result of the specification, and changes neither roster nor history |
| ExpertMatching.ExpertMatchingService.GetExpertById | src/utils/expertMatchingService.js:298-300 | the first roster expert with the id, or none iff no expert has it |
| ExpertMatching.ExpertMatchingService.UpdateExpertAvailability | src/utils/expertMatchingService.js:302-307 | the roster becomes the first-match availability update; history unchanged |
| ExpertMatching.ExpertMatchingService.AddCaseToHistory | src/utils/expertMatchingService.js:309-318 | appends the case as an open, unassigned entry; roster unchanged |
| Cases.FilterCases | src/pages/dashboard-case-management-overview/index.jsx:190-200 | defines `filteredCases`: the cases passing all four filters, in order; stated by FilterCasesSpec |
| Cases.FilterCasesSpec | src/pages/dashboard-case-management-overview/index.jsx:190-200 | the filtered list keeps, in order and with multiplicity, exactly the cases whose title or description contains the search term ignoring case and whose status, module and severity equal each non-empty filter |
| Cases.NoFiltersKeepAll | src/pages/dashboard-case-management-overview/index.jsx:190-200 | with every filter empty, the list is unchanged |
| Dashboard.ActiveCount | src/pages/dashboard-case-management-overview/index.jsx:202 | defines `activeCases`: the number of open, in-progress and expert-assigned cases; stated by ActiveIsSumOfStatusCounts |
| Dashboard.ActiveIsSumOfStatusCounts | src/pages/dashboard-case-management-overview/index.jsx:202 | the active count is the sum of the open, in-progress and expert-assigned counts, and at most the total |
| Dashboard.StatClickFilters | src/pages/dashboard-case-management-overview/index.jsx:224-254 | each card sets its status (or critical severity) and clears the other; Total Cases and unknown names clear both; search and module are kept |
| Dashboard.StatusFilterCount | src/pages/dashboard-case-management-overview/index.jsx:190-200 | with no search or module filter, filtering by one status shows exactly the cases with that status |
| Dashboard.StatClickShowsCardCount | src/pages/dashboard-case-management-overview/index.jsx:224-254 | with no search or module filter, clicking a card lists as many cases as the card counts; Resolved Today lists at least as many |
| Dashboard.DashboardState.constructor | src/pages/dashboard-case-management-overview/index.jsx:11-15 | the page starts with the loaded cases, no selection and empty filters |
| Dashboard.DashboardState.AddNewCase | src/pages/dashboard-case-management-overview/index.jsx:151-153 | the new case is put first; nothing else changes |
| Dashboard.DashboardState.DeleteCase | src/pages/dashboard-case-management-overview/index.jsx:156-160 | every case with the id and every selection of it is removed; filters unchanged |
| Dashboard.DashboardState.DeleteSelectedCases | src/pages/dashboard-case-management-overview/index.jsx:163-166 | every case whose id was selected is removed and the selection emptied |
| Dashboard.DashboardState.HandleCaseSelect | src/pages/dashboard-case-management-overview/index.jsx:204-210 | selecting appends the id; deselecting removes every occurrence of it |
| Dashboard.DashboardState.HandleSelectAll | src/pages/dashboard-case-management-overview/index.jsx:212-214 | select-all takes the ids of the filtered cases, in order; deselect-all empties the selection |
| Dashboard.DashboardState.HandleClearFilters | src/pages/dashboard-case-management-overview/index.jsx:216-221 | all four filters become empty; cases and selection unchanged |
| Dashboard.DashboardState.HandleQuickStatClick | src/pages/dashboard-case-management-overview/index.jsx:224-254 | the filters become those the clicked card selects |
| Dashboard.DashboardState.SetSearchTerm | src/pages/dashboard-case-management-overview/index.jsx:11 | only the search term changes |
| Dashboard.DashboardState.SetStatusFilter | src/pages/dashboard-case-management-overview/index.jsx:12 | only the status filter changes |
| Dashboard.DashboardState.SetModuleFilter | src/pages/dashboard-case-management-overview/index.jsx:13 | only the module filter changes |
| Dashboard.DashboardState.SetSeverityFilter | src/pages/dashboard-case-management-overview/index.jsx:14 | only the severity filter changes |
| QuickStats.Stats | src/pages/dashboard-case-management-overview/components/QuickStats.jsx:5-57 | six cards, none counting more than the total |
| QuickStats.StatusCountsWithinTotal | src/pages/dashboard-case-management-overview/components/QuickStats.jsx:16-51 | the open, in-progress and expert-assigned counts add up to at most the total; resolved-today is at most the resolved count |
| QuickStats.HandleCardClick | src/pages/dashboard-case-management-overview/components/QuickStats.jsx:59-61 | the card's label reaches the callback iff one is supplied |
| QuickStats.HandleKeyDown | src/pages/dashboard-case-management-overview/components/QuickStats.jsx:63-68 | Enter and Space prevent the default and act as a click; any other key does nothing |
| CaseTable.NextSortConfig | src/pages/dashboard-case-management-overview/components/CaseTable.jsx:62-67 | the clicked column becomes the key; descending iff it was already the key and ascending |
| CaseTable.SortToggles | src/pages/dashboard-case-management-overview/components/CaseTable.jsx:62-67 | a new column starts ascending; clicking the same column twice returns to ascending |
| CaseTable.SortIcon | src/pages/dashboard-case-management-overview/components/CaseTable.jsx:87-90 | the neutral arrows on other columns; up or down on the sorted column by direction |
| CaseTable.Before | src/pages/dashboard-case-management-overview/components/CaseTable.jsx:43-57 | defines the table comparator: by the sort key, ascending or descending; a strict weak order by ComparatorOrder |
| CaseTable.KeyLessOrder | src/pages/dashboard-case-management-overview/components/CaseTable.jsx:45-54 | the per-column comparison is asymmetric and its incomparability transitive |
| CaseTable.ComparatorOrder | src/pages/dashboard-case-management-overview/components/CaseTable.jsx:43-57 | the table comparator, in either direction, is a strict weak order |
| CaseTable.SeveritySortsAlphabetically | src/pages/dashboard-case-management-overview/components/CaseTable.jsx:53-54 | ascending severity puts critical, high, low, medium in that (string) order |
| CaseTable.FilteredAndSorted | src/pages/dashboard-case-management-overview/components/CaseTable.jsx:32-60 | defines `filteredAndSortedCases`: the filtered cases, stably sorted by the configuration; stated by FilteredAndSortedSpec |
| CaseTable.FilteredAndSortedSpec | src/pages/dashboard-case-management-overview/components/CaseTable.jsx:32-60 | the rows are a stable sort of the filtered cases: same cases with multiplicity, sorted, ties in list order |
| CaseTable.FirstRowFirst | src/pages/dashboard-case-management-overview/components/CaseTable.jsx:43-57 | no filtered case sorts before the first row |
| CaseTable.FirstRowIsExtreme | src/pages/dashboard-case-management-overview/components/CaseTable.jsx:53-54 | ascending, the first row has the smallest key; descending, the largest |
| CaseTable.SelectAllChecksHeader | src/pages/dashboard-case-management-overview/components/CaseTable.jsx:92-93 | after select-all the header checkbox is checked iff some row is shown; with nothing selected it is unchecked |
| CaseTable.StatusBadge | src/pages/dashboard-case-management-overview/components/CaseTable.jsx:170 | an unknown status (other than a name of an object-prototype member) shows the Open badge |
| CaseTable.SeverityBadge | src/pages/dashboard-case-management-overview/components/CaseTable.jsx:171 | an unknown severity (other than a name of an object-prototype member) shows the Low badge |
| CaseTable.StatusBadgeFallback | src/pages/dashboard-case-management-overview/components/CaseTable.jsx:17-23 | the Open badge shows iff the status is none of the other four known statuses |
| CaseTable.EmptyState | src/pages/dashboard-case-management-overview/components/CaseTable.jsx:328-335 | the empty message shows iff no row; it suggests adjusting filters iff a filter is set |
| CaseTable.CaseTableView.constructor | src/pages/dashboard-case-management-overview/components/CaseTable.jsx:9 | sorting starts by creation date, descending |
| CaseTable.CaseTableView.HandleSort | src/pages/dashboard-case-management-overview/components/CaseTable.jsx:62-67 | the sort state becomes the next configuration for the clicked column |
| CaseTable.CaseTableView.FilteredAndSortedCases | src/pages/dashboard-case-management-overview/components/CaseTable.jsx:32-60 | the rows are the filtered cases in the current sort order, with the table state unchanged |
| CaseForm.WithField | src/pages/create-new-case-form/components/CaseFormModal.jsx:90-95 | only the edited field takes the new value |
| CaseForm.MessageEmptyIff | src/pages/create-new-case-form/components/CaseFormModal.jsx:92-94 | an error's message is empty iff it was cleared |
| CaseForm.TitleError | src/pages/create-new-case-form/components/CaseFormModal.jsx:70-74 | defines the title check: its error, when there is one, is "required" or "too short"; characterised by TitleErrorIff |
| CaseForm.DescriptionError | src/pages/create-new-case-form/components/CaseFormModal.jsx:76-80 | defines the description check: its error, when there is one, is "required" or "too short"; characterised by DescriptionErrorIff |
| CaseForm.TitleErrorIff | src/pages/create-new-case-form/components/CaseFormModal.jsx:70-74 | title required iff blank after trimming; too short iff not blank and under 5 characters; no error otherwise |
| CaseForm.DescriptionErrorIff | src/pages/create-new-case-form/components/CaseFormModal.jsx:76-80 | description required iff blank; too short iff not blank and under 20 characters; no error otherwise |
| CaseForm.FormErrors | src/pages/create-new-case-form/components/CaseFormModal.jsx:67-88 | defines the error map of `validateForm`; stated by the three `Recorded` lemmas and ValidIff |
| CaseForm.ErrorsFor | src/pages/create-new-case-form/components/CaseFormModal.jsx:67-88 | one entry per failed check, never one for severity or notification |
| CaseForm.TitleErrorRecorded | src/pages/create-new-case-form/components/CaseFormModal.jsx:70-74 | the error map has a title entry iff the title check fails, and it is that check's error |
| CaseForm.DescriptionErrorRecorded | src/pages/create-new-case-form/components/CaseFormModal.jsx:76-80 | the same for the description |
| CaseForm.ModuleErrorRecorded | src/pages/create-new-case-form/components/CaseFormModal.jsx:82-84 | a module entry exists iff no module is chosen |
| CaseForm.ValidIff | src/pages/create-new-case-form/components/CaseFormModal.jsx:86-87 | the form is valid iff the title and description pass and a module is chosen |
| CaseForm.DefaultFormInvalid | src/pages/create-new-case-form/components/CaseFormModal.jsx:11-17 | the blank form fails with title, description and module all required |
| CaseForm.FormatCaseId | src/pages/create-new-case-form/components/CaseFormModal.jsx:109 | defines the case id `CASE-<year>-<number padded to three digits>`; read back by CaseIdRoundTrip |
| CaseForm.PaddedNumber | src/pages/create-new-case-form/components/CaseFormModal.jsx:109 | a number under 1000 padded to three digits has three digits and the same value |
| CaseForm.ParseAssembledId | src/pages/create-new-case-form/components/CaseFormModal.jsx:109 | `CASE-<year>-<three digits>` reads back as the year and the number |
| CaseForm.CaseIdRoundTrip | src/pages/create-new-case-form/components/CaseFormModal.jsx:109 | the case id reads back as the year and the random number |
| CaseForm.NewCase | src/pages/create-new-case-form/components/CaseFormModal.jsx:112-122 | defines the case `handleSubmit` builds, from two separate clock readings for its dates; stated by NewCaseSpec |
| CaseForm.NewCaseSpec | src/pages/create-new-case-form/components/CaseFormModal.jsx:112-122 | the new case is open and unaccepted, has the form's title, description and severity, the module with its first letter upper-cased, an id that reads back as the year and number, and the two clock readings as its creation and update dates |
| CaseForm.RecordErrors | src/pages/create-new-case-form/components/CaseFormModal.jsx:68-85 | the error map built check by check is the specified one |
| CaseForm.CaseFormModal.constructor | src/pages/create-new-case-form/components/CaseFormModal.jsx:11-18 | the form starts blank (medium severity, no notification) with no errors |
| CaseForm.CaseFormModal.ValidateForm | src/pages/create-new-case-form/components/CaseFormModal.jsx:67-88 | the errors become the form's errors, and the result is true iff there are none |
| CaseForm.CaseFormModal.HandleInputChange | src/pages/create-new-case-form/components/CaseFormModal.jsx:90-95 | the field takes the value and its displayed error, if any, is cleared |
| CaseForm.CaseFormModal.HandleSubmit | src/pages/create-new-case-form/components/CaseFormModal.jsx:97-151 | an invalid form creates nothing and saves nothing; a valid one creates the specified case and puts it first in the saved list |
| CaseForm.CaseFormModal.HandleCancel | src/pages/create-new-case-form/components/CaseFormModal.jsx:153-163 | the form returns to blank with no errors |
| Timeline.NewerOrder | src/pages/case-timeline-activity-tracking/index.jsx:253 | newest-first is a strict weak order |
| Timeline.InDateRange | src/pages/case-timeline-activity-tracking/index.jsx:216-250 | defines the date-range filter relative to the start of today; stated by YesterdayIsTheDayBefore, RangesNest and CustomRangeCoversEndDay |
| Timeline.FilteredEntries | src/pages/case-timeline-activity-tracking/index.jsx:198-254 | defines `filteredEntries`: the entries passing the filters, newest first; stated by FilteredEntriesSpec |
| Timeline.FilteredEntriesSpec | src/pages/case-timeline-activity-tracking/index.jsx:198-254 | the list holds, with multiplicity, exactly the entries passing search, type and date filters, newest first, ties in listed order |
| Timeline.DefaultShowsEverything | src/pages/case-timeline-activity-tracking/index.jsx:198-254 | with no query and both selectors on "all", every entry is listed, newest first |
| Timeline.YesterdayIsTheDayBefore | src/pages/case-timeline-activity-tracking/index.jsx:227-230 | "yesterday" is exactly the day before today, and nothing of today |
| Timeline.RangesNest | src/pages/case-timeline-activity-tracking/index.jsx:225-238 | today and yesterday lie in the last 7 days, which lie in the last 30 |
| Timeline.CustomRangeCoversEndDay | src/pages/case-timeline-activity-tracking/index.jsx:239-246 | a custom range covers its whole end day; with a date missing everything passes |
| Timeline.ApplyFilters | src/pages/case-timeline-activity-tracking/index.jsx:200-250 | the filters applied one after another keep exactly the entries passing all three |
| Timeline.ComputeFilteredEntries | src/pages/case-timeline-activity-tracking/index.jsx:198-254 | copying, filtering and sorting in place yields the specified list |
| Breadcrumbs.RouteFor | src/components/ui/BreadcrumbNavigation.jsx:9-16 | the six known pages have a route and no other path does |
| Breadcrumbs.CaseCrumbName | src/components/ui/BreadcrumbNavigation.jsx:33 | the case name, or `Case #<id>` without one |
| Breadcrumbs.HandleBreadcrumbClick | src/components/ui/BreadcrumbNavigation.jsx:65-69 | navigation happens iff the crumb has a non-empty path, and goes there |
| Breadcrumbs.GenerateBreadcrumbs | src/components/ui/BreadcrumbNavigation.jsx:18-56 | Dashboard first, clickable away from the dashboard; then the case crumb iff there is a case outside dashboard and form; then the current page iff it is known; only the first is clickable |
| Breadcrumbs.DashboardShowsNothing | src/components/ui/BreadcrumbNavigation.jsx:60-63 | nothing is rendered on the dashboard |
| Breadcrumbs.CreateFormHasNoCaseCrumb | src/components/ui/BreadcrumbNavigation.jsx:31 | the create form shows no case crumb, and its page crumb is "Create Case" |
| PostmortemHeader.JsRemainder | src/pages/postmortem-analysis-documentation/components/PostmortemHeader.jsx:8 | the remainder takes the dividend's sign and is smaller in magnitude than the divisor |
| PostmortemHeader.FormatDuration | src/pages/postmortem-analysis-documentation/components/PostmortemHeader.jsx:6-10 | defines `formatDuration`; stated by DurationForms and DurationRoundTrip |
| PostmortemHeader.DurationSplits | src/pages/postmortem-analysis-documentation/components/PostmortemHeader.jsx:7-8 | hours and minutes add back to the duration, the minutes are below 60, and there is an hour part iff the duration is at least 60 |
| PostmortemHeader.DurationForms | src/pages/postmortem-analysis-documentation/components/PostmortemHeader.jsx:6-10 | `<h>h <m>m` from 60 minutes on, `<m>m` below |
| PostmortemHeader.DurationRoundTrip | src/pages/postmortem-analysis-documentation/components/PostmortemHeader.jsx:6-10 | every non-negative duration reads back from its text |
| PostmortemHeader.StatusColor | src/pages/postmortem-analysis-documentation/components/PostmortemHeader.jsx:12-19 | resolved, critical and urgent have their colours; every other status the primary one |
| PostmortemHeader.StatusLabel | src/pages/postmortem-analysis-documentation/components/PostmortemHeader.jsx:28 | the status with its first letter upper-cased, same length, same text ignoring case |
| StableSort.SortIsStable | src/utils/expertMatchingService.js:240 | sorting yields a sorted permutation in which each class of equivalent elements keeps its order |
| StableSort.SortInPlace | src/pages/case-timeline-activity-tracking/index.jsx:253 | sorting the array in place leaves it holding the specified stable sort of its old contents |
| Text.TrimEmptyIff | src/pages/create-new-case-form/components/CaseFormModal.jsx:70 | a trimmed text is empty iff the text is all whitespace |
| Text.CapitalizeFirstSameLower | src/pages/create-new-case-form/components/CaseFormModal.jsx:117 | upper-casing the first letter changes nothing ignoring case |
| Text.StrLessStrictOrder | src/pages/dashboard-case-management-overview/components/CaseTable.jsx:53-54 | string `<` is irreflexive, asymmetric, transitive and total on distinct strings |
| Text.NatToStringRoundTrip | src/pages/postmortem-analysis-documentation/components/PostmortemHeader.jsx:9 | a number's decimal text reads back as the number |

## Left out

- Letter case: `toLowerCase` and `toUpperCase` are modelled for ASCII letters only.
- Numbers: scores and weights are exact reals, not IEEE doubles. `Math.round` is `floor(x + 0.5)`, so the model does not capture floating-point rounding at exact halves after inexact arithmetic.
- Dates:
  - Instants are integer milliseconds, and days are 86 400 000 ms.
  - Time zones, daylight-saving changes and `toDateString` are not modelled.
  - "Start of today" and the custom-range dates (day-start instants) are parameters.
- String length is a count of characters, not of UTF-16 code units.
- Clocks and randomness: `Date.now()` (the analysis time), `new Date()` (the case-id year and, read separately, the creation and update dates of a new case) and `Math.random()` (the case number, below 1000) are parameters.
- Browser and framework effects are out of scope:
  - `localStorage`, window events, navigation and the simulated submit delay;
  - the submitting flag, toasts and React rendering.
- CaseForm.CaseFormModal.HandleInputChange: requires the value to have the field's type (text for text inputs, a flag for the checkbox), as the inputs guarantee.
- CaseTable sort keys are limited to the six sortable columns.
- CaseTable.StatusBadge: the source looks the status up in a plain object, so a status naming an object-prototype member (`toString`, `constructor`, `__proto__`) finds an inherited value instead of the Open badge. Such statuses are not modelled; the fallback is stated for every other unknown status.
- CaseTable.SeverityBadge: likewise, a severity naming an object-prototype member is not modelled; the Low fallback is stated for every other unknown severity.
- Other code is not part of this model:
  - the AI services (the Gemini client and the assistant components);
  - the expert-matching page that displays the result;
  - the swarm room and the remaining pages.
- ExpertMatching.ExpertMatchingService.GetExpertById: returns the expert as a value. The caller sharing the roster's object (aliasing) is not modelled.
- PostmortemHeader: durations are whole minutes; fractional minutes are not modelled. Negative whole minutes are formatted as the source does, but the round trip is stated for non-negative minutes only.
- Dashboard.StatClickShowsCardCount: the Resolved Today card filters by the "resolved" status, so it lists every resolved case. The lemma states "at least the card's count", not equality.
- ExpertMatching.KeyFactorsSpec: bounds the list and fixes its first entries (the skill factors). It does not list every condition of the remaining factors; that is given by `GenerateKeyFactors` and the `KeyFactors` function it is proved equal to.
- Breadcrumbs: a missing case id or case name is the empty string; the other falsy values reduce to it.

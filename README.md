# quality-insights metrics core in Dafny

This project models the metrics and report-checking layer of the
quality-insights agent, which turns delivery, test-execution and incident
records into a team quality report. It covers:

- the records of the three sources: Jira tickets and sprints, Zephyr test
  executions and cycles, and incidents. It includes their derived metrics:
  velocity, pass rate, time to resolve and mean time to resolve.
- the analysis tools over those records: sprint metrics, velocity trend, test
  pass rate, flaky tests, incident summary, and MTTR (mean time to resolve)
  by severity.
- the quality report: its critical problems and its Markdown rendering.
- the two checks the agent runs on its own draft: the format validator and
  the quality scorer.

One module per source file:

- `JiraModel`, `ZephyrModel`, `IncidentModel` and `ReportModel` are the
  record types and their derived properties.
- `JiraTools`, `ZephyrTools`, `IncidentTools` and `ValidatorTools` are the
  tools.
- `Wrappers`, `Sequences`, `Numeric` and `Text` hold shared definitions:
  - `Option`;
  - first match, filter and subsequence;
  - sums, means and Python's `round(x, 2)`;
  - ASCII case mapping, substring search, `split()`, `count` and `"\n".join`.

Data the tools load from the record store are parameters. Each loop of the
source is a `method` proved against a specification function. Pure
computations are functions, with lemmas for what the tools promise.

## Model

| member | source | states |
|---|---|---|
| JiraModel.CompletionPercent | src/models/jira.py:41-46 | the percentage is 0 with nothing planned, otherwise exactly `100*completed/planned`; it is non-negative and at most 100 when completed ≤ planned |
| JiraModel.SprintMetrics.Velocity | src/models/jira.py:41-46 | the velocity has two decimals, lies within 0.005 of the exact completion percentage, is 0 with nothing planned, and is in [0, 100] when completed ≤ planned |
| JiraModel.StatusCountsPartition | src/tools/jira_tools.py:39-42 | every ticket has exactly one of the four statuses, so the four status counts add up to the number of tickets |
| JiraModel.CompletedAtMostDone | src/models/jira.py:26-29 | completed tickets never outnumber done tickets |
| JiraModel.DoneButNotCompleted | src/models/jira.py:26-29 | a done ticket without a completion time counts as done but not as completed |
| JiraModel.VelocityScenario | src/models/jira.py:41-46 | 35 of 48 planned points gives velocity 72.92 |
| JiraTools.Summarize | src/tools/jira_tools.py:38-60 | the summary keeps the sprint's name, points and date range and its velocity; the completed, in-progress and blocked counts are the numbers of tickets with status done, in progress and blocked, and with the to-do count they add up to the ticket total; the completed count includes every ticket that `is_completed` |
| JiraTools.SummaryCountsDoneNotCompleted | src/tools/jira_tools.py:40 | a sprint whose one ticket is done but has no completion time reports one completed ticket, although no ticket `is_completed` |
| JiraTools.GetSprintMetrics | src/tools/jira_tools.py:27-36 | a given name selects the first sprint with that name, or returns only the error "Sprint '…' not found" exactly when none has it; no name selects the last sprint |
| JiraTools.Window | src/tools/jira_tools.py:80 | Python's `xs[-n:]`: a suffix of the list holding the last `n` (at most all) for positive `n`, all of it for 0, and all but the first `-n` for negative `n` |
| JiraTools.Velocities | src/tools/jira_tools.py:95 | one velocity per entry, in order |
| JiraTools.SprintVelocities | src/tools/jira_tools.py:82-92 | the loop yields, per sprint in order, its name and its rounded velocity (the model's `Velocity`) |
| JiraTools.TrendDirection | src/tools/jira_tools.py:99-113 | with a positive first velocity, the trend is improving iff last > 1.05·first and declining iff last < 0.95·first; with a zero first velocity it is stable |
| JiraTools.LowestIndex | src/tools/jira_tools.py:119 | `min` by velocity: the entry is ≤ every entry and is the first such |
| JiraTools.HighestIndex | src/tools/jira_tools.py:120 | `max` by velocity: the entry is ≥ every entry and is the first such |
| JiraTools.TrendOf | src/tools/jira_tools.py:94-130 | the lowest and highest entries bound every velocity and the rounded average lies between them; the change and trend are those of the velocity list; the period text is "Last N sprints" |
| JiraTools.GetVelocityTrend | src/tools/jira_tools.py:79-130 | the entries are the rounded velocities of exactly the last `num_sprints` sprints, in order, and the statistics are those of TrendOf |
| JiraTools.AverageBetween | src/tools/jira_tools.py:96 | the rounded mean of two-decimal velocities lies between any two-decimal bounds of them |
| JiraTools.TrendScenario | src/tools/jira_tools.py:99-111 | velocities 96.0 then 72.92 give a change of -24.04 and a declining trend |
| ZephyrModel.StatusCountsPartition | src/models/zephyr.py:38-61 | every execution has exactly one of the four statuses, so the four counts add up to the number of executions |
| ZephyrModel.PassPercent | src/tools/zephyr_tools.py:46 | the percentage is in [0, 100], is 0 without executions, and otherwise equals exactly `100*passed/total` |
| ZephyrModel.RoundedPercent | src/models/zephyr.py:63-68 | the rounded percentage has two decimals, stays in [0, 100] and lies within 0.005 of the exact one |
| ZephyrModel.TestCycleMetrics.PassRate | src/models/zephyr.py:63-68 | the pass rate is 0 for an empty cycle; it has two decimals, is in [0, 100], and lies within 0.005 of the exact percentage |
| ZephyrModel.CycleCountersPartition | src/models/zephyr.py:38-61 | each of the passed, failed, blocked and skipped counters is at most the total, and the four add up to it |
| ZephyrTools.SummarizeCycle | src/tools/zephyr_tools.py:38-57 | the summary's counters are the cycle's status counts and add up to its total; its pass rate is the cycle's `pass_rate` |
| ZephyrTools.GetTestPassRate | src/tools/zephyr_tools.py:27-36 | a given name selects the first cycle with that name, or returns only the error "Test cycle '…' not found" exactly when none has it; no name selects the last cycle |
| ZephyrTools.TallyOf | src/tools/zephyr_tools.py:83-89 | a test's tally never has more passes than runs |
| ZephyrTools.TallyCounts | src/tools/zephyr_tools.py:83-89 | a test's total is its number of executions and its passed count is its number of passing executions |
| ZephyrTools.TallyName | src/tools/zephyr_tools.py:85-86 | a test's record carries the name of the last execution of that test |
| ZephyrTools.FirstSeenExact | src/tools/zephyr_tools.py:83-86 | the dictionary's keys are exactly the executed test ids, each once, in first-seen order |
| ZephyrTools.NotSeenTally | src/tools/zephyr_tools.py:85-86 | a test id never executed has the fresh tally (no runs, no passes, no name) |
| ZephyrTools.TallyStep | src/tools/zephyr_tools.py:84-89 | recording one execution keeps the dictionary equal to the tally of everything seen, adding the id to the key order only when it is new |
| ZephyrTools.RecordExecutions | src/tools/zephyr_tools.py:84-89 | the inner loop extends the tallies and key order to cover the executions just recorded |
| ZephyrTools.TallyExecutions | src/tools/zephyr_tools.py:79-89 | after both loops each key's tally counts its runs and passes over all cycles, and the keys are in first-seen order |
| ZephyrTools.SelectFlaky | src/tools/zephyr_tools.py:92-109 | the selection loop yields, in key order, the entry of each test with enough runs and a run pass rate strictly between 0 and the threshold |
| ZephyrTools.CandidatesExact | src/tools/zephyr_tools.py:92-109 | every selected entry is flaky, has passes, has failed = executions − passed, and has failures when the threshold is at most 1; every flaky test is selected |
| ZephyrTools.Insert | src/tools/zephyr_tools.py:112 | inserting adds exactly one element (as a multiset) |
| ZephyrTools.SortByRate | src/tools/zephyr_tools.py:112 | sorting is a permutation of its input |
| ZephyrTools.InsertSorted | src/tools/zephyr_tools.py:112 | inserting into a list sorted by pass rate keeps it sorted |
| ZephyrTools.SortByRateSorted | src/tools/zephyr_tools.py:112 | the result is ordered by ascending pass rate |
| ZephyrTools.InsertKeepsTies | src/tools/zephyr_tools.py:112 | inserting keeps the inserted element ahead of the elements with the same pass rate, whose own order is unchanged |
| ZephyrTools.SortByRateStable | src/tools/zephyr_tools.py:112 | like Python's `sort`, the sort is stable: entries with equal pass rates keep their input order |
| ZephyrTools.GetFlakyTests | src/tools/zephyr_tools.py:61-120 | the list is the flaky selection in first-seen order, sorted stably by pass rate; the count is its length; the period text is "Analyzed N test cycles" |
| ZephyrTools.FlakyReportShape | src/tools/zephyr_tools.py:61-120 | the tool's list is sorted by pass rate, holds only flaky tests with their true tallies, and holds every flaky executed test |
| ZephyrTools.FlakyScenario | src/tools/zephyr_tools.py:92-109 | one pass and two failures, with threshold 0.7 and minimum 3, are reported with pass rate 33.33 and 2 failures |
| IncidentModel.Severity.Name | src/models/incident.py:8-13 | every severity's stored name is non-empty |
| IncidentModel.NameInjective | src/models/incident.py:8-13 | two severities have the same stored name exactly when they are the same |
| IncidentModel.HoursBetween | src/models/incident.py:35-37 | the hours times 3600 are the elapsed seconds |
| IncidentModel.Incident.TimeToResolveHours | src/models/incident.py:31-37 | the time to resolve is absent exactly when the incident is unresolved; otherwise it has two decimals and lies within 0.005 of the exact hours |
| IncidentModel.SeverityCountsPartition | src/models/incident.py:49-67 | the four severity counts add up to the number of incidents |
| IncidentModel.ResolvedTimes | src/models/incident.py:77-81 | there is one resolution time per resolved incident |
| IncidentModel.UnresolvedIgnored | src/models/incident.py:74-84 | inserting an unresolved incident anywhere in the list changes neither the resolution times nor the resolved count |
| IncidentModel.IncidentMetrics.MeanTimeToResolve | src/models/incident.py:74-84 | the mean is 0 when nothing is resolved; otherwise it has two decimals and lies within 0.005 of the mean of the rounded resolution times |
| IncidentModel.MetricsCountersPartition | src/models/incident.py:44-72 | the four severity counters add up to the total, and the resolved counter does not exceed it |
| IncidentModel.MeanTimeToResolveBounds | src/models/incident.py:74-84 | the mean lies between any two-decimal bounds of the resolution times, and adding an unresolved incident leaves it unchanged |
| IncidentModel.ResolutionScenario | src/models/incident.py:31-37 | an incident resolved 23400 seconds after it was reported takes 6.5 hours |
| IncidentTools.SelectedExact | src/tools/incident_tools.py:32-45 | an incident is selected exactly when it was reported within the last `days` days and, when a severity is given, its stored severity equals the lower-cased filter; the selection keeps the stored order |
| IncidentTools.SeverityTallyKeys | src/tools/incident_tools.py:53-55 | the breakdown has a key exactly for each severity that occurs |
| IncidentTools.SeverityTallyCounts | src/tools/incident_tools.py:53-55 | each severity's entry (0 when absent) is the number of incidents with that severity |
| IncidentTools.SeverityTallyTotal | src/tools/incident_tools.py:53-55 | the four entries of the breakdown add up to the number of incidents |
| IncidentTools.TallySeverities | src/tools/incident_tools.py:53-55 | the loop's counter map is the severity breakdown of the incidents |
| IncidentTools.AffectedUsersAppend | src/tools/incident_tools.py:58 | the total of affected users over two lists is the sum of their totals |
| IncidentTools.EntryOf | src/tools/incident_tools.py:68-78 | a listed incident keeps its id and stored severity, and is marked resolved exactly when it is |
| IncidentTools.GetIncidentSummary | src/tools/incident_tools.py:10-79 | over the selected incidents: the total, the resolved count (resolved + unresolved = total), the severity breakdown, the affected users and one entry per incident in order; the period text is "Last N days"; the filter is the given severity or "all" |
| IncidentTools.AllHours | src/tools/incident_tools.py:114 | there is one hours value per resolved incident |
| IncidentTools.AbsentHours | src/tools/incident_tools.py:101-106 | a severity that never occurs among resolved incidents has no hours |
| IncidentTools.GroupStep | src/tools/incident_tools.py:101-106 | one step of the grouping loop keeps each severity's list equal to the hours of its resolved incidents, in order, with the keys in first-seen order; unresolved incidents change nothing |
| IncidentTools.GroupBySeverity | src/tools/incident_tools.py:101-106 | the grouping loop maps each severity of a resolved incident to its hours, in order, with the keys in first-seen order |
| IncidentTools.FlattenOther | src/tools/incident_tools.py:114 | changing the list of a key outside the key order does not change the flattened list |
| IncidentTools.FlattenAppend | src/tools/incident_tools.py:114 | appending hours to an existing key adds them to the flattened length and sum |
| IncidentTools.FlattenNew | src/tools/incident_tools.py:114 | a new key holding one hours value appends that value to the flattened list |
| IncidentTools.FlattenMatchesAll | src/tools/incident_tools.py:114-115 | the per-severity lists, flattened in key order, have the same length and sum as the hours of all resolved incidents |
| IncidentTools.GroupedOfKeys | src/tools/incident_tools.py:101-106 | the grouped map's keys are exactly the key order, which has no repeats |
| IncidentTools.GroupedOfIs | src/tools/incident_tools.py:101-106 | the reference grouping satisfies the grouping invariant |
| IncidentTools.GroupedUnique | src/tools/incident_tools.py:101-106 | the grouping invariant determines the map and the key order |
| IncidentTools.MeanPerKey | src/tools/incident_tools.py:109-111 | the loop gives each key its rounded mean (0 for an empty list), and nothing else |
| IncidentTools.GroupedTotals | src/tools/incident_tools.py:114-115 | the grouped lists together hold one value per resolved incident, with the same sum as all their hours |
| IncidentTools.GetMttrBySeverity | src/tools/incident_tools.py:83-128 | there is a key exactly for each severity with a resolved incident; its MTTR is the rounded mean of that severity's hours and its count is their number; the resolved total is the resolved count; overall MTTR is 0 with nothing resolved, otherwise the rounded mean of all hours; the note is fixed; the per-severity counts add up to the resolved total, and the per-severity MTTRs weighted by their counts are within a cent per incident of the overall MTTR times the resolved total |
| IncidentTools.GroupedOrderExact | src/tools/incident_tools.py:101-106 | the key order holds exactly the severities that have a resolved incident |
| IncidentTools.MttrConsistent | src/tools/incident_tools.py:108-128 | a report whose maps are those of the MTTR tool has per-severity counts adding up to its resolved total, and count-weighted MTTRs within a cent per incident of its overall MTTR times that total |
| IncidentTools.MttrPerSeverity | src/tools/incident_tools.py:108-122 | each severity's count in the report (0 when absent) is its number of resolved incidents, and its MTTR is their rounded mean when there is one |
| IncidentTools.HoursOfStep | src/tools/incident_tools.py:101-106 | one more resolved incident adds its hours to the list of its own severity only |
| IncidentTools.HoursOfPartition | src/tools/incident_tools.py:101-115 | the four per-severity hour lists hold one value per resolved incident, and their sums add up to the sum of all the hours |
| IncidentTools.WeightedMeanExact | src/tools/incident_tools.py:108-115 | the unrounded per-severity means, weighted by their counts, add up to exactly the total of all resolution hours |
| IncidentTools.WeightedFour | src/tools/incident_tools.py:108-115 | for four lists whose sums make up a total, their count-weighted means make up the same total |
| IncidentTools.CountTimesMean | src/tools/incident_tools.py:110 | a mean times the number of values is their sum |
| IncidentTools.RoundedCountTimesMean | src/tools/incident_tools.py:110-111 | a mean rounded to two decimals, times the number of values, is within half a cent per value of their sum |
| IncidentTools.TimesIsProduct | src/tools/incident_tools.py:110-115 | adding up n copies of a value is multiplying it by n |
| IncidentTools.WeightedTerm | src/tools/incident_tools.py:108-122 | one severity's MTTR times its count is within half a cent per incident of the sum of its hours |
| IncidentTools.OverallTerm | src/tools/incident_tools.py:114-115 | the overall MTTR times the resolved total is within half a cent per incident of the sum of all hours |
| IncidentTools.ReportWithin | src/tools/incident_tools.py:114-128 | a weighted total within half a cent per incident of all the hours is within a cent per incident of the overall MTTR times the resolved total |
| IncidentTools.MttrReportTotals | src/tools/incident_tools.py:108-128 | given per-severity counts and MTTRs that match the hours, the counts add up to the resolved total and the count-weighted MTTRs are within a cent per incident of the overall MTTR times the total |
| IncidentTools.OutageSelected | src/tools/incident_tools.py:32-45 | a critical outage reported one day before now is in the default 30-day summary |
| IncidentTools.OutageMttr | src/tools/incident_tools.py:101-111 | an outage resolved 6.5 hours after it was reported gives a critical MTTR of 6.5 hours |
| ReportModel.CriticalProblemsExact | src/models/report.py:31-39 | the critical problems are exactly the critical problem areas, in report order; the report has critical issues iff some area is critical |
| ReportModel.BulletLinesEach | src/models/report.py:60-61 | the k-th bullet line is "- " followed by the k-th recommendation |
| ReportModel.AppendBullets | src/models/report.py:60-61 | the recommendation loop appends exactly the bullet lines |
| ReportModel.ToMarkdown | src/models/report.py:41-77 | the Markdown is the header, the numbered blocks of the problem areas in order and the detailed analysis, joined with newlines |
| ReportModel.ProblemsLinesLength | src/models/report.py:53-62 | each problem block has five lines plus one per recommendation |
| ReportModel.ReportLinesShape | src/models/report.py:41-77 | the report has 17 fixed lines plus the blocks; it opens with the title line and the header, and closes with the ten lines of the detailed analysis |
| ReportModel.ProblemsLinesPrefix | src/models/report.py:53-62 | the blocks of the first k areas are a prefix of the blocks of all areas |
| ReportModel.ProblemLinesContent | src/models/report.py:53-62 | a block is a heading, the description, a blank line, the recommendations label, one bullet per recommendation, then a blank line |
| ReportModel.ProblemsLinesSnoc | src/models/report.py:53-62 | area i is rendered under number i + 1, after the areas before it |
| ReportModel.ProblemBlockAt | src/models/report.py:53-62 | in the full rendering, area i's block (numbered i + 1) follows directly the blocks of the areas before it |
| ReportModel.MarkdownStartsWithTitle | src/models/report.py:43-44 | the Markdown text opens with "# Quality Report: <team>" and a newline |
| ValidatorTools.MissingExact | src/tools/validator_tools.py:34-39 | a section is reported missing exactly when it is required and absent from the lower-cased text, in the required order |
| ValidatorTools.NoneMissing | src/tools/validator_tools.py:34-39 | no section is missing exactly when every required keyword occurs |
| ValidatorTools.MissingSections | src/tools/validator_tools.py:36-39 | the section loop yields exactly the missing keys, in order |
| ValidatorTools.DiagnosticsExact | src/tools/validator_tools.py:44-57 | the too-short error, the too-long warning, the no-numbers warning and the no-recommendations warning are each raised iff their condition holds; the length error and the length warning never occur together |
| ValidatorTools.Diagnose | src/tools/validator_tools.py:41-57 | the checks produce exactly the specified errors and warnings, in order |
| ValidatorTools.ValidateReportFormat | src/tools/validator_tools.py:23-68 | the result lists the missing sections, the word count, the errors and the warnings; it is valid exactly when the report has at least 100 words and no section is missing |
| ValidatorTools.SummaryRequired | src/tools/validator_tools.py:23-39 | a report that never says "summary" always lists it as missing |
| ValidatorTools.Outcomes | src/tools/validator_tools.py:93-161 | there is one outcome per content check |
| ValidatorTools.CountContained | src/tools/validator_tools.py:135-143 | the number of data sources mentioned is at most the number of source keywords |
| ValidatorTools.TotalPenalty | src/tools/validator_tools.py:93-161 | every check costs at least 15 points |
| ValidatorTools.AssessShape | src/tools/validator_tools.py:93-161 | each check yields either a strength or an improvement area, and every improvement area comes with a recommendation |
| ValidatorTools.AssessPenaltyBound | src/tools/validator_tools.py:93-161 | the points lost never exceed the sum of the checks' penalties |
| ValidatorTools.AssessNoPenalty | src/tools/validator_tools.py:93-161 | no points are lost exactly when every check passes |
| ValidatorTools.AssessRecords | src/tools/validator_tools.py:93-161 | a check's strength is listed iff it passed, and its improvement area and recommendation iff it failed |
| ValidatorTools.PenaltiesTotal100 | src/tools/validator_tools.py:93-161 | the six penalties add up to exactly 100 |
| ValidatorTools.ScoreNeverFloored | src/tools/validator_tools.py:163-164 | the points lost never exceed 100, so the floor at 0 never applies |
| ValidatorTools.ScoreToGrade | src/tools/validator_tools.py:176-187 | the grade is A iff score ≥ 90, B iff 80 ≤ score < 90, C iff 70 ≤ score < 80, D iff 60 ≤ score < 70, and F iff score < 60 |
| ValidatorTools.GradeMonotone | src/tools/validator_tools.py:176-187 | a higher score never earns a lower grade |
| ValidatorTools.PassingIsAtLeastC | src/tools/validator_tools.py:172 | passing the quality check (score ≥ 70) is the same as earning at least a C |
| ValidatorTools.ScoreOutcomes | src/tools/validator_tools.py:91-173 | the score loop gives the assessment's lists and 100 minus its penalty, floored at 0; the score is in [0, 100] and is 100 iff every check passes; the grade and the pass flag follow the score |
| ValidatorTools.CheckReportQuality | src/tools/validator_tools.py:71-173 | the same as ScoreOutcomes, for the six outcomes measured on the report text |
| ValidatorTools.CheckRecords | src/tools/validator_tools.py:93-161 | over the six checks, each check's strength appears iff it passed, and its improvement area and recommendation iff it failed |
| Numeric.Round2 | src/models/jira.py:46 | Python's `round(x, 2)`: the result has two decimals and lies within 0.005 of `x` |
| Numeric.Round2Within | src/models/zephyr.py:68 | rounding keeps a value between two-decimal bounds |
| Text.ContainsIffOccurs | src/tools/validator_tools.py:38 | Python's `in` on strings holds exactly when the pattern occurs at some position |
| Text.WordsShape | src/tools/validator_tools.py:45 | the words of `split()` are non-empty and contain no whitespace |

## Left out

- The record store that loads data is not part of this model. Sprints, cycles and incidents are parameters of each tool, in their stored order.
- The raw JSON records are modelled by the typed datatypes. Field access on dictionaries becomes field access on those datatypes.
- The LangChain `@tool` decorators and their docstring schemas are left out.
- Reading the clock is left out. `datetime.now`, `fromisoformat` and `timedelta` become integer seconds and a `now` parameter.
- The report's generation time is carried as a string already formatted by `strftime`.
- Floating point is left out. Ratios are exact reals, and `round(x, 2)` is exact round-half-even on reals (`Numeric.Round2`). Binary-float representation effects near ties are not modelled.
- Text functions (`lower`, `upper`, `title`, `isdigit`, `split`) are modelled on ASCII only. Unicode case mapping and Unicode whitespace are not modelled.
- Dictionary insertion order is modelled explicitly where the result depends on it: the flaky-test dictionary and the severity-to-hours dictionary carry a key-order sequence.
- The `by_severity`, `mttr_by_severity` and `resolved_incidents_by_severity` maps in the tools' results are Dafny maps, whose key order is not modelled.
- `completion_rate` (src/models/jira.py:49-51) and `pass_rate_str` (src/models/zephyr.py:71-73) only format a float followed by "%". Python's float-to-string formatting is not modelled.
- ValidatorTools.CheckReportQuality: the six copy-paste check blocks are one loop over a table of checks, with the same order, penalties and messages. The text conditions are factored into `Outcomes`.
- ValidatorTools.ValidateReportFormat: the section loop and the length, data and recommendation checks are factored into `MissingSections` and `Diagnose`. The order and messages are those of the source.
- JiraTools.GetSprintMetrics: with no name and no sprints the source raises an IndexError. The model requires a name or at least one sprint.
- ZephyrTools.GetTestPassRate: the same applies with no name and no cycles.
- JiraTools.GetVelocityTrend: when the selected window is empty, `min` raises in the source. The model requires a non-empty window.
- JiraTools.Summarize: the velocity is exact real arithmetic (see above). The completed count is the number of done tickets, as in the source, not the number of completed tickets.
- ZephyrTools.SortByRate: the in-place `list.sort` is modelled as a stable insertion sort on values. Sorting in place and aliasing of the list are not modelled.
- IncidentTools.GetMttrBySeverity averages the unrounded hours of each incident, as the tool does. `IncidentModel.IncidentMetrics.MeanTimeToResolve` averages the rounded per-incident hours, as the model property does. The two can differ by rounding.
- Default arguments are not modelled as such: each tool takes every argument explicitly. The source's defaults are the constants `JiraTools.DefaultNumSprints` (6), `ZephyrTools.DefaultThreshold` (0.7), `ZephyrTools.DefaultMinExecutions` (3) and `IncidentTools.DefaultDays` (30). A `None` name or severity is `Option.None`.

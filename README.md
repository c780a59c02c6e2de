# Retail workforce backend: a verified model of its deterministic core

This project models the rule code of a retail workforce-management backend and proves
properties of it. The backend has a simulated data platform, four families of AI agents
(sentiment, scheduling, retention, learning), a synthetic data generator, a demand
forecaster and the HTTP handlers. The model covers the code around them that is not a
foreign call:

- the in-memory streaming service, warehouse status and capped event log of the simulated
  platform (`MockCdp`, three classes with the source's fields);
- the text parsers and rule functions of the sentiment agents (`Sentiment`);
- the fallback schedule, the compiled result and its in-place day normalisation, the
  fallback cost, the compliance keyword check and the employee filter of the scheduling
  agents (`Scheduling`, with the `SchedulingManager` class);
- the JSON window shared by the agents' reply parsers (`JsonWindow`), and the
  deterministic fields of the retention and learning results (`RetentionAgents`,
  `LearningAgents`);
- the business rules inside the HTTP handlers: pulse scoring, the schedule date window,
  per-employee retention risk and its summary, the sentiment heat map and the executive
  summary (`Handlers`);
- the rules of the synthetic data generator (`DataGenerator`) and the bookkeeping of the
  demand forecaster (`Forecasting`, with the `ForecastingEngine` class).

Supporting modules:

- `Wrappers` holds Option, Result and Python's list idioms.
- `JsonData` holds JSON values, Python truthiness and `dict.get`.
- `Text` holds ASCII string helpers: find/rfind, strip, lower, split and number formatting.
- `Calendar` holds the weekday of a day number.

Modelling conventions:

- Every agent reply is a parameter.
- So is every random draw, the current time and `json.loads` (`loads: string -> Option<Json>`).
- A Python exception that the source does not catch is an `Err` of a `Result`: `KeyError`,
  `TypeError`, `AttributeError` or `ZeroDivisionError`.
- Decimal quantities are exact reals.
- Python's `int()` truncation is written out (`Trunc`).

## Model

| member | source | states |
|---|---|---|
| MockCdp.DataFlow.constructor | backend/mock_cdp.py:294-298 | no topics, no subscribers, status idle, nothing delivered |
| MockCdp.DataFlow.CreateTopic | backend/mock_cdp.py:300-303 | both the message list and the subscriber list of the topic become empty even if it existed; every other topic is unchanged |
| MockCdp.DataFlow.Publish | backend/mock_cdp.py:305-324 | exactly one message with this topic and data is appended to the topic's list; every other topic is unchanged; a missing topic is created first, which empties its subscriber list; each subscriber is invoked once, in registration order; status ends idle |
| MockCdp.DataFlow.Subscribe | backend/mock_cdp.py:326-330 | the callback joins the end of the topic's subscriber list, created if absent; messages untouched |
| MockCdp.DataFlow.RecentMessages | backend/mock_cdp.py:332-336 | `[]` for an unknown topic; Python's `messages[-limit:]`: the last min(limit, n) for limit >= 1, the whole list for 0, a suffix for negative limits |
| MockCdp.InvokeAll | backend/mock_cdp.py:321-322 | the loop over the subscribers yields one delivery per subscriber, in order |
| MockCdp.Deliveries | backend/mock_cdp.py:321-322 | one delivery per subscriber, position by position |
| MockCdp.DeliveriesAppend | backend/mock_cdp.py:321-322 | a subscriber added last is invoked last |
| MockCdp.TaggedAppend | backend/mock_cdp.py:312-318 | appending a message under its own topic keeps every stored message tagged with the topic it is stored under |
| MockCdp.SubscribeBeforeCreateIsDropped | backend/mock_cdp.py:300-330 | a callback subscribed before its topic exists receives nothing from the first publish, which stores exactly one message |
| MockCdp.SubscribersNotifiedInOrder | backend/mock_cdp.py:320-330 | two subscribers of an existing topic are invoked in the order they subscribed |
| MockCdp.Warehouse.constructor | backend/mock_cdp.py:29-34 | status idle; the four schema tables exist and are empty |
| MockCdp.Warehouse.Query | backend/mock_cdp.py:98-116 | ends idle with the rows on success, error with the failure when the engine raises |
| MockCdp.Warehouse.InsertBulk | backend/mock_cdp.py:118-135 | empty data ends idle without writing; an accepted insert appends the rows to the table and ends idle; a failing insert leaves status processing and the tables unchanged |
| MockCdp.MachineLearning.constructor | backend/mock_cdp.py:141-150 | status idle and not trained |
| MockCdp.KeepNewest | backend/mock_cdp.py:378-380 | the newest min(n, cap) events, as a suffix of the log |
| MockCdp.Platform.constructor | backend/mock_cdp.py:342-346 | fresh components, all three idle, an untrained model, an empty event log and an empty stream |
| MockCdp.Platform.InitializeTopics | backend/mock_cdp.py:351-362 | the five standard topics exist with empty message and subscriber lists; every other topic keeps its messages and subscribers; the status and the deliveries are unchanged |
| MockCdp.Platform.LogEvent | backend/mock_cdp.py:364-380 | the event is appended and the log cut to the newest 1000, so its length stays at most 1000 and the new event is last; the `system_metrics` topic gains the event, stamped by its own clock read, and is never trimmed; every other topic is unchanged; the subscribers are unchanged unless the topic had to be created; each `system_metrics` subscriber is invoked once, in order; the stream ends idle |
| MockCdp.Platform.Status | backend/mock_cdp.py:382-391 | total events equals the log length (at most 1000); the warehouse, ML platform and data-flow statuses are reported by value; uptime 99.9% and the current time |
| Sentiment.ParseRootCauses | backend/sentiment_agents.py:605-625 | the loop over the lines yields the accepted lines completed by the defaults |
| Sentiment.CompleteCauses | backend/sentiment_agents.py:616-625 | exactly 4 items: item i is the i-th accepted cause when there is one, otherwise the i-th default |
| Sentiment.AcceptedCausesFromLines | backend/sentiment_agents.py:610-614 | every accepted cause is longer than 10 characters and is the cleaned text of an input line that starts with a digit, `-` or `•` after stripping |
| Sentiment.NoItemsGivesDefaults | backend/sentiment_agents.py:605-625 | with no accepted line the result is the four defaults |
| Sentiment.GenerateRecommendations | backend/sentiment_agents.py:422-447 | TypeError exactly when a factor value cannot be compared; otherwise the specific items followed by the generics |
| Sentiment.SpecificRecommendationRules | backend/sentiment_agents.py:426-437 | which specific items appear, in the order overtime, satisfaction, tenure, performance |
| Sentiment.WithGenerics | backend/sentiment_agents.py:439-447 | 3 to 5 items; the specific ones come first; the three generic ones are appended only when fewer than 3 specific ones apply |
| Sentiment.MissingTenureGetsOnboarding | backend/sentiment_agents.py:433-434 | a record without `tenure_days` counts as tenure 0 and always gets the onboarding item |
| Sentiment.ScoreOf | backend/sentiment_agents.py:400-401 | a missing score counts as 50; a non-numeric one raises TypeError |
| Sentiment.DetermineTrend | backend/sentiment_agents.py:392-406 | stable for a missing history or fewer than 2 entries; otherwise, over the window of the last three entries (or both of two), TypeError exactly when one of the three scores read is not a number, improving exactly when the mean of the last two exceeds the window's first by more than 5, declining exactly when it is more than 5 below |
| Sentiment.TrendUsesLastThree | backend/sentiment_agents.py:392-406 | only the last three entries decide the trend |
| Sentiment.TrendOfTwo | backend/sentiment_agents.py:398-406 | with two entries the trend moves only when the second score differs from the first by more than 10 |
| Sentiment.UnscoredHistoryIsStable | backend/sentiment_agents.py:400-401 | a history whose entries carry no score is stable |
| Sentiment.DigitRun | backend/sentiment_agents.py:348-350 | the longest prefix of digits |
| Sentiment.FirstNumber | backend/sentiment_agents.py:348-350 | none exactly when the text has no digit; otherwise a non-negative number |
| Sentiment.FirstNumberSkipsText | backend/sentiment_agents.py:348-350 | text without digits in front of the first number does not change it |
| Sentiment.ExtractScore | backend/sentiment_agents.py:341-353 | a dict gives the default when the key is missing, the key's number, `float()` of the key's string or the default when that fails, and the default for any other value; text ignores the key and gives its first number, or the default when it has no digit |
| Sentiment.ExtractValue | backend/sentiment_agents.py:355-368 | a dict gives its string or the default; text is checked for 'positive' before 'negative', case-insensitively |
| Sentiment.RiskLevelOf | backend/sentiment_agents.py:414-420 | high exactly above 70, low exactly at or below 40, medium between |
| Sentiment.CalculateRiskLevel | backend/sentiment_agents.py:408-420 | high exactly when 0.6·(100 − sentiment) + 0.4·burnout exceeds 70, low exactly when it is at most 40, over the extracted scores; replies without digits use 70 and 30 and give low |
| Sentiment.RiskLevelMonotone | backend/sentiment_agents.py:408-420 | a higher sentiment or burnout score never lowers the level |
| Sentiment.ParseJsonResponse | backend/sentiment_agents.py:370-390 | a dict is returned unchanged; text whose first-`{`-to-last-`}` window parses gives the parse; text without a window, or whose window does not parse, gives the record with 300 characters of insights and confidence 0.75 |
| Sentiment.ConcernsOf | backend/sentiment_agents.py:452-454 | no concern without `key_drivers` or without a 'negative' driver; a list of negatives contributes its items and a string its characters; every failure is a TypeError of a sentiment that has `key_drivers` |
| Sentiment.Count | backend/sentiment_agents.py:457-459 | positive exactly for the values that occur |
| Sentiment.Distinct | backend/sentiment_agents.py:457-459 | the same values, without repetition |
| Sentiment.SortByCount | backend/sentiment_agents.py:457-459 | a permutation of its input |
| Sentiment.SortByCountOrdered | backend/sentiment_agents.py:457-459 | the result is ordered by decreasing count |
| Sentiment.InsertKeepsOrder | backend/sentiment_agents.py:457-459 | inserting by count keeps the order by decreasing count |
| Sentiment.MostCommonProperties | backend/sentiment_agents.py:457-459 | at most n distinct concerns, each one that occurs, ordered by decreasing count |
| Sentiment.MostCommonOmitted | backend/sentiment_agents.py:457-459 | a concern left out occurs no more often than any concern kept |
| Sentiment.Ranking | backend/sentiment_agents.py:457-459 | the ranking holds every concern exactly once |
| Sentiment.FirstIndexOfKey | backend/sentiment_agents.py:457-459 | the position of the first value filed under a Counter key: it has that key and no earlier value does |
| Sentiment.FirstOfKey | backend/sentiment_agents.py:457-459 | the value a Counter reports for a key is one of the counted values and has that key |
| Sentiment.MostCommonConcerns | backend/sentiment_agents.py:457-459 | the most common Counter keys in rank order (1, 1.0 and true being one key), each reported as a concern that occurs |
| Sentiment.AggregateConcerns | backend/sentiment_agents.py:449-459 | TypeError exactly when some sentiment's drivers are unreadable or some concern is a list or dict; otherwise the five most common concerns of all sentiments |
| Sentiment.SortEqualCountsKeepsOrder | backend/sentiment_agents.py:457-459 | values all counted equally often keep their order when ranked |
| Sentiment.MostCommonOfEqualCounts | backend/sentiment_agents.py:457-459 | with at most five distinct values all counted equally often, the most common ones are the distinct values in order of first occurrence |
| Sentiment.MostCommonConcernsOfNonNumbers | backend/sentiment_agents.py:457-459 | without numbers among the concerns, the Counter keys are the concerns themselves |
| Sentiment.RepeatRanksInOrder | backend/sentiment_agents.py:449-459 | when every sentiment reports the same three distinct concerns, the top concerns are those three in their listed order |
| Sentiment.TeamTopConcerns | backend/sentiment_agents.py:243-246 | the team's top concerns are the three fixed negative drivers, in order |
| Sentiment.GeneratePulseSurvey | backend/sentiment_agents.py:292-339 | an unknown focus area gets the general questions but keeps its name in the survey id; frequency is weekly exactly for 'general'; four questions and target rate 0.8 |
| Sentiment.CellRiskLevel | backend/sentiment_agents.py:482 | critical below 40, warning below 70, healthy otherwise |
| Sentiment.WeekLabelFormatted | backend/sentiment_agents.py:479-480 | the label of week w is `Week {w+1}` |
| Sentiment.TeamDistribution | backend/sentiment_agents.py:277-281 | positive, neutral and negative counts add up to the sample size |
| Sentiment.DistributionPartition | backend/sentiment_agents.py:277-281 | the three classes partition the analysed sample |
| Sentiment.HighRiskIds | backend/sentiment_agents.py:283 | an id is listed exactly when it belongs to a high-risk member |
| Sentiment.HighRiskIdsAppend | backend/sentiment_agents.py:283 | the listing keeps the members' order: it distributes over concatenation |
| Sentiment.Analysed | backend/sentiment_agents.py:265-268 | the analyses of the first ten members, in order |
| Sentiment.SampleSummary | backend/sentiment_agents.py:270-284 | the average is the mean of the analysed scores; the distribution and risk list are those of the analysed sample; the morale follows the average; the top concerns are the three fixed negative drivers |
| Sentiment.AnalyzeTeam | backend/sentiment_agents.py:264-284 | an empty team divides by zero; otherwise the summary of the first ten analyses, with team size the whole team |
| Scheduling.SchedulingManager.constructor | backend/scheduling_agents.py:17-20 | the employee profiles are kept and no current departments are set |
| Scheduling.SchedulingManager.SetCurrentDepartments | backend/scheduling_agents.py:117 | the request's departments become current; the profiles are unchanged |
| Scheduling.DepartmentsUsed | backend/scheduling_agents.py:728-729 | the requested list, else the current departments, else Sales Floor and Customer Service |
| Scheduling.GenerateWeek | backend/scheduling_agents.py:732-770 | the nested loops emit 14 shifts per department, day by day, department by department, morning before evening |
| Scheduling.WeekRunIndex | backend/scheduling_agents.py:732-770 | shift k of the week is the one for its day, department and slot, numbered k |
| Scheduling.SchedulingManager.GenerateFallbackSchedule | backend/scheduling_agents.py:719-773 | the shifts are the fallback week over the departments used; total shifts equals their number; coverage 0.85 |
| Scheduling.FallbackOrder | backend/scheduling_agents.py:732-770 | shift number 2·(day·|depts| + j) + s is day `day`, department j, slot s |
| Scheduling.FallbackShape | backend/scheduling_agents.py:748-759 | every shift has a day in 0..6 and a requested department, and runs 08:00–16:00 or 14:00–22:00 |
| Scheduling.SchedulingManager.PrepareEmployeeContext | backend/scheduling_agents.py:440-459 | the summary covers the first 10 relevant employees, in their original order |
| Scheduling.RelevantAll | backend/scheduling_agents.py:442-445 | exactly the employees whose department is requested or whose skills name one |
| Scheduling.RelevantAllAppend | backend/scheduling_agents.py:442-445 | the filter distributes over concatenation, so order is preserved |
| Scheduling.ExtractCompliance | backend/scheduling_agents.py:662-678 | exactly one violation when the lowercased text contains 'violation' or 'issue', none otherwise; compliant exactly when there is none; score 0.95 or 0.85 |
| Scheduling.DayIndex | backend/scheduling_agents.py:799-804 | the position of the name among monday..sunday, or 0 |
| Scheduling.NormalizeDay | backend/scheduling_agents.py:799-804 | a missing day becomes 0, a string day the index of its lowercased name, any other day is left alone; every other key is unchanged |
| Scheduling.NormalizeDays | backend/scheduling_agents.py:799-804 | each shift normalised, position by position |
| Scheduling.NormalizeShiftDays | backend/scheduling_agents.py:799-804 | the array of shifts is overwritten in place by its normalised form |
| Scheduling.NormalizeDayIdempotent | backend/scheduling_agents.py:799-804 | normalising twice equals normalising once |
| Scheduling.NormalizeDayName | backend/scheduling_agents.py:799-804 | the k-th day name in any case becomes k |
| Scheduling.Descriptions | backend/scheduling_agents.py:818-820 | the violation descriptions in order, failing exactly when one is not a dict with a description |
| Scheduling.Risks | backend/scheduling_agents.py:818-820 | missing or falsy violations give the single sentence 'No significant risks identified'; a non-empty list gives its descriptions; any other truthy value raises TypeError |
| Scheduling.ExtractedRisks | backend/scheduling_agents.py:818-820 | the risks of an extracted compliance record never fail |
| Scheduling.CompileFinalResults | backend/scheduling_agents.py:787-828 | the shifts are normalised in place; the result fails exactly when the risks do; total shifts equals the number of shifts; cost, savings, coverage, satisfaction, quality and recommendations take the source's `get` defaults; the demand forecast and compliance record pass through; the id is `ai_opt_` plus the timestamp |
| Scheduling.FallbackCost | backend/scheduling_agents.py:775-785 | total cost 160 per shift, overtime a tenth of it, savings 1000 |
| Scheduling.ShiftCount | backend/scheduling_agents.py:777-781 | `len()` of the shifts value: 0 when missing, the items of a list, the characters of a string, the keys of a dict; TypeError exactly for any other value |
| Scheduling.FallbackScheduleCost | backend/scheduling_agents.py:775-785 | the fallback week costs 2240 per department |
| JsonWindow.Window | backend/retention_agents.py:266-271 | when present, a substring that starts with `{` and ends with `}` |
| JsonWindow.WindowExists | backend/retention_agents.py:266-271 | a window exists exactly when some `{` precedes some `}` |
| JsonWindow.WindowBounds | backend/retention_agents.py:266-271 | the window runs from the first `{` through the last `}` |
| JsonWindow.Fallback | backend/retention_agents.py:276-281 | the fallback record: its category, a prefix of the text cut to the limit, the confidence and the status |
| JsonWindow.ParseResponse | backend/retention_agents.py:255-281 | a dict unchanged; a parsed window; otherwise the fallback |
| JsonWindow.NoWindowYieldsFallback | backend/retention_agents.py:269-281 | text without a window gives the fallback |
| JsonData.NumField | backend/retention_agents.py:93 | `e.get(key, default)` as a number: the default when missing, TypeError when not a number |
| JsonData.ValueSet | backend/retention_agents.py:94 | the set of the values read, which fails with TypeError exactly when one of them is unhashable |
| RetentionAgents.ParseJsonResponse | backend/retention_agents.py:255-281 | a dict unchanged; otherwise the window parsed, or the fallback with 500 characters, status 'processed' and confidence 0.85 |
| RetentionAgents.ClosingBeforeOpeningFallsBack | backend/retention_agents.py:269-281 | when every `}` comes before every `{`, the fallback record |
| RetentionAgents.SumField | backend/retention_agents.py:93 | succeeds exactly when every value read is a number |
| RetentionAgents.SumOfDefaults | backend/retention_agents.py:93 | records without the key sum to n times the default |
| RetentionAgents.MeanField | backend/retention_agents.py:93 | an empty workforce divides by zero; otherwise mean times n equals the sum |
| RetentionAgents.MeanOfDefaults | backend/retention_agents.py:93 | records without the key average to the default |
| RetentionAgents.CountAbove | backend/retention_agents.py:95 | the number of records above the bound, failing exactly on a non-number |
| RetentionAgents.Figures | backend/retention_agents.py:93-95 | the prompt figures: an empty workforce divides by zero; otherwise they succeed exactly when tenure and wage are numbers and departments are hashable |
| RetentionAgents.HighRiskCountAsWritten | backend/retention_agents.py:247 | succeeds exactly when every record has a hashable 'id'; otherwise the first record that does not raises KeyError('id') when the key is missing and TypeError when its id is a list or dict; at most n |
| RetentionAgents.WarehouseRowsRaise | backend/retention_agents.py:247 | a non-empty workforce of warehouse rows, keyed by 'employee_id' without 'id', raises KeyError('id') |
| RetentionAgents.EmployeeKey | backend/retention_agents.py:247 | 'employee_id' when present, else 'id' |
| RetentionAgents.HighRiskCount | backend/retention_agents.py:247 | at most n employees are counted |
| RetentionAgents.CorrectedCountAgrees | backend/retention_agents.py:247 | on records keyed only by 'id' the corrected count equals the count as written |
| RetentionAgents.AnalyzeRetentionRisks | backend/retention_agents.py:236-256 | with the high-risk count as corrected (see Findings): fails exactly when the prompt figures do; workforce size n; the five parsed replies; high-risk count, average 42, the three top factors, turnover cost n·0.15·50000 and investment 2000·n |
| LearningAgents.BusinessPriorities | backend/learning_agents.py:90-97 | a missing or empty list becomes the five defaults; otherwise the given list |
| LearningAgents.ParseJsonResponse | backend/learning_agents.py:326-352 | as in retention, but the fallback confidence is 0.88 |
| LearningAgents.PathFor | backend/learning_agents.py:358-388 | id, name and role from 'id', 'name' and 'position' with the defaults 'unknown', 'Employee' and 'Sales Associate'; three modules whose hours add up to the stated 36; completion twelve weeks on |
| LearningAgents.GenerateSamplePaths | backend/learning_agents.py:354-390 | one path per employee, in order |
| LearningAgents.CreateLearningPaths | backend/learning_agents.py:305-324 | TypeError exactly when a department is unhashable; workforce size n; the five parsed replies; the first three priorities; a sample path for each of the first three employees, in order |
| Handlers.AnswerDeltaAsWritten | backend/main.py:816-818 | as written, booleans take the numeric branch: true adds −20, false adds −25 |
| Handlers.LoneYesAsWritten | backend/main.py:813-825 | a lone yes scores 30 as written against 60 as intended |
| Handlers.AnswerDelta | backend/main.py:816-822 | true adds 10, false subtracts 10, a number x adds (x−5)·5, text adds nothing |
| Handlers.Clamp | backend/main.py:825 | the score is clamped to 0..100 and unchanged inside it |
| Handlers.PulseScore | backend/main.py:813-825 | as corrected (see Findings): the loop yields the clamped sum of the deltas from a base of 50 |
| Handlers.RawPulseAppend | backend/main.py:815-822 | the contributions of two answer lists add up |
| Handlers.SwapAnswers | backend/main.py:815-822 | the order of the answers does not matter |
| Handlers.NonNumericIgnored | backend/main.py:815-822 | a text answer changes nothing |
| Handlers.BooleanAnswers | backend/main.py:819-822 | a yes adds 10 and a no subtracts 10 |
| Handlers.ScheduleWindow | backend/main.py:414-424 | 'current_week' is this week's Monday to Sunday, 'next_week' the following week, anything else today..today+7 |
| Handlers.MondayUnique | backend/main.py:416-418 | a week has only one Monday |
| Handlers.NextWeekIsShifted | backend/main.py:414-424 | next week's window is this week's shifted by 7 days |
| Handlers.SameWeekSameWindow | backend/main.py:416-418 | any two days of the same week get the same window |
| Handlers.EmployeeLimit | backend/main.py:538-539 | a department filter caps the analysis at 50; otherwise everyone is analysed |
| Handlers.FilteredAnalysisIsCapped | backend/main.py:538-539 | a filtered analysis covers at most 50 employees, an unfiltered one all of them |
| Handlers.RiskScore | backend/main.py:543-559 | (100 − 20·satisfaction)/100, plus 0.2 for overtime above 10 and 0.15 for tenure under 180, each capped at 1.0 |
| Handlers.InterventionsFollowFactors | backend/main.py:546-585 | at most four specific factors, none of them general, and enough interventions for them |
| Handlers.Assess | backend/main.py:541-607 | the record's fields and risk; 1 to 3 factors and interventions: the specific ones, or one general one when none applies |
| Handlers.GeneralFactorIsAlwaysLow | backend/main.py:587-596 | when no specific factor applies the risk is at most 0.3, so the general factor is always the low-risk one |
| Handlers.BandOf | backend/main.py:612-617 | high at 0.7 and above, medium from 0.4, low below |
| Handlers.RiskScores | backend/main.py:633-636 | the risk scores, employee by employee |
| Handlers.DepartmentRisks | backend/main.py:619-628 | non-empty for every department that occurs |
| Handlers.DepartmentTrends | backend/main.py:619-628 | one trend per department that occurs |
| Handlers.TrendsAreMeans | backend/main.py:619-628 | each department's trend is the mean risk of its employees |
| Handlers.MapAndCount | backend/main.py:539-617 | the loop maps every row and counts the three bands, which add up to the total |
| Handlers.AnalyzeRetention | backend/main.py:538-636 | the assessed employees in order; high, medium and low counts partition the total; average risk and department trends |
| Handlers.RetentionRecommendations | backend/main.py:638-655 | a dict strategy's insights split into at most 5 lines (AttributeError when they are not a string); any other strategy cut to 200 characters; no strategy the five defaults |
| Handlers.UnparsedStrategyKeepsItsLines | backend/main.py:641-644 | a strategy reply without JSON yields the first 5 lines of its first 500 characters |
| Handlers.CellScore | backend/main.py:2108-2111 | each employee's cell score is `satisfaction·20 + variation` clamped to 0..100: unchanged inside, 0 below, 100 above |
| Handlers.WeekTotal | backend/main.py:2106-2111 | the week's total lies between 0 and 100 per employee |
| Handlers.WeekTotalAppend | backend/main.py:2106-2111 | the week's total adds up over any split of the employees: it is the sum of their cell scores |
| Handlers.WeekTotalOfOne | backend/main.py:2108-2111 | one employee's total is their cell score |
| Handlers.WeekScore | backend/main.py:2103-2113 | the weekly score is the truncated mean cell score, `floor(total / n)` (the total is never negative), within 0..100; 50 without employees |
| Handlers.HeatTrend | backend/main.py:2116-2120 | up exactly when the last week exceeds the first by more than 5, down exactly when it is more than 5 below, stable otherwise |
| Handlers.HeatmapRow | backend/main.py:2101-2127 | four weekly scores in 0..100, the current score is the last one, and the trend follows from them |
| Handlers.TrendDependsOnEnds | backend/main.py:2116-2120 | only the first and last week decide the trend |
| Handlers.Satisfactions | backend/main.py:2220 | entry i is row i's satisfaction, 3.5 when absent |
| Handlers.Summarize | backend/main.py:2212-2235 | an empty workforce divides by zero; otherwise average satisfaction and sentiment, high below 2.5, medium from 2.5 below 3.5, and the cost at risk |
| Handlers.RiskLevelsPartition | backend/main.py:2224-2226 | the low count, total minus high minus medium, is exactly the number of rows at 3.5 or above |
| DataGenerator.NextRole | backend/data_generator.py:340-349 | 'Associate' without 'Senior' gives 'Senior ' + role; else 'Senior' gives dept + ' Lead'; else 'Lead' gives dept + ' Manager'; else 'Store Manager' |
| DataGenerator.AssociateLadder | backend/data_generator.py:340-349 | an associate is promoted to senior and then to lead of the department |
| DataGenerator.CareerTrack | backend/data_generator.py:351-365 | the table's track, or 'General Management' for a department outside it |
| DataGenerator.CareerTrackFacts | backend/data_generator.py:351-365 | Grocery and Deli share 'Food Service Management'; every answer is the general track or one of the table's |
| DataGenerator.ScenarioNamed | backend/data_generator.py:367-424 | each of the three known names selects its own scenario |
| DataGenerator.DemoScenario | backend/data_generator.py:367-424 | a known name gives the dict of the scenario it names; any other name gives the empty dict |
| DataGenerator.UnknownScenarioIsEmpty | backend/data_generator.py:367-424 | any other name gives `{}` |
| DataGenerator.BlackFridayFields | backend/data_generator.py:370-386 | the black-friday dict has nine fields, the first being its `scenario` title |
| DataGenerator.StaffShortageFields | backend/data_generator.py:388-402 | the staff-shortage dict has seven fields, the first being its `scenario` title |
| DataGenerator.PredictiveScheduleFields | backend/data_generator.py:404-423 | the predictive-scheduling dict has five fields, the first being its `scenario` title |
| DataGenerator.DaysPerWeek | backend/data_generator.py:105-113 | 40 hours give 5 days, 30 or more give 4, 20 or more give 3, otherwise 2 |
| DataGenerator.MoreAvailabilityNeverFewerDays | backend/data_generator.py:105-113 | up to 40 hours, more weekly availability never gives fewer working days |
| DataGenerator.SampleDays | backend/data_generator.py:116 | the sampled working days are k distinct offsets in 0..6 |
| DataGenerator.StartHours | backend/data_generator.py:122-129 | each department's start hours lie in 7..16 |
| DataGenerator.ShiftLength | backend/data_generator.py:131 | 8 hours at 40 hours a week, otherwise 6 to 8 |
| DataGenerator.ShiftRow | backend/data_generator.py:134-142 | the shift's date, a start hour of the department, and an end that is start plus length and at most 24 |
| DataGenerator.ShiftCanEndAtMidnight | backend/data_generator.py:134-142 | an Electronics shift from 16 with full-time length ends at '24:00:00' |
| DataGenerator.EmployeeWeek | backend/data_generator.py:103-144 | one shift per working day, on distinct days of the week, each ending by 24 |
| DataGenerator.GenerateSchedules | backend/data_generator.py:96-146 | weeks × (the employees' days per week, summed) shifts; every shift falls on a day from `weeks − 1` weeks before today to six days after today, ends by hour 24 and belongs to one of the employees |
| DataGenerator.SeasonalMultiplier | backend/data_generator.py:168-175 | 1.4 exactly in November and December, 1.2 exactly in summer, 0.8 exactly in January and February |
| DataGenerator.RequiredStaff | backend/data_generator.py:190 | at least 3, and `max(3, demand // 15)` for non-negative demand |
| DataGenerator.LocationDemand | backend/data_generator.py:182-204 | the location's record: demand scaled by its multiplier, at least 3 staff, weekday, month and holiday flag |
| DataGenerator.DayDemand | backend/data_generator.py:180-206 | one record per location, in order |
| DataGenerator.DayDemandRules | backend/data_generator.py:180-206 | each record of a date obeys the staffing floor and the holiday rule |
| DataGenerator.GenerateDemand | backend/data_generator.py:152-208 | the loop over the days yields the concatenation of the daily records, oldest first |
| DataGenerator.DemandRules | backend/data_generator.py:152-208 | five records a day, dated within the last `days` days; each has at least 3 staff and is a holiday exactly on 24, 25 and 31 December |
| DataGenerator.FactorKeysDistinct | backend/data_generator.py:216-245 | an employee's factors never repeat a key |
| DataGenerator.RetentionOf | backend/data_generator.py:247-257 | risk = 0.3 + sum of the factors clamped to 0.05..0.95; will leave exactly when the risk exceeds 0.7 |
| DataGenerator.ImpactOfFavourable | backend/data_generator.py:247-250 | factors that only lower the risk add up to at most 0 |
| DataGenerator.OnlyAdverseFactorsPredictLeaving | backend/data_generator.py:247-257 | without an adverse factor the risk stays at most 0.3 and nobody is marked as leaving |
| DataGenerator.GenerateRetentionFactors | backend/data_generator.py:210-262 | one record per employee, in order |
| Forecasting.MultiplierKeys | backend/prophet_forecasting.py:25-34 | the department multipliers' keys in the order of the dict |
| Forecasting.TargetDepartments | backend/prophet_forecasting.py:247-248 | the departments asked for, or Sales Floor, Customer Service and Electronics |
| Forecasting.ForecastingEngine.constructor | backend/prophet_forecasting.py:21-24 | no cached forecasts |
| Forecasting.ForecastingEngine.ForecastDemand | backend/prophet_forecasting.py:196-239 | the forecast is cached under its department |
| Forecasting.ForecastingEngine.ForecastAll | backend/prophet_forecasting.py:241-256 | one forecast per requested department, each also cached |
| Forecasting.HourlyPattern | backend/prophet_forecasting.py:265-286 | 24 weights in 0..0.12; a department without its own pattern uses the default one |
| Forecasting.StaffFor | backend/prophet_forecasting.py:290-291 | at least 1, and `max(1, customers // 15)` for non-negative counts |
| Forecasting.HourEntry | backend/prophet_forecasting.py:288-297 | the hour with its two-digit zero-padded `HH:00` label; for non-negative inputs the customers are the whole part of the day's share for that hour; at least one staff, one per 15 whole customers |
| Forecasting.HourlyDistribution | backend/prophet_forecasting.py:258-299 | exactly 24 entries, entry h for hour h with a five-character label and at least one staff |
| Forecasting.PeakIndex | backend/prophet_forecasting.py:397 | the first index of a largest expected demand |
| Forecasting.LowIndex | backend/prophet_forecasting.py:406 | the first index of a smallest expected demand |
| Forecasting.PeakAboveLow | backend/prophet_forecasting.py:397-406 | the peak never expects fewer customers than the low |
| Forecasting.Reported | backend/prophet_forecasting.py:388-395 | exactly the departments asked for that have cached future rows |
| Forecasting.ReportedAppend | backend/prophet_forecasting.py:388-395 | departments are reported one by one, in the order asked and with repetitions kept |
| Forecasting.BusyPeaks | backend/prophet_forecasting.py:423 | at most the number of peaks; 0 exactly when no peak needs more than five staff, all of them exactly when every peak does |
| Forecasting.Recommendations | backend/prophet_forecasting.py:422-426 | three recommendations, the first counting the peaks that need more than five staff |
| Forecasting.PeriodsOf | backend/prophet_forecasting.py:388-413 | one peak and one low period per reporting department, in order |
| Forecasting.ForecastingEngine.OptimizationInsights | backend/prophet_forecasting.py:375-426 | departments without a cached forecast or future rows are skipped; the peak, low and recommendations of the rest |

## Left out

- The CrewAI agents, tasks and crews of the four agent modules are foreign calls. Their replies are parameters, and so is `json.loads`.
- The regex extractors and `_parse_agent_response` of the scheduling agents are not modelled. This includes `_extract_quality_data`.
- `_generate_fallback_demand` (scheduling_agents.py:697-717) reshapes a Prophet forecast, which is itself an oracle. It is not modelled.
- The agent-decision records of the scheduling result are not modelled.
- The FastAPI routes, the WebSocket manager and loop, `system_heartbeat`, `data_flow_simulation` and the timed demo broadcasts are not modelled: they are I/O and concurrency.
- The handlers that use undefined names (main.py:478, 888 and 1175) are not modelled.
- The employee lookup with its 404 answer (main.py:494-495) is not modelled: its data comes from a warehouse query, which is an oracle.
- DuckDB SQL, sklearn, Prophet, pandas, numpy and Plotly are foreign libraries.
  - `MockCdp.Warehouse.Query` and `InsertBulk` take the engine's outcome as a parameter.
  - `train_models`, `predict_retention_risk`, `forecast_demand`, `optimize_schedule` and `process_workforce_data` of the platform (mock_cdp.py:152-290, 393-440) are not modelled.
- Random draws and the clock are parameters: `random`, Faker, uuid and `datetime.now()`.
- DataGenerator.GenerateDemand, DayDemand, DemandRules: the month and day of a date come from a `calendar` parameter. The Gregorian calendar is not modelled; only the weekday is computed from the day number.
  - `random.sample` is modelled by CPython's pool method for small populations.
  - The random `team_dynamics` and the confidence values of the hourly entries and forecast insights are not modelled.
- Decimal numbers are exact reals, and `round()` is not modelled.
  - RetentionAgents.AnalyzeRetentionRisks: the turnover cost is the exact product n·0.15·50000. Binary floating point need not be exactly 7500·n.
  - The 0.6/0.4 weights of `_calculate_risk_level` are exact, so its boundary cases are not float-faithful.
  - The cost at risk and the forecast multipliers are exact too.
- String handling is ASCII: lower-casing, stripping and digit tests.
- Dict order matters only where the source reads it. The model uses ordered entries there (dict literals) and maps elsewhere.
- Handlers.AnalyzeRetention models only the formatting after a successful agent call: the assessments, counts, trends and average. Values that `float()` would reject are not modelled on this path.
- Handlers.Satisfactions, Handlers.Summarize, Handlers.HeatmapRow: a satisfaction score is a number or absent. An absent score means the `get` default 3.5. A NULL column arrives from the warehouse as None, where `float(None)` raises TypeError. The model cannot tell a NULL from a missing key and gives 3.5 instead of the error.
- Handlers.HeatmapRow: the grouping of employees by department, and the order of the departments, are not modelled.
- Handlers.Summarize: `top_issues` is not modelled.
- Sentiment.MostCommonProperties: `Counter.most_common` breaks ties by first occurrence. In general the model proves only the order by count. The tie order is proved only when all counts are equal (Sentiment.MostCommonOfEqualCounts), which covers the team analysis (Sentiment.RepeatRanksInOrder).
- ConcernsOf: a dict stored under `key_drivers['negative']` is modelled as a TypeError. Python would extend the concerns with the dict's keys, in an insertion order the model does not keep. The only caller passes a list.
- `_parse_recommendations` (sentiment_agents.py:627-651) and the agent calls of `analyze_employee_sentiment` are not modelled.
- DataGenerator.ScenarioData: the scenario contents are written out in full, but the lemmas about them state only the field counts and the first field; that the keys of each dict are distinct is not stated.
- The prompt texts of the retention and learning agents are not modelled. The exception is the figures they compute, because those decide whether the call raises.
- The test scripts only print, and are not modelled.
- The TypeScript dashboard frontend is not part of this model.

## Findings

| source | as written | input that shows it | evidently intended | confidence | as-written member | corrected member |
|---|---|---|---|---|---|---|
| backend/main.py:816-822 | `isinstance(answer, (int, float))` comes first, and Python booleans are ints. So `True` adds (1−5)·5 = −20 and `False` adds −25, and the ±10 branches never run | a response whose only answer is `true` scores 30 | a yes adds 10 and a no subtracts 10, so a lone yes scores 60 | not executed | Handlers.AnswerDeltaAsWritten (with Handlers.LoneYesAsWritten) | Handlers.AnswerDelta (used by Handlers.PulseScore, Handlers.BooleanAnswers) |
| backend/retention_agents.py:247 | the high-risk count reads `e['id']`, but the rows analyze_retention passes from the warehouse (main.py:489-510) carry only `employee_id` | any non-empty workforce of warehouse rows raises KeyError('id'), so the analysis fails | the employee's identifier is read whichever key holds it | not executed | RetentionAgents.HighRiskCountAsWritten (with RetentionAgents.WarehouseRowsRaise) | RetentionAgents.HighRiskCount (via RetentionAgents.EmployeeKey, with RetentionAgents.CorrectedCountAgrees; used by RetentionAgents.AnalyzeRetentionRisks) |

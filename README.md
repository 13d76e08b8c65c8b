# aumai-jaldrishti in Dafny

A verified model of the rule-based engine of aumai-jaldrishti. The engine takes rural drinking-water data for a panchayat (village council). It classifies that data and raises alerts from it. The model covers:

- **Water-quality grading** (`Quality`). A sample is graded against the acceptable and permissible limits of IS 10500:2012 (`Thresholds`). The engine adds its own pH hazard band of 5.0–9.5. The sample's exceedances are listed, and treatments are suggested for them.
- **Source registry** (`Sources`). Water sources are keyed by id. There are views by panchayat, by kind, by working state and by yield, and the daily supply of a panchayat.
- **Coverage tracker** (`Coverage`). Jal Jeevan Mission (JJM) household tap-connection status is kept per panchayat. There are average coverage, a below-target list, the household gap, and the check of supply against 55 litres per person per day.
- **Groundwater monitor** (`Groundwater`). Seasonal depth readings go into a growing list. The history is ordered by (year, season text). The monitor also gives the latest reading, the strict year-on-year pre-monsoon decline, the monsoon recharge band and the depth categories.
- **Rainfall analyzer** (`Rainfall`). Monthly rainfall is compared against its normal: yearly totals, percentage deviation, drought and flood bands, and monsoon performance.
- **Budget planner** (`Budget`). Daily demand is estimated from people, livestock and irrigated land. A 0–100 sustainability index compares supply with demand.
- **Alert engine** (`Alerts`). One running counter numbers every alert. Each of the four checks raises zero, one or, for groundwater, up to two leveled alerts.
- **Value records** (`Models`). The records come with the field bounds their validation enforces and the derived percentages.

Shared pieces:
- `Seqs`: list comprehensions and sums.
- `Sorting`: Python's stable `sorted` with an integer key.
- `Dict`: a Python `dict` as a map plus its keys in insertion order. Overwriting a key keeps its slot.
- `Wrappers`: `Option`.

Stateful parts are classes that update fields:
- the registries `SourceManager` and `JJMTracker`;
- the append-only lists `GroundwaterMonitor` and `RainfallAnalyzer`;
- the counter `AlertEngine`.

Step-by-step code is modelled by methods with loops or accumulators:
- the grading;
- the issue and treatment lists;
- the declining-trend test;
- the alert checks.

Each of these methods is proved equal to a specification function, and the properties are proved about that function. Queries that are comprehensions or plain expressions are functions.

Two behaviours of the code are worth noting:
- `lpcd_check` returns the per-person standard 55 as `required_lpcd`.
- `declining_trend` slices with `records[-years:]`. For `years <= 0` this keeps everything (`0`) or drops the first `-years` readings. `Groundwater.WindowStart` models this slice exactly.

## Model

| member | source | states |
|---|---|---|
| Models.YieldPct | src/aumai_jaldrishti/models.py:56-60 | 0 for zero capacity; otherwise yield × 100 / capacity. Non-negative for a valid source. For a valid source of positive capacity, at most 100 exactly when the yield does not exceed the capacity. |
| Models.CoveragePct | src/aumai_jaldrishti/models.py:89-93 | 0 with no households; otherwise provided × 100 / households. Non-negative for a valid status. With at least one household, at most 100 exactly when provided ≤ households. |
| Models.FunctionalPct | src/aumai_jaldrishti/models.py:95-99 | 0 with nothing provided; otherwise functional × 100 / provided. Non-negative for a valid status. With at least one connection provided, at most 100 exactly when functional ≤ provided. |
| Models.DecliningMeansPositiveChange | src/aumai_jaldrishti/models.py:109-115 | `IsDeclining` (deeper than last year) holds exactly when the depth change is positive. Depth = previous depth + change. |
| Models.DeficitMeansNegativeSurplus | src/aumai_jaldrishti/models.py:138-144 | `IsDeficit` (supply below demand) holds exactly when the surplus is negative. Supply = demand + surplus. |
| Models.PercentDeviation | src/aumai_jaldrishti/models.py:154-158 | 0 for a zero normal. For a positive normal: negative exactly when below normal, zero exactly at normal, and ≥ −100 for non-negative rainfall. Actual = normal + deviation × normal / 100. |
| Models.DeviationPct | src/aumai_jaldrishti/models.py:154-158 | 0 for a zero normal. Negative exactly when the rainfall is below a positive normal. |
| Quality.GradeReport | src/aumai_jaldrishti/core.py:57-112 | The two accumulators produce the precedence grade `Quality.Grade`. Coliform always gives Hazardous. Safe exactly when no hazard-tier and no contaminated-tier bound is exceeded and TDS, turbidity, fluoride and iron are within their acceptable limits. |
| Quality.Contaminants | src/aumai_jaldrishti/core.py:114-137 | An issue is listed exactly when its guard holds, once each, in the fixed reporting order. |
| Quality.IdentifyContaminants | src/aumai_jaldrishti/core.py:114-137 | The list built by appending equals `Contaminants`. |
| Quality.Treatments | src/aumai_jaldrishti/core.py:139-160 | A treatment is suggested exactly when its guard holds, once each, in the fixed suggestion order. |
| Quality.RecommendTreatment | src/aumai_jaldrishti/core.py:139-160 | The list built by appending equals `Treatments`. |
| Quality.NoTreatmentIffSafe | src/aumai_jaldrishti/core.py:139-160 | No treatment is suggested exactly when the sample grades Safe. |
| Quality.NoIssueIffSafeAndLowChloride | src/aumai_jaldrishti/core.py:114-137 | No issue is listed exactly when the sample grades Safe and its chloride is within 250 ppm. |
| Dict.PutNew | src/aumai_jaldrishti/core.py:170 | Assigning a new key keeps the dictionary well formed and appends the value to the value list. |
| Dict.PutExisting | src/aumai_jaldrishti/core.py:170 | Assigning an existing key keeps the key order and replaces the value in that key's slot. |
| Sources.SourceManager.constructor | src/aumai_jaldrishti/core.py:166-167 | The registry starts empty. |
| Sources.SourceManager.Register | src/aumai_jaldrishti/core.py:169-170 | The map is updated under the source id. A new id is appended to the value list; a known id is replaced in place. `Get` returns the new source for its id and is unchanged for every other id. Every source stays stored under its own id. |
| Sources.SourceManager.Get | src/aumai_jaldrishti/core.py:172-173 | A source is returned exactly when its id is registered, and it carries that id. |
| Sources.UnitSources | src/aumai_jaldrishti/core.py:175-176 | Exactly the registered sources of the panchayat. |
| Sources.SourceManager.ByPanchayat | src/aumai_jaldrishti/core.py:175-176 | Exactly the registered sources (map values) of the panchayat. |
| Sources.SourcesOfType | src/aumai_jaldrishti/core.py:178-179 | Exactly the registered sources of the kind. |
| Sources.SourceManager.ByType | src/aumai_jaldrishti/core.py:178-179 | Exactly the map values of the kind. |
| Sources.FunctionalSources | src/aumai_jaldrishti/core.py:181-182 | Exactly the working sources of the panchayat. |
| Sources.SourceManager.Functional | src/aumai_jaldrishti/core.py:181-182 | Exactly the working map values of the panchayat. |
| Sources.NonFunctionalSources | src/aumai_jaldrishti/core.py:190-191 | Exactly the non-working sources of the panchayat. |
| Sources.SourceManager.NonFunctional | src/aumai_jaldrishti/core.py:190-191 | Exactly the non-working map values of the panchayat. |
| Sources.FunctionalPartition | src/aumai_jaldrishti/core.py:181-191 | The working and non-working sources of a panchayat together make up its sources, as multisets. |
| Sources.LowYieldSources | src/aumai_jaldrishti/core.py:187-188 | Exactly the working sources of the panchayat whose yield percentage is below the threshold. |
| Sources.SourceManager.LowYield | src/aumai_jaldrishti/core.py:187-188 | Exactly the working map values of the panchayat whose yield percentage is below the threshold. |
| Sources.TotalSupply | src/aumai_jaldrishti/core.py:184-185 | The summed yield of the working sources. Non-negative when every source is valid. |
| Sources.SourceManager.TotalSupplyLpd | src/aumai_jaldrishti/core.py:184-185 | The registry's supply is non-negative when every source is valid. |
| Sources.TotalSupplyIsSum | src/aumai_jaldrishti/core.py:184-185 | The supply equals a reference sum over all sources, in which only working sources of the panchayat contribute their yield. |
| Sources.AppendSupply | src/aumai_jaldrishti/core.py:184-185 | One more source adds exactly its contribution to each panchayat's supply. |
| Sources.RegisterSupply | src/aumai_jaldrishti/core.py:169-185 | Registering a source changes the supply by the new source's contribution, less the contribution of the source it replaces. |
| Sources.RegisterNonFunctionalKeepsSupply | src/aumai_jaldrishti/core.py:169-185 | Registering a non-working source under a new id, or over a non-working one, leaves every supply unchanged. |
| Coverage.JJMTracker.constructor | src/aumai_jaldrishti/core.py:197-198 | The tracker starts empty. |
| Coverage.JJMTracker.Update | src/aumai_jaldrishti/core.py:200-201 | The map is updated under the panchayat id, appending a new id and replacing a known one in place. `Get` returns the new status and is unchanged elsewhere. Every status stays stored under its own panchayat id. |
| Coverage.JJMTracker.Get | src/aumai_jaldrishti/core.py:203-204 | A status is returned exactly when the panchayat is tracked, and it carries that panchayat id. |
| Coverage.JJMTracker.AllStatuses | src/aumai_jaldrishti/core.py:206-207 | One status per tracked panchayat: exactly the map values. |
| Coverage.Mean | src/aumai_jaldrishti/core.py:215-216 | The mean of no terms is 0. For a non-empty list, mean × count = the sum of the terms. |
| Coverage.Summarize | src/aumai_jaldrishti/core.py:209-218 | Both averages are 0 with nothing tracked. Mean coverage × count = summed coverage. The functional average is `Mean` over the statuses with at least one connection only (so, by `Mean`'s contract, average × their count = their summed functional percentage), and 0 when there are none. |
| Coverage.SummaryInRange | src/aumai_jaldrishti/core.py:209-218 | When every status is consistent, both averages lie in [0, 100]. |
| Coverage.JJMTracker.Summary | src/aumai_jaldrishti/core.py:209-218 | Zeros for an empty tracker. Within [0, 100] when every tracked status is consistent. |
| Coverage.BelowTargetOf | src/aumai_jaldrishti/core.py:220-221 | Exactly the statuses whose coverage is below the target. |
| Coverage.JJMTracker.BelowTarget | src/aumai_jaldrishti/core.py:220-221 | Exactly the tracked statuses whose coverage is below the target. |
| Coverage.BelowFullTarget | src/aumai_jaldrishti/core.py:220-221 | Against the default 100% target, a consistent status with at least one household is below target exactly when some household lacks a connection. A status with no households has coverage 0 and is always below target. |
| Coverage.Gap | src/aumai_jaldrishti/core.py:223-227 | Never negative. 0 for an unknown panchayat or one where provided ≥ households; otherwise provided + gap = households. |
| Coverage.JJMTracker.DemandGap | src/aumai_jaldrishti/core.py:223-227 | Never negative, and 0 for an untracked panchayat. |
| Coverage.LpcdCheck | src/aumai_jaldrishti/core.py:229-240 | The required figure is always 55 and the gap is never negative. Population 0 gives supply 0 and gap 0. Otherwise actual × population = supply, and the gap is 0 exactly when supply ≥ population × 55; a positive gap closes that difference exactly. |
| Coverage.LpcdGapMeansBelowStandard | src/aumai_jaldrishti/core.py:229-240 | For a positive population the gap is 0 exactly when the per-person supply meets 55. |
| Groundwater.GroundwaterMonitor.constructor | src/aumai_jaldrishti/core.py:246-247 | The monitor starts with no readings. |
| Groundwater.GroundwaterMonitor.Add | src/aumai_jaldrishti/core.py:249-250 | The reading is appended. |
| Groundwater.SeasonRankIsTextOrder | src/aumai_jaldrishti/core.py:255 | The season rank order is the character-by-character order of the season texts: monsoon < post_monsoon < pre_monsoon < winter. |
| Groundwater.HistoryKeyIsTupleOrder | src/aumai_jaldrishti/core.py:253-256 | The integer key year × 4 + rank orders readings as Python's (year, season text) tuple does. It ties exactly for equal year and season. |
| Sorting.SortBySorted | src/aumai_jaldrishti/core.py:253-256 | The sort is ordered by key and is a permutation of its input. |
| Sorting.SortByStable | src/aumai_jaldrishti/core.py:265 | The sort is stable: equal keys keep their input order. |
| Groundwater.History | src/aumai_jaldrishti/core.py:252-256 | A permutation of the panchayat's readings: exactly its readings. |
| Groundwater.HistoryOrdered | src/aumai_jaldrishti/core.py:252-256 | No reading of the history is preceded by one with a larger (year, season text) tuple. |
| Groundwater.HistoryStable | src/aumai_jaldrishti/core.py:252-256 | Readings of the same year and season keep the order in which they were added. |
| Groundwater.LatestOf | src/aumai_jaldrishti/core.py:258-260 | None exactly when the panchayat has no reading; otherwise one of its readings. |
| Groundwater.LatestIsGreatest | src/aumai_jaldrishti/core.py:258-260 | The latest reading has the greatest (year, season text) of the panchayat, and is the last added among the readings of that year and season. |
| Groundwater.PreMonsoonHistory | src/aumai_jaldrishti/core.py:264-265 | A permutation of the panchayat's pre-monsoon readings, sorted by year. The sort is stable: the readings of each year stay in the order they were added. |
| Groundwater.WindowStart | src/aumai_jaldrishti/core.py:266 | For a positive count the window is the last min(years, n) readings. For 0 or a negative count it drops the first min(−years, n). |
| Groundwater.GroundwaterMonitor.DecliningTrend | src/aumai_jaldrishti/core.py:262-269 | The method's verdict equals `DecliningOf` on the current readings. |
| Groundwater.DeepeningIsStrictlyIncreasing | src/aumai_jaldrishti/core.py:267-269 | Each reading deeper than its predecessor, with at least two, is the same as the depths strictly increasing overall. |
| Groundwater.DecliningMeansLastYearsDeepen | src/aumai_jaldrishti/core.py:262-269 | For a positive count, the trend `DecliningOf` holds exactly when the last min(years, n) pre-monsoon readings number at least two and their depths strictly increase. |
| Groundwater.NoTrendFromFewReadings | src/aumai_jaldrishti/core.py:266-268 | Fewer than two pre-monsoon readings never give a trend. |
| Groundwater.NoTrendFromOneYear | src/aumai_jaldrishti/core.py:266-268 | A one-year window never gives a trend. |
| Groundwater.CategorizeLevel | src/aumai_jaldrishti/core.py:271-281 | Each category is exactly its depth interval: [−∞,2), [2,8), [8,20), [20,40), [40,∞). |
| Groundwater.CategorizeLevelMonotone | src/aumai_jaldrishti/core.py:271-281 | A deeper water table is never in a shallower category. |
| Groundwater.FirstLatestYear | src/aumai_jaldrishti/core.py:290-291 | The index of a reading of the greatest year, and the first such one, as `max(key=year)` picks it. |
| Groundwater.LatestPre | src/aumai_jaldrishti/core.py:290 | A pre-monsoon reading of the panchayat whose year no other pre-monsoon reading exceeds. On a tie it is the first one added: the `FirstLatestYear` entry of the pre-monsoon readings. |
| Groundwater.LatestPost | src/aumai_jaldrishti/core.py:291 | A post-monsoon reading of the panchayat whose year no other post-monsoon reading exceeds. On a tie it is the first one added: the `FirstLatestYear` entry of the post-monsoon readings. |
| Groundwater.LatestOfSeason | src/aumai_jaldrishti/core.py:285-291 | For either season: a reading of that season and panchayat with the greatest year, and on a tie the first one added. |
| Groundwater.RechargeBand | src/aumai_jaldrishti/core.py:295-301 | High exactly above 5 m, Moderate in (2, 5], Low in (0, 2], Negligible at or below 0. |
| Groundwater.RechargeBandMonotone | src/aumai_jaldrishti/core.py:295-301 | More recovery never gives a weaker band. |
| Groundwater.RechargeOf | src/aumai_jaldrishti/core.py:283-301 | Insufficient data exactly when either season has no reading or their latest years differ. Otherwise the band of (latest pre-monsoon depth − latest post-monsoon depth). |
| Rainfall.RainfallAnalyzer.constructor | src/aumai_jaldrishti/core.py:307-308 | The analyzer starts with no readings. |
| Rainfall.RainfallAnalyzer.Add | src/aumai_jaldrishti/core.py:310-311 | The reading is appended. |
| Rainfall.AnnualTotalOf | src/aumai_jaldrishti/core.py:313-314 | 0 when no reading is of that panchayat and year (in particular for no readings). Non-negative when every reading is valid. With AddedReadingTotals this fixes the total as the sum of the matching readings' rainfall. |
| Rainfall.AnnualNormalOf | src/aumai_jaldrishti/core.py:316-317 | 0 when no reading is of that panchayat and year (in particular for no readings). Non-negative when every reading is valid. With AddedReadingTotals this fixes the normal as the sum of the matching readings' normals. |
| Rainfall.AddedReadingTotals | src/aumai_jaldrishti/core.py:310-317 | A new reading adds its rainfall and normal to the totals of its own panchayat and year, and changes no other totals. The step case that, with the zero totals for no readings, fixes both totals. |
| Rainfall.AnnualDeviationOf | src/aumai_jaldrishti/core.py:319-324 | 0 when the yearly normal is 0. Negative exactly when the total is below a positive normal. |
| Rainfall.DroughtBand | src/aumai_jaldrishti/core.py:326-335 | Severe exactly at a deviation ≤ −60%, moderate in (−60, −40], mild in (−40, −20], none above −20%. |
| Rainfall.FloodBand | src/aumai_jaldrishti/core.py:337-344 | High exactly at a deviation ≥ 60%, moderate in [30, 60), none below 30%. |
| Rainfall.DroughtByRainfallShare | src/aumai_jaldrishti/core.py:326-335 | `DroughtRiskOf` is the drought band of the yearly deviation. For a positive normal, severe / moderate / mild drought hold exactly for rainfall up to 40% / in (40%, 60%] / in (60%, 80%] of the normal. No drought holds above 80%. |
| Rainfall.FloodByRainfallShare | src/aumai_jaldrishti/core.py:337-344 | `FloodRiskOf` is the flood band of the yearly deviation. For a positive normal, high / moderate flood risk hold exactly for rainfall of at least 160% / in [130%, 160%) of the normal. No flood risk holds below 130%. |
| Rainfall.DroughtAndFloodExclusive | src/aumai_jaldrishti/core.py:326-344 | No deviation is in a drought band and a flood band at once. |
| Rainfall.NoNormalNoRisk | src/aumai_jaldrishti/core.py:319-344 | A year without a normal carries neither drought nor flood risk. |
| Rainfall.MonsoonOf | src/aumai_jaldrishti/core.py:346-353 | For valid readings the June–September amounts lie between 0 and the yearly totals. The deviation is 0 unless the monsoon normal is positive; then it is the percentage deviation of the amounts, negative exactly for a shortfall. |
| Rainfall.AddedReadingMonsoon | src/aumai_jaldrishti/core.py:346-353 | A new reading adds its rainfall and normal to the monsoon amounts of its own panchayat and year exactly when its month is June to September, and changes nothing otherwise. |
| Rainfall.NoReadingsNoMonsoon | src/aumai_jaldrishti/core.py:346-353 | With no readings every monsoon figure is 0; with the lemma above this fixes the amounts for every list of readings. |
| Budget.EstimateDemand | src/aumai_jaldrishti/core.py:363-376 | A budget exists exactly when domestic and combined agriculture demand are non-negative, as the record's bounds demand. It is then valid, with domestic = population × 55, total = domestic + agriculture, and no supply or industrial demand. |
| Budget.EstimateDemandNonNegative | src/aumai_jaldrishti/core.py:363-376 | Non-negative inputs always give a budget, with total = 55·population + 30·livestock + hectares·500000/365. |
| Budget.EstimateDemandMonotone | src/aumai_jaldrishti/core.py:363-376 | More people, livestock or land never lowers the demand. |
| Budget.SustainabilityIndex | src/aumai_jaldrishti/core.py:378-383 | 100 for zero demand. Never above 100, and non-negative for a valid budget. Exactly 100 when supply ≥ demand; below that, index × demand = supply × 100. |
| Budget.SustainableIffNoDeficit | src/aumai_jaldrishti/core.py:378-383 | A valid budget has index 100 exactly when it is not in deficit. |
| Budget.SustainabilityMonotone | src/aumai_jaldrishti/core.py:378-383 | More supply never lowers the index. |
| Alerts.AlertEngine.constructor | src/aumai_jaldrishti/core.py:389-390 | The counter starts at 0 and no id has been issued. |
| Alerts.AlertEngine.NextId | src/aumai_jaldrishti/core.py:392-394 | The counter grows by one. The new value is returned, recorded as issued, and larger than every id issued before. |
| Alerts.AlertEngine.IssuedIncreasing | src/aumai_jaldrishti/core.py:392-394 | Issued ids are strictly increasing, so none repeats, and the last one is the counter. |
| Alerts.QualityAlerts | src/aumai_jaldrishti/core.py:396-412 | At most one alert, exactly for a Hazardous or Contaminated grade: an Emergency for Hazardous, a Warning for Contaminated. It is numbered after the counter and carries the report's source and date. |
| Alerts.ColiformRaisesEmergency | src/aumai_jaldrishti/core.py:396-412 | Coliform always raises exactly one Emergency. |
| Alerts.QualityEmergencyIffHazardTier | src/aumai_jaldrishti/core.py:396-412 | An Emergency is raised exactly when a hazard-tier bound is exceeded. |
| Alerts.AlertEngine.CheckQuality | src/aumai_jaldrishti/core.py:396-412 | The alerts equal `QualityAlerts` for the old counter. The counter grows by their number, and their ids exceed every earlier id. |
| Alerts.GroundwaterAlerts | src/aumai_jaldrishti/core.py:414-431 | The first alert is a depth alert exactly beyond 20 m: Critical beyond 40 m, otherwise a Warning. The last alert is a trend Warning exactly for a decline of more than 2 m. There are no others, and they are numbered consecutively. |
| Alerts.TrendAlertIffFallAboveTwo | src/aumai_jaldrishti/core.py:426-431 | A trend alert is raised exactly when the depth change exceeds 2 m; the declining test adds nothing. |
| Alerts.AlertEngine.CheckGroundwater | src/aumai_jaldrishti/core.py:414-431 | The alerts equal `GroundwaterAlerts` for the old counter. The counter grows by their number, and their ids are fresh. |
| Alerts.SupplyAlerts | src/aumai_jaldrishti/core.py:433-448 | At most one alert, none for population 0, numbered after the counter. For a nonzero population an alert is raised exactly below 55 litres per person: an Emergency exactly below 27, otherwise a Warning. |
| Alerts.SupplyAlertIffGap | src/aumai_jaldrishti/core.py:433-448 | For a positive population an alert is raised exactly when the supply check reports a gap. It is an Emergency exactly when supply < 27 × population. |
| Alerts.AlertEngine.CheckSupply | src/aumai_jaldrishti/core.py:433-448 | The alerts equal `SupplyAlerts` for the old counter. The counter grows by their number, and their ids are fresh. |
| Alerts.RainfallAlerts | src/aumai_jaldrishti/core.py:450-462 | At most one Critical alert for the panchayat, numbered after the counter. It is absent exactly for a deviation in (−40, 60); it is a drought alert exactly at ≤ −40% and a flood alert exactly at ≥ 60%. |
| Alerts.RainfallAlertsMatchBands | src/aumai_jaldrishti/core.py:450-462 | A drought alert is raised exactly for a moderate or severe drought band, a flood alert exactly for the high flood band, and nothing in every other band. |
| Alerts.AlertEngine.CheckRainfall | src/aumai_jaldrishti/core.py:450-462 | The alerts equal `RainfallAlerts` for the old counter. The counter grows by their number, and their ids are fresh. |

## Left out

- Python `round()` is not modelled: every derived value is stated before rounding. The lines below give the consequence for each member that rounds in the source.
- Models.YieldPct: unrounded, where the source rounds to one decimal. `LowYieldSources` therefore compares the unrounded percentage with the threshold.
- Models.CoveragePct: unrounded, where the source rounds to one decimal. `BelowTargetOf` and `BelowFullTarget` therefore compare the exact percentage: a panchayat with 9999 of 10000 households connected rounds to 100.0 in the source and is not below the 100% target there, but it is below target in the model.
- Models.FunctionalPct: unrounded, where the source rounds to one decimal.
- Models.ChangeMeters: unrounded, where the source rounds to two decimals. The 2 m trend-alert test of `GroundwaterAlerts` therefore uses the exact change.
- Models.SurplusDeficitLpd: unrounded, where the source rounds to whole litres.
- Models.PercentDeviation: unrounded, where the source rounds to one decimal.
- Coverage.Summarize: unrounded averages.
- Coverage.LpcdCheck: unrounded actual figure and gap.
- Rainfall.AnnualDeviationOf: unrounded. The drought and flood bands are therefore read off the exact deviation.
- Rainfall.MonsoonOf: unrounded amounts and deviation.
- Budget.EstimateDemand: amounts are unrounded. Validity is judged on the unrounded values, so an input whose tiny negative demand the source would round to zero is rejected here.
- Budget.SustainabilityIndex: unrounded.
- Quantities are exact reals, not IEEE-754 floats.
- The text of every message is left out: contaminant descriptions, treatment suggestions and alert messages. Contaminants and treatments are enumeration tags. Alerts carry their level and an `AlertCategory` tag. Both groundwater depth alerts carry the source's `"groundwater"` category, tagged `GroundwaterDepth`.
- Alert ids are the counter value; the `ALERT-0001` text form is left out.
- Field validation of the records is stated as `Valid…` predicates. `ValidSource`, `ValidStatus`, `ValidBudget` and `ValidRainfall` are hypotheses of the bounds lemmas. `ValidReport` and `ValidLevel` appear in no contract, because grading and alerting are defined for every value. The validation library is not modelled. The one place where a failing validation changes behaviour is a budget built from negative inputs; there `EstimateDemand` returns `None` instead of raising.
- The `grade` field of a quality report is carried but ignored, as the grading code ignores it.
- `declining_trend` sorts a local list in place. This is modelled as reassigning the local sequence to its stable sort.
- Python's `max(..., key=year)` is modelled by `FirstLatestYear`, which keeps the first maximal element as Python does.
- Default arguments are explicit parameters. The defaults are: low-yield threshold 40, coverage target 100, trend window 3 years, no livestock, no irrigated land.
- The query functions of the classes that only delegate carry no contract of their own; the functions they call carry it. These are `AllSources`, `GroundwaterMonitor.ByPanchayat`/`Latest`/`RechargePotential` and the `RainfallAnalyzer` queries.
- The command-line interface, the package's re-exports, the example script and the tests are not part of this model. They are I/O plumbing and demonstration code.
- Nothing in the engine is concurrent, and no locking is modelled.

# Malaysia flood dashboard: a Dafny model of its logic

The dashboard is a Streamlit application over a table of Malaysian rainfall
records. Each record has a state, a district, a year, twelve monthly
rainfall magnitudes (JAN..DEC), an "ANNUAL RAINFALL" column and a binary
FLOOD flag. This project models the logic behind five of its pages. The
modules follow the pages:

- `Records` (records.dfy) is the record set the pages load. It holds the
  derived annual total (twelve months summed), the boolean-mask filters,
  the flag counts and the generic groupby-sum and groupby-mean. `Stats`
  (stats.dfy) holds sums, means, minima, maxima and half-to-even rounding
  to one and two decimals. `Wrappers` (wrappers.dfy) holds `Option` and
  `Result`.
- `AdminPanel` (pages/0_Admin_Panel.py) is the login gate. The session
  dictionary is a class `SessionState` with an `entries` map. It is
  initialised with defaults, set by an exact credential match and cleared
  by logout. `RunPage` is one run of the page script over that state.
- `Overview` (pages/2_Overview.py) covers the headline figures (flood
  total, rounded average rainfall, most flooded state, wettest district).
  It also covers the flood-count rankings per state and per district,
  sorted by count, and the per-year averages and flood counts. Last, it
  covers the per-state monthly totals in long ("melted") form, for the
  whole country and for one state.
- `RainfallPattern` (pages/3_Rainfall_Pattern.py) covers the inclusive
  year-range filter, the yearly totals and their trailing 5-year moving
  average with a shrinking window at the start. It also covers the
  long-term average line and the monthly distribution, for both tabs.
- `InteractiveMap` (pages/4_Interactive_Map.py) covers the annual risk
  tiers and popup colours, and the per-(state, district) yearly mean. It
  also covers the state filter with the map's centre and zoom, the
  boundary-feature filter and the district lookup. The page's two
  in-place updates are methods of a class `FloodMap`: the `flood_risk`
  column added to the table, and the feature list overwritten.
- `FloodPrediction` (pages/5_Flood_Prediction.py) covers the monthly risk
  rule and its colours, and the risk bands behind the charts. It also
  covers the recursive multi-step forecaster and the result table. The
  forecaster is a `while` loop over a growing working sequence, proved
  against the recursive specification `Rollout`/`Predictions`. The table
  has month numbers, rounded values, labels and row colours. Last, the
  module covers the month axis of the prediction chart and the model
  lookup in the state summary table.

The Random Forest predictor is a parameter `model: seq<real> -> real`. The
forecast is stated for every such function. Loading a model is a parameter
too: `Option` for the overall tab, and `load` applied to the file named by
the summary row for the state tab. The widget values are parameters as
well (`field(i)` is the number typed for month i+1, and likewise the
slider positions, the selected state and year, and the button presses).

## Model

| member | source | states |
|---|---|---|
| Records.TotalAnnual | pages/3_Rainfall_Pattern.py:38-43 | A record's TOTAL_ANNUAL is the sum of its twelve monthly values, JAN through DEC. |
| Records.OfState | pages/2_Overview.py:237 | The state mask keeps exactly the records of that state, each as many times as it occurs. |
| Records.OfStateKeepsOrder | pages/2_Overview.py:237 | The state mask keeps the records' order: filtering a concatenation is the concatenation of the filtered parts. |
| Records.OfYear | pages/4_Interactive_Map.py:132 | The year mask keeps exactly the records of that year, each as many times as it occurs. |
| Records.Flooded | pages/2_Overview.py:90 | The FLOOD == 1 mask keeps exactly the flooded records, with their multiplicities. |
| Records.TotalFloods | pages/2_Overview.py:74 | The sum of the FLOOD flags equals the number of flooded records. |
| Records.FloodsPartition | pages/2_Overview.py:89-95 | Over distinct keys that cover every flooded record, the per-key flood counts add up to the flag total. |
| Records.DistinctKeys | pages/2_Overview.py:91-92 | The group keys are duplicate-free and are exactly the keys that occur in the records. |
| Records.SumPartition | pages/3_Rainfall_Pattern.py:103 | Over distinct covering keys, the group sums add up to the column's total: grouping loses and duplicates nothing. |
| Records.DistinctYears | pages/3_Rainfall_Pattern.py:103 | The years of a groupby on YEAR are strictly increasing and are exactly the years present. |
| Records.YearlyMeans | pages/5_Flood_Prediction.py:194 | One row per year present, ascending, carrying the mean annual total of that year's records, which lies between the year's smallest and largest total. |
| Records.MonthlyTotalsConserveRainfall | pages/3_Rainfall_Pattern.py:188 | The twelve month totals add up to the sum of the records' annual totals. |
| Stats.Round1 | pages/2_Overview.py:75 | Rounding to one decimal moves a value by at most 0.05. |
| Stats.Round2 | pages/5_Flood_Prediction.py:273 | Rounding to two decimals moves a value by at most 0.005. |
| Stats.Round2GridSide | pages/5_Flood_Prediction.py:273 | Rounding to two decimals never drops a value below a hundredth at or under it, and never lifts a value onto a hundredth from more than half a hundredth below. |
| AdminPanel.Matches | pages/0_Admin_Panel.py:83-86 | The match keeps exactly the rows whose username and password both equal the submitted pair. |
| AdminPanel.MatchIffRow | pages/0_Admin_Panel.py:83-88 | The match is non-empty iff the submitted (username, password) pair is a row of the admin table. |
| AdminPanel.WrongPasswordRejected | pages/0_Admin_Panel.py:83-88 | A username submitted with a password no row pairs it with gets an empty match. |
| AdminPanel.WithDefaults | pages/0_Admin_Panel.py:32-36 | The defaults add the flag (false) and the user (None) only where the key is missing, and keep every existing entry. |
| AdminPanel.SessionState.constructor | pages/0_Admin_Panel.py:32-36 | A fresh browser session holds no keys. |
| AdminPanel.SessionState.InitDefaults | pages/0_Admin_Panel.py:32-36 | The session becomes its defaulted form; whether it is authenticated does not change. |
| AdminPanel.SessionState.Login | pages/0_Admin_Panel.py:82-93 | Login succeeds iff the pair is a table row. On success the flag becomes true, the user becomes the submitted name and nothing else changes. On failure the session is unchanged. |
| AdminPanel.SessionState.Logout | pages/0_Admin_Panel.py:120-122 | Logout empties the session, which is then unauthenticated. |
| AdminPanel.RunPage | pages/0_Admin_Panel.py:32-122 | The dashboard is reached iff the run starts authenticated and logout is not pressed. The login screen is shown iff the run starts unauthenticated and no valid pair is submitted; it reports an error iff a pair was submitted. A rerun follows only a valid login or a logout, and leaves the corresponding session. |
| AdminPanel.LogoutThenRerun | pages/0_Admin_Panel.py:120-122 | After logout and the rerun, the session is back to its defaults and the login form is shown. |
| Overview.AverageRainfall | pages/2_Overview.py:75 | The rounded mean exists iff there are records; it lies within 0.05 of the exact mean and so within 0.05 of the smallest and largest annual total. |
| Overview.FloodsOfPositive | pages/2_Overview.py:90-92 | A key has a positive flood count iff some flooded record carries it. |
| Overview.SortByCountSorted | pages/2_Overview.py:94 | Sorting by count gives a non-increasing sequence. |
| Overview.SortByCountPermutes | pages/2_Overview.py:94 | Sorting by count permutes its input. |
| Overview.SortByCountKeysAndSum | pages/2_Overview.py:94 | Sorting keeps the multiset of keys and the sum of the counts. |
| Overview.CountsFor | pages/2_Overview.py:91-93 | groupby().size() lists each given key with its flooded-record count; the counts add up to the counts over those keys. |
| Overview.FloodRanking | pages/2_Overview.py:89-95 | The ranking is sorted by count, non-increasing. |
| Overview.FloodRankingKeys | pages/2_Overview.py:89-95 | The ranking has one row per key with at least one flooded record, and no other. |
| Overview.FloodRankingCounts | pages/2_Overview.py:89-95 | Each ranking row carries its key's flooded-record count, which is at least one. |
| Overview.FloodRankingSumsToTotal | pages/2_Overview.py:74-95 | The ranking's counts add up to total_floods. |
| Overview.MostFlooded | pages/2_Overview.py:76 | idxmax fails iff no record is flooded. Otherwise the chosen key has at least one flood and no key has more. |
| Overview.RankingEmptyIffNoFloods | pages/2_Overview.py:76-95 | The ranking is empty iff no record is flooded. |
| Overview.RankingHeadIsMax | pages/2_Overview.py:76-95 | The first ranked key has a flood count at least as large as any key's. |
| Overview.WettestDistrict | pages/2_Overview.py:77 | The wettest district fails iff there are no records. Otherwise it is a recorded district whose mean annual total is at least every district's. |
| Overview.YearlyStats | pages/2_Overview.py:131-134 | One row per year present, ascending, with the mean annual total and the flood count of that year. |
| Overview.YearlyFloodEventsSumToTotal | pages/2_Overview.py:131-134 | The per-year flood counts add up to the total flood count. |
| Overview.StateMonthlyTotals | pages/2_Overview.py:182 | One row per state present, without duplicates, holding the per-month sums over that state's records. |
| Overview.MeltMonth | pages/2_Overview.py:183-187 | One long row per state for a given month, holding that state's total for the month. |
| Overview.Melt | pages/2_Overview.py:183-187 | The long form has twelve rows per wide row. |
| Overview.MeltAt | pages/2_Overview.py:183-187 | melt stacks the month columns in column order: row m * (number of states) + i is state i's total for month m, so every (state, month) pair has its own row. |
| Overview.MeltProvenance | pages/2_Overview.py:183-187 | Every long row names a month among the twelve and carries a state's total for that month. |
| Overview.TwelveRowsPerState | pages/2_Overview.py:182-187 | In the long form of the per-state totals, every state with records has exactly twelve rows, and any other state has none. |
| Overview.OverallTab | pages/2_Overview.py:72-187 | The overall tab aborts (idxmax on an empty count) iff no record is flooded. Otherwise its flood total is the number of flooded records, at least one; the state ranking and the yearly flood events both add up to it; and the most flooded state has no fewer floods than any state. |
| Overview.StateTab | pages/2_Overview.py:237-241 | As written, the state tab aborts at idxmax iff the chosen state has no flooded record. Otherwise it is the guarded tab, with at least one flood. |
| Overview.GuardedStateTab | pages/2_Overview.py:237-339 | The state tab with the empty case handled: its flood total is the number of flooded records of that state, and the worst district is missing iff that total is zero. |
| Overview.StateTabAbortsWithoutFloods | pages/2_Overview.py:241 | A state whose only record has FLOOD 0 makes the tab as written abort, while the guarded tab reports zero floods. |
| Overview.StateTabFloods | pages/2_Overview.py:237-339 | In the guarded state tab, the district ranking lists exactly the districts with a flooded record in the state, and the state's yearly flood trend adds up to its flood total. |
| RainfallPattern.InYearRange | pages/3_Rainfall_Pattern.py:95-98 | The year filter keeps exactly the records with lo <= YEAR <= hi, both ends inclusive. |
| RainfallPattern.InYearRangeKeepsOrder | pages/3_Rainfall_Pattern.py:95-98 | The year filter keeps the records' order: filtering a concatenation is the concatenation of the filtered parts. |
| RainfallPattern.InYearRangeMultiplicity | pages/3_Rainfall_Pattern.py:95-98 | Every record in range is kept as many times as it occurs, and no other record is kept. |
| RainfallPattern.MinYear | pages/3_Rainfall_Pattern.py:87 | The slider minimum is a recorded year and no record is earlier. |
| RainfallPattern.MaxYear | pages/3_Rainfall_Pattern.py:87 | The slider maximum is a recorded year and no record is later. |
| RainfallPattern.InYearRangeKeepsAllInside | pages/3_Rainfall_Pattern.py:95-98 | When every record lies in the range, the filter returns the records unchanged. |
| RainfallPattern.DefaultRangeKeepsAll | pages/3_Rainfall_Pattern.py:87-98 | The slider's default range (minimum year, maximum year) keeps every record. |
| RainfallPattern.YearlyTotals | pages/3_Rainfall_Pattern.py:103 | One row per year present, strictly ascending, each the sum of TOTAL_ANNUAL over that year's records. |
| RainfallPattern.YearlyTotalsConserveRainfall | pages/3_Rainfall_Pattern.py:103 | The yearly totals add up to the sum of all annual totals. |
| RainfallPattern.MovingAverage5 | pages/3_Rainfall_Pattern.py:141 | The moving average has one entry per yearly total, with none missing. |
| RainfallPattern.MovingAverage5Bounds | pages/3_Rainfall_Pattern.py:141 | MA5[0] is the first total, and each MA5[i] lies between the minimum and maximum of its window. |
| RainfallPattern.MovingAverage5FullWindow | pages/3_Rainfall_Pattern.py:141 | From the fifth entry on, MA5[i] is the mean of the five totals ending at i. |
| RainfallPattern.MovingAverage5PartialWindow | pages/3_Rainfall_Pattern.py:141 | For the first four entries, MA5[i] is the mean of all totals up to i (min_periods=1). |
| RainfallPattern.LongTermAverage | pages/3_Rainfall_Pattern.py:115 | The long-term average is missing iff there are no yearly totals. Otherwise it is their sum divided by their count, and lies between the smallest and largest yearly total. |
| RainfallPattern.OverallView | pages/3_Rainfall_Pattern.py:95-188 | The overall tab plots one moving-average point per yearly total. |
| RainfallPattern.StateView | pages/3_Rainfall_Pattern.py:241-328 | The state tab plots one moving-average point per yearly total. |
| RainfallPattern.YearlyTotalsWithinRange | pages/3_Rainfall_Pattern.py:95-103 | Every plotted year lies in the selected range. |
| RainfallPattern.OverallViewAccountsForRange | pages/3_Rainfall_Pattern.py:95-188 | In the overall tab, the yearly series and the monthly distribution both add up to the rainfall of the records in range, and every plotted year is in range. |
| RainfallPattern.StateViewMonthlyIgnoresRange | pages/3_Rainfall_Pattern.py:241-328 | In the state tab, the yearly series adds up to the state's rainfall within the range. The monthly distribution adds up to all of the state's rainfall, whatever the range. |
| InteractiveMap.AssignFloodRisk | pages/4_Interactive_Map.py:97-103 | "High" iff r >= 3000, "Medium" iff 2500 <= r < 3000, "Low" iff r < 2500. |
| InteractiveMap.AssignFloodRiskMonotone | pages/4_Interactive_Map.py:97-103 | A larger rainfall never gets a lower tier. |
| InteractiveMap.PopupBg | pages/4_Interactive_Map.py:105-110 | High, Medium and Low map to #f8d7da, #fff3cd and #d4edda; any other string maps to #ffffff. |
| InteractiveMap.PopupBgOfAssignedRisk | pages/4_Interactive_Map.py:105-110 | A popup for an assigned tier never falls back to white. |
| InteractiveMap.MapFocus | pages/4_Interactive_Map.py:142-148 | "All States" gives centre (4.2105, 101.9758) with zoom 6. A state gives its STATE_CENTERS entry, or (4.2, 101.9) when it has none, with zoom 7. |
| InteractiveMap.AggregateYear | pages/4_Interactive_Map.py:132-138 | One row per (state, district) pair recorded in the year, without duplicates, each carrying the mean of that pair's "ANNUAL RAINFALL" for the year. |
| InteractiveMap.AggregateMeanWithinRecords | pages/4_Interactive_Map.py:134-138 | Each aggregated mean lies between the smallest and largest value recorded for its pair that year. |
| InteractiveMap.WithFloodRisk | pages/4_Interactive_Map.py:140 | The flood_risk column adds AssignFloodRisk of each row's mean and leaves the rest of the row alone. |
| InteractiveMap.RowsOfState | pages/4_Interactive_Map.py:143 | The state filter keeps exactly the rows of the chosen state. |
| InteractiveMap.DistrictSet | pages/4_Interactive_Map.py:156 | valid_districts is exactly the set of districts in the table. |
| InteractiveMap.Lookup | pages/4_Interactive_Map.py:162 | Building the lookup fails iff a district name repeats. Otherwise its keys are the table's districts and each maps to its own row. |
| InteractiveMap.KeptFeatures | pages/4_Interactive_Map.py:157-160 | The kept features are exactly those whose NAME_2 is a valid district. |
| InteractiveMap.KeptFeaturesKeepOrder | pages/4_Interactive_Map.py:157-160 | The filter keeps the features' original order: it distributes over concatenation. |
| InteractiveMap.KeptFeaturesHaveLookupEntries | pages/4_Interactive_Map.py:156-162 | Every kept feature has a lookup entry. |
| InteractiveMap.FloodMap.constructor | pages/4_Interactive_Map.py:132-138 | The table starts as the yearly aggregate without risk, and the features as loaded. |
| InteractiveMap.FloodMap.AddFloodRisk | pages/4_Interactive_Map.py:140 | The table gains the flood_risk column in place; the features are unchanged. |
| InteractiveMap.FloodMap.SelectState | pages/4_Interactive_Map.py:142-148 | The table keeps the chosen state's rows, or all rows for "All States", and the focus is MapFocus of the choice. |
| InteractiveMap.FloodMap.KeepMappedFeatures | pages/4_Interactive_Map.py:156-160 | The feature list is overwritten with the kept features; the table is unchanged. |
| InteractiveMap.MapTable | pages/4_Interactive_Map.py:132-148 | Every row of the final table carries AssignFloodRisk of its mean, and belongs to the chosen state unless all states are shown. |
| InteractiveMap.BuildMap | pages/4_Interactive_Map.py:132-160 | Running the steps in order yields the final table and exactly the features named by its districts. |
| InteractiveMap.MapTableRows | pages/4_Interactive_Map.py:132-148 | Every final row carries AssignFloodRisk of its mean, belongs to the chosen state, names a pair recorded in the year, and holds that pair's yearly mean. |
| InteractiveMap.PopupRowOfFeature | pages/4_Interactive_Map.py:185-188 | Each kept feature's popup reads its own district's row, rated by AssignFloodRisk. |
| FloodPrediction.FloodRiskLabel | pages/5_Flood_Prediction.py:67-73 | "High Risk" iff v >= 350, "Medium Risk" iff 250 <= v < 350, "Low Risk" iff v < 250. |
| FloodPrediction.FloodRiskColor | pages/5_Flood_Prediction.py:75-81 | #d62828 iff v >= 350, #f77f00 iff 250 <= v < 350, #2a9d8f iff v < 250. |
| FloodPrediction.FloodRiskLabelMonotone | pages/5_Flood_Prediction.py:67-73 | A larger value never gets a lower tier. |
| FloodPrediction.FloodRiskColorMatchesLabel | pages/5_Flood_Prediction.py:67-81 | The colour is the label's colour: both use the same thresholds. |
| FloodPrediction.MonthlyRiskShapes | pages/5_Flood_Prediction.py:83-91 | Three bands, top to bottom, tiling 0 to 800 at the cuts 250 and 350; each band is non-empty and painted flood_risk_color of its lower edge. |
| FloodPrediction.AnnualRiskShapes | pages/5_Flood_Prediction.py:93-104 | Three bands, top to bottom, tiling 0 to 4000 at the cuts 2500 and 3000; their lower edges are rated High, Medium and Low, and they use the monthly bands' colours. |
| FloodPrediction.MonthlyBandsAgreeWithRule | pages/5_Flood_Prediction.py:83-91 | The monthly bands tile [0, 800) without overlap, and each is painted in the colour of the values inside it. |
| FloodPrediction.AnnualBandsAgreeWithRule | pages/5_Flood_Prediction.py:93-104 | On [0, 4000), a value lies in the top, middle or bottom annual band iff AssignFloodRisk rates it High, Medium or Low. |
| FloodPrediction.Rollout | pages/5_Flood_Prediction.py:261-267 | The working sequence after k steps has k more entries and starts with the inputs. |
| FloodPrediction.RolloutSplits | pages/5_Flood_Prediction.py:261-267 | The working sequence is the inputs followed by the predictions. |
| FloodPrediction.PredictionWindow | pages/5_Flood_Prediction.py:265 | Step k is the model applied to exactly n values: elements k..k+n-1 of inputs followed by predictions. |
| FloodPrediction.WindowRuleDeterminesPredictions | pages/5_Flood_Prediction.py:264-267 | Any sequence in which each value is the model applied to the n values before it is the forecast. |
| FloodPrediction.FirstPredictionUsesInputs | pages/5_Flood_Prediction.py:261-265 | The first step sees only the user inputs. |
| FloodPrediction.LongerHorizonExtends | pages/5_Flood_Prediction.py:264-267 | A shorter horizon gives a prefix of a longer one. |
| FloodPrediction.ConstantModelForecast | pages/5_Flood_Prediction.py:264-267 | With a model that always returns c, every prediction is c. |
| FloodPrediction.ConstantThreeHundredIsMediumRisk | pages/5_Flood_Prediction.py:264-274 | Six inputs of 200 with a constant model of 300: every prediction is 300 and labelled "Medium Risk". |
| FloodPrediction.Forecast | pages/5_Flood_Prediction.py:261-267 | Returns exactly n_predict values, equal to the specified forecast. The final working sequence is the inputs followed by the predictions. Each prediction is the model applied to the n_input values before it. |
| FloodPrediction.CollectInputs | pages/5_Flood_Prediction.py:244-256 | Gathers one value per input month, in month order. |
| FloodPrediction.ResultTable | pages/5_Flood_Prediction.py:271-275 | The result table has one row per prediction. |
| FloodPrediction.ResultTableRow | pages/5_Flood_Prediction.py:269-275 | Row i is month n_input+1+i, shows the prediction rounded to two decimals, and carries the label of the unrounded prediction. |
| FloodPrediction.RowColor | pages/5_Flood_Prediction.py:277-282 | A row is painted #d62828 iff its displayed value is at least 350, #f77f00 iff it is in [250, 350), #2a9d8f iff it is below 250. |
| FloodPrediction.RowColorMatchesLabelAwayFromThresholds | pages/5_Flood_Prediction.py:273-279 | A row's colour is its label's colour unless the prediction lies within half a hundredth below 250 or 350. |
| FloodPrediction.RowColorCanDisagreeWithLabel | pages/5_Flood_Prediction.py:273-279 | A prediction of 249.996 is labelled "Low Risk" but painted #f77f00. |
| FloodPrediction.IntendedRowColor | pages/5_Flood_Prediction.py:274-279 | The colour taken from the unrounded prediction is always the label's colour. |
| FloodPrediction.Range | pages/5_Flood_Prediction.py:114-122 | list(range(lo, hi)): hi - lo entries (none if hi <= lo), the i-th being lo + i. |
| FloodPrediction.PredictionChart | pages/5_Flood_Prediction.py:109-127 | Inputs are plotted at 1..n_input and predictions from start_month on, over the monthly risk bands. |
| FloodPrediction.PredictionMonthsContinueInputs | pages/5_Flood_Prediction.py:114-122 | With start_month = n_input+1, the x positions of inputs then predictions are exactly 1..n_input+n_predict, with no gap and no overlap. |
| FloodPrediction.ResultMonthsMatchChart | pages/5_Flood_Prediction.py:269-272 | The table's month numbers are the chart's x positions of the predictions. |
| FloodPrediction.ModelFileFor | pages/5_Flood_Prediction.py:357-369 | No file iff no summary row matches the state and the input count. Otherwise it is the first matching row's Model_File. |
| FloodPrediction.PredictRun | pages/5_Flood_Prediction.py:233-291 | For n_predict within the slider's bounds: without a model only the warning is shown; otherwise the inputs are read in order, forecast and tabulated. |
| FloodPrediction.PredictStateRun | pages/5_Flood_Prediction.py:355-427 | The state tab forecasts iff the summary has a row for the state and input count, using the model that row names, and tabulates the forecast as the result table. |

## Left out

- The Random Forest models and `joblib.load` are not modelled. The predictor is an arbitrary function on windows, and loading is a parameter. For the overall tab, whether the model file exists (pages/5_Flood_Prediction.py:236-241) is an `Option`.
- Reading the CSV files, the boundary file and the style sheet is not modelled, nor is `st.cache_data`. Their contents are parameters.
- Streamlit widgets and control flow are not modelled: `st.stop`, `st.rerun`, `st.switch_page`, and the "Back to Home" button (pages/0_Admin_Panel.py:96-97). Widget values are parameters, and stopping or rerunning is the `Outcome` a run ends in.
- The state tab's missing-summary stop (pages/5_Flood_Prediction.py:304-306) is not modelled: reading the summary is I/O.
- Plotly figures, colours, layouts and legends are not modelled (their data is kept for the prediction chart). Neither is the ×100 scaling of the flood line on the overview chart (pages/2_Overview.py:148): these are presentation.
- The folium map, choropleth, popup HTML and legend (pages/4_Interactive_Map.py:167-241) are not modelled, beyond the lookup row and background colour each popup uses.
- The admin page's metric cards and the ProfileReport EDA (pages/0_Admin_Panel.py:124-179) are not modelled: they come from a foreign library and are display only.
- Home.py and pages/1_Flood_Information.py are not part of this model: they are static content.
- Floating point is not modelled. Rainfall is an exact `real`, and `round`/`np.round` are half-to-even on exact reals.
- Overview.MostFlooded: ties are not resolved as pandas does. pandas' `value_counts().idxmax()` and `sort_values` pick among equal counts by their own ordering; the model proves only that the chosen key has a maximal count.
- Overview.WettestDistrict: among districts with equal means, the model's choice need not be the one pandas' `idxmax` returns.
- Overview.FloodRanking: the order of equal counts is not stated; only non-increasing order, membership and counts are.
- Records.DistinctKeys: string-keyed groups are listed in order of first appearance, whereas pandas sorts group keys. Years are kept ascending, since the moving average depends on their order.
- Overview.AverageRainfall: the mean of an empty selection (NaN in pandas) is modelled as `None`.
- FloodPrediction.ResultTableRow: the "Month {n}" labels are modelled as the number n, not as strings.
- FloodPrediction.Forecast: that the caller's `monthly_input` stays unchanged (pages/5_Flood_Prediction.py:261, 288) holds by value semantics of `seq`; the copy is not modelled as aliasing.
- The sorted option lists of the select boxes (pages/4_Interactive_Map.py:118-127, pages/2_Overview.py:231-235) are not modelled. The chosen state and year are parameters.
- Overview.GuardedStateTab: the flood trend (pages/2_Overview.py:339) is represented by the same yearly rows as the overall tab, which also carry the mean rainfall; only their flood counts are read.
- AdminPanel.SessionState.Logout: the model's session holds only this page's keys, so `entries == map[]` does not show that `st.session_state.clear()` (pages/0_Admin_Panel.py:121) also discards the widget keys of the other pages.

## Findings

| source | as written | input that shows it | evidently intended | confidence | as-written member | corrected member |
|---|---|---|---|---|---|---|
| pages/5_Flood_Prediction.py:273-279 | The row colour (here and at lines 409-415) is `flood_risk_color` of the value after `np.round(preds, 2)`, while the "Flood Risk" label in the same row is `flood_risk_label` of the unrounded prediction. | A prediction of 249.996 mm is shown as 250.0, labelled "Low Risk", on the Medium colour #f77f00 (likewise just below 350). | The row colour matches the row's label. | medium, not executed | FloodPrediction.RowColorCanDisagreeWithLabel | FloodPrediction.IntendedRowColor |
| pages/2_Overview.py:241 | `worst_district` is the `idxmax` of the district counts among the state's flooded records; on an empty count it raises, so the state tab aborts for a state with no flood, although the select box (lines 231-235) offers every state. | A state whose only record has FLOOD 0. | The tab renders, with no worst district. | medium, not executed | Overview.StateTabAbortsWithoutFloods | Overview.GuardedStateTab |

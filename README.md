# skycastle-ai in Dafny

A verified model of skycastle-ai's decision logic. skycastle-ai is a small Python pipeline. It predicts morning fog over Echizen-Ono and the "castle in the sky" seen above it. The model covers these stages:

- the heuristic fog and castle scorer;
- feature construction with a one-day lag, in three variants: the single-day predictor, the forecast-window predictor and training;
- event-probability fusion with an optional calibrator, and the two label policies;
- the forecast-window overlay of stored history values;
- the two writers of `history.csv`: the pipeline's upsert and the dashboard's observation form;
- morning aggregation of hourly Open-Meteo readings, and the choice of target day, endpoint and day window.

There is one module per source file:

- `ScoreFog`
- `PredictModel`
- `PredictForecastWindow`
- `MainPipeline` (for `main.py`)
- `TrainModel`
- `FetchWeather`
- `FetchForecastWindow`
- `Dashboard`

Three shared modules support them:

- `Common` holds Python floats with NaN, table cells, JSON values, labels, probabilities and errors.
- `Ordering` is a stable sort standing in for pandas' date sort, with NaT last.
- `HistoryTable` is the date-keyed table. Its class `HistoryFile` holds the contents of `history.csv`. The two writers are methods that change it.

Some things become parameters:

- the classifiers and the calibrator, as opaque functions to probabilities (a calibrator may fail);
- the HTTP endpoints, as functions from a request to a response;
- `float()`, `int()`, `str()` and the date parsers of strings, as functions;
- the clock, as a day number or a time-stamp string.

Loops and in-place updates are methods, each proved equal to a function, and the promised properties are lemmas about that function. Examples:

- the column normalisation and the `.at` writes of `append_history`;
- the `.loc` update of the dashboard save;
- the index collection of `average_morning`;
- the `select_indices_for_hours` grouping;
- the `prev_values` loop;
- the `run_prediction` loop.

Errors are `Result` values named after the exceptions the code raises.

Dates are modelled as day numbers, so the order of ISO dates is the order of their numbers.

The reading temp 9.575, dew point 8.38, wind 6.55, cloud 66, rain 0.175 scores 59.785 for fog, because the wind penalty is capped at 25 (`ScoreFog.WindyMorningExample`).

## Model

| member | source | states |
|---|---|---|
| ScoreFog.CalcDewPoint | score_fog.py:38-45 | defined exactly for 0 < humidity <= 100, a ValueError otherwise; the formula itself is a parameter |
| ScoreFog.Clamp | score_fog.py:48-49 | the result is at least low, at most high when low <= high, the value itself when inside, low or high at the edges |
| ScoreFog.CloudPenalty | score_fog.py:65-68 | never negative, and zero for cloud in [40, 90] |
| ScoreFog.CalcScores | score_fog.py:52-77 | dew_spread = temp - dew point; both scores in [0, 100]; castle <= fog; castle == fog for cloud in [40, 90] with spread <= 2; fog = 100 for spread <= 0, wind <= 1.5, rain <= 0 |
| ScoreFog.CalmWindIsFree | score_fog.py:59 | wind up to 1.5 m/s gives the same scores as no wind |
| ScoreFog.ScoresNonIncreasingInWind | score_fog.py:59 | more wind never raises the fog or the castle score |
| ScoreFog.ScoresNonIncreasingInRain | score_fog.py:60 | more rain never raises either score |
| ScoreFog.ScoresNonIncreasingInSpread | score_fog.py:58-69 | a wider dew spread never raises either score |
| ScoreFog.WindyMorningExample | score_fog.py:57-70 | the reading of 2025-10-28 scores 59.785 for fog and for castle |
| ScoreFog.ScoreReading | score_fog.py:92-102 | the domain error, else scores built on the dew point, with 0 <= castle <= fog <= 100 |
| PredictModel.FeatureColumnsDistinct | predict_model.py:22-31 | the eleven feature columns are distinct |
| PredictModel.EligibleBefore | predict_model.py:57-62 | a row is eligible iff it has some weather value and a date strictly before the target |
| PredictModel.PreviousRow | predict_model.py:57-66 | the chosen row is eligible and no other eligible row is later in date order (on equal dates it is the last); none iff no row is eligible |
| PredictModel.FloatsOf | predict_model.py:68-77 | float() of each cell, or None as soon as one raises |
| PredictModel.LoadPreviousFeatures | predict_model.py:49-77 | None without a file or for an empty one; an error for a missing column or an unparsable target date; None for a NaT target date (such as "nan"); otherwise the floats of PreviousRow's five weather cells, and None only when there is no earlier row or its cells do not convert |
| PredictModel.FeatureVector | predict_model.py:81-97 | eleven features in the fixed order: the five base values, then the lag source's five and prev_temp - temp, or six NaN without a source |
| PredictModel.SingleDayFeatures | predict_model.py:80-97 | a ValueError iff a reading value does not convert, the lag loader's error iff it fails; otherwise the reading's floats, the lag source's values or NaN, and prev_temp - temp |
| PredictModel.BuildFeatureFrame | predict_model.py:80-97 | the method yields SingleDayFeatures |
| PredictModel.FillFeatures | predict_model.py:81-97 | the dict filled by `features.update`, read in column order, is FeatureVector |
| PredictModel.CalibratorFeatures | predict_model.py:108-112 | exactly the three inputs fog, castle and fog * castle |
| PredictModel.SelectColumns | predict_model.py:130 | the named columns in the stored order, or a KeyError for a name not present |
| PredictModel.ComputeEventProbability | predict_model.py:124-135 | fog * castle without a calibrator, without a model, or when predict_proba fails; otherwise the calibrator's output; an unknown stored feature name raises |
| PredictModel.Product | predict_model.py:127 | fog * castle is itself a probability |
| PredictModel.DetermineEvent | predict_model.py:145-157 | calibrated policy: Castle iff event >= 0.5; legacy policy: Castle iff fog >= 0.7 and castle >= 0.6; under both, FogOnly iff not Castle and fog >= 0.5, None iff not Castle and fog < 0.5 |
| PredictModel.CalibratedIgnoresCastle | predict_model.py:146-151 | under the calibrated policy the castle probability does not change the label |
| PredictModel.ProductFallbackExample | predict_model.py:124-127 | without a calibrator, fog 0.8 and castle 0.7 give 0.56 and the label Castle |
| PredictModel.UpdateFeed | predict_model.py:160-172 | the keys are the five written ones plus the existing ones; other existing keys keep their values; date, probabilities and the calibrated-policy label are written |
| PredictModel.PredictSingleDay | predict_model.py:179-185 | a feature error first, then FileNotFoundError iff a classifier is missing, then the KeyError of an unknown calibrator name, and no other failure; otherwise the feed merged with both classifiers' outputs on SingleDayFeatures and their fused event probability |
| PredictForecastWindow.Base | predict_forecast_window.py:25 | the five base values of an entry in column order |
| PredictForecastWindow.JsonInt | predict_forecast_window.py:71 | int() of a JSON number truncates toward zero; null raises |
| PredictForecastWindow.EntryOf | predict_forecast_window.py:62-75 | an entry iff the six keys are present and each float() and the optional int() succeed; the fields are those conversions; weathercode None when absent or null |
| PredictForecastWindow.LoadForecastEntries | predict_forecast_window.py:53-76 | FileNotFoundError without the file; otherwise one entry per record in order, or ValueError iff some record is bad |
| PredictForecastWindow.Parsable | predict_forecast_window.py:102 | the rows kept by dropping NaT dates |
| PredictForecastWindow.TailRow | predict_forecast_window.py:101-103 | the last dated row of the date sort (no filter against the forecast days); none iff no date parses |
| PredictForecastWindow.TailCells | predict_forecast_window.py:108 | a missing weather column reads as missing |
| PredictForecastWindow.HistoryTail | predict_forecast_window.py:97-108 | None without a usable file; an error without a date column, without a parsable date, or when a tail value does not convert; otherwise the tail's five floats, never None for a non-empty file |
| PredictForecastWindow.LagSources | predict_forecast_window.py:105-112 | day 0 takes the history tail, day k takes day k-1's base values |
| PredictForecastWindow.LagRow | predict_forecast_window.py:114 | five NaN for no source, the source's values otherwise |
| PredictForecastWindow.LagFrameAsWritten | predict_forecast_window.py:114 | fails iff the first lag source is None; otherwise equals LagFrame |
| PredictForecastWindow.LagFrame | predict_forecast_window.py:114-115 | one lag row per source, NaN where there is none |
| PredictForecastWindow.MissingHistoryRaisesAsWritten | predict_forecast_window.py:105-114 | without history every forecast run fails as written; corrected, day 0 has NaN lags |
| PredictForecastWindow.FeatureRow | predict_forecast_window.py:116-118 | base values, lags, then prev_temp - temp |
| PredictForecastWindow.FeatureFrame | predict_forecast_window.py:91-118 | one row per entry in order; day 0 lags the tail, day k lags day k-1; temp_prev_diff = prev_temp - temp |
| PredictForecastWindow.BuildFeatureFrame | predict_forecast_window.py:91-118 | an error iff there are no entries or the tail fails; otherwise FeatureFrame, built on the corrected LagFrame |
| PredictForecastWindow.PropagateLags | predict_forecast_window.py:110-117 | the `prev_values` loop yields FeatureFrame |
| PredictForecastWindow.OnDay | predict_forecast_window.py:153 | the rows whose parsed date formats to the key |
| PredictForecastWindow.HistoryLookup | predict_forecast_window.py:150-153 | a key for each formatted parsed date; its row is the latest of that date in the stable sort |
| PredictForecastWindow.LookupHoldsLatestRow | predict_forecast_window.py:151-153 | every other row of the same date precedes the stored one, as `keep="last"` promises |
| PredictForecastWindow.BuildHistoryLookup | predict_forecast_window.py:142-153 | empty without a usable file; a KeyError iff a non-empty table has no date column; HistoryLookup otherwise |
| PredictForecastWindow.MapGet | predict_forecast_window.py:195-205 | `dict.get` on a row or on the history lookup: None iff the key is absent, otherwise its value |
| PredictForecastWindow.SafeFloat | predict_forecast_window.py:156-167 | the default for None, a missing value or a rejected value; float(value) otherwise |
| PredictForecastWindow.SafeFloatIdempotent | predict_forecast_window.py:156-167 | feeding its own result back as the default changes nothing |
| PredictForecastWindow.DetermineEvent | predict_forecast_window.py:134-139 | Castle iff event >= 0.5, FogOnly iff not and fog >= 0.5, None otherwise; NaN compares false |
| PredictForecastWindow.DetermineEventAgrees | predict_forecast_window.py:134-139 | on real numbers it agrees with the calibrated policy of predict_model |
| PredictForecastWindow.Predicted | predict_forecast_window.py:181-193 | the entry's date, weather and code, the three probabilities and the calibrated label |
| PredictForecastWindow.Overlay | predict_forecast_window.py:195-224 | no stored row: unchanged; otherwise each numeric field is SafeFloat of the stored cell over the predicted value; a stored label that is not empty after Python's strip() wins, else the label of the overlaid probabilities; date and code untouched |
| PredictForecastWindow.WhitespaceEventRecomputed | predict_forecast_window.py:221-224 | a stored label made only of Unicode spaces is recomputed |
| PredictForecastWindow.OverlayIdempotent | predict_forecast_window.py:195-224 | overlaying the same stored row twice equals once |
| PredictForecastWindow.BlankRowKeepsPrediction | predict_forecast_window.py:195-224 | a stored row that is all missing and has a blank event keeps the prediction |
| PredictForecastWindow.DayResult | predict_forecast_window.py:179-226 | a day's payload keeps the entry's date and code |
| PredictForecastWindow.RunPrediction | predict_forecast_window.py:170-228 | FileNotFoundError without the classifiers; an error iff no entries, the tail fails, or a stored calibrator name is unknown; otherwise one payload per entry, in order, each DayResult, built on the corrected LagFrame |
| PredictForecastWindow.PredictDays | predict_forecast_window.py:178-226 | the loop yields DayResult for every day |
| MainPipeline.RequiredColumnsDistinct | main.py:97-113 | the eighteen required columns are distinct |
| MainPipeline.Missing | main.py:126-128 | the required columns the table lacks, in order, without repeats |
| MainPipeline.AddColumns | main.py:126-128 | existing columns and cells kept; each missing required column appended, all missing |
| MainPipeline.Normalise | main.py:122-130 | an empty table becomes the required columns; otherwise the old columns stay first, every required column exists, old cells are kept and new cells are missing |
| MainPipeline.WeatherCell | main.py:75-84 | an absent column is NA; float() of the cell otherwise, or None where it raises |
| MainPipeline.FeedCell | main.py:75-91 | an absent or null key is NA; float() otherwise |
| MainPipeline.EventCell | main.py:92 | "" for a missing or falsy event; the string otherwise |
| MainPipeline.RecordKeysRequired | main.py:78-113 | the record's fifteen keys are required columns and exclude the observation columns |
| MainPipeline.RecordKeyGroupsDisjoint | main.py:78-94 | the weather, feed, date, event and time keys do not overlap |
| MainPipeline.BuildRecord | main.py:78-94 | a record iff every float() succeeds, with exactly the fifteen keys |
| MainPipeline.RecordFixedCells | main.py:79-93 | the date, the event and updated_at cells |
| MainPipeline.RecordCells | main.py:80-91 | the weather cells come from weather.csv, the numbers from the feed |
| MainPipeline.FirstMatch | main.py:132-133 | the first row whose date is the record's date; none iff there is none |
| MainPipeline.UpsertPredicted | main.py:132-149 | same columns, and the table stays well formed |
| MainPipeline.UpsertUpdatesFirstMatch | main.py:132-136 | existing date: only the first matching row changes, exactly in the record's keys |
| MainPipeline.UpsertAppendsNewDate | main.py:137-149 | new date: old rows kept, one row appended with 0, 0, "", the record's cells and NA elsewhere |
| MainPipeline.FirstMatchAfterUpdate | main.py:132-136 | after an update the date still first matches the same row |
| MainPipeline.FirstMatchAfterAppend | main.py:137-149 | after an append the date first matches the appended row |
| MainPipeline.UpsertRerun | main.py:132-149 | a second run with a record of the same keys equals running only the second |
| MainPipeline.AppendHistory | main.py:49-150 | skipped, with the file unchanged, without feed or history, without a feed date, or for an empty weather.csv; missing weather.csv raises; otherwise the file becomes the normalised table with the record upserted |
| MainPipeline.NormaliseColumns | main.py:122-130 | the loop over required columns yields Normalise |
| MainPipeline.AddMissingColumns | main.py:126-128 | the per-column loop yields AddColumns |
| MainPipeline.AddColumn | main.py:127-128 | an existing column is left alone; a missing one is appended all missing |
| MainPipeline.AddColumnsSnoc | main.py:126-128 | adding `req + [key]` is adding `req`, then `key` |
| MainPipeline.Upsert | main.py:132-149 | the update-or-append step on the file yields UpsertPredicted |
| MainPipeline.WriteRecord | main.py:134-135 | the `.at` writes change exactly row idx, in the record's keys |
| TrainModel.CompleteMeansFilled | train_model.py:46 | a row survives the blank filter iff every required cell is filled |
| TrainModel.CompleteIndices | train_model.py:46 | the complete rows' positions, in file order |
| TrainModel.StrictDate | train_model.py:50 | `pd.to_datetime` without coercion: a missing date is NaT, a bad one raises |
| TrainModel.KeepRows | train_model.py:46-50 | the complete rows with their dates, iff each is numeric and dated |
| TrainModel.LoadHistory | train_model.py:34-64 | every branch: FileNotFoundError, empty table, missing column, no complete row, missing date column, an unreadable date or value, and a single complete row are the errors; success exactly when the complete rows are usable and at least two, the result then the shifted samples, one fewer than the complete rows |
| TrainModel.ShiftedSamplesShift | train_model.py:50-55 | in date order each row's lag is the previous row's weather, and dates never decrease |
| TrainModel.ShiftedSamplesFromRows | train_model.py:50-59 | training row p is kept row p + 1 of the date order, with its own values and labels |
| TrainModel.ShiftedSamplesCover | train_model.py:50-59 | no row appears twice; all rows are there except the first in date order, whose values are the first lag |
| TrainModel.NUniqueTwo | train_model.py:68 | `nunique() >= 2` iff two labels differ |
| TrainModel.Fit | train_model.py:67-84 | a ValueError iff the target has one label; the fitted classifier otherwise |
| TrainModel.FogRows | train_model.py:184 | the samples at the foggy positions, in order and each once (the positions Where(FogMask) picks) |
| TrainModel.CastleTrainingSet | train_model.py:184-190 | the foggy rows when there are at least two and both castle labels occur, else every row |
| TrainModel.CastleFitFailsOnlyOnOneLabel | train_model.py:184-190 | the castle fit fails iff every row has the same castle label |
| TrainModel.FoggyLabelsAmongAll | train_model.py:184-185 | two castle labels among the foggy rows are two among all rows |
| TrainModel.EventTarget | train_model.py:105 | 1 iff fog_observed == 1 and castle_visible == 1, else 0 |
| TrainModel.CalibratorInputs | train_model.py:113-115 | one row per training row: fog, castle, product |
| TrainModel.CalibratorColumnsAgree | train_model.py:87-95 | the stored feature names select, at prediction, the columns trained on |
| TrainModel.ModelStore.constructor | train_model.py:19-21 | the three model files |
| TrainModel.TrainClassifier | train_model.py:67-84 | nothing is saved when the guard raises; the fitted model otherwise, the other file untouched |
| TrainModel.CalibratorFor | train_model.py:105-124 | no payload iff the event target has one class; otherwise the fitted calibrator with its feature names |
| TrainModel.TrainEventCalibrator | train_model.py:98-125 | the calibrator file becomes CalibratorFor (a one-class target removes it); the classifiers untouched |
| TrainModel.FogFit | train_model.py:182 | fails iff the fog target has one label |
| TrainModel.CastleFit | train_model.py:185-191 | fails iff the castle target has one label |
| TrainModel.LagFeatures | train_model.py:148-150 | a row's own weather, the previous row's in date order (NaN for the first), and prev_temp - temp |
| TrainModel.FullLagFeatures | train_model.py:152 | the first row in date order never has a full vector; any other has one iff both rows' weather is numeric |
| TrainModel.EventOf | train_model.py:162-169 | fog * castle without a calibrator file; its output otherwise, failing when it raises |
| TrainModel.PositionEvents | train_model.py:152-169 | None where the vector is not full; the first failure in sorted order aborts |
| TrainModel.OwnRowCells | train_model.py:171-172 | every file row gets the probability of its own vector, or NA |
| TrainModel.Where | train_model.py:172 | the positions of the mask, ascending |
| TrainModel.PositionalCells | train_model.py:172 | the values poured into the selected rows in file order |
| TrainModel.FileMask | train_model.py:152 | the mask aligned to file rows by label |
| TrainModel.SortedValues | train_model.py:158-169 | the probability array, in sorted order |
| TrainModel.AsWrittenCells | train_model.py:171-172 | the sorted probabilities poured in file order |
| TrainModel.WithEventColumn | train_model.py:171-172 | only the event column changes, replaced or appended |
| TrainModel.SortRows | train_model.py:144-146 | the rows' weather values and the coerced-date sort order |
| TrainModel.Backfill | train_model.py:128-174 | nothing without a file or for an empty table; KeyError without date or weather columns; a conversion error for a non-numeric weather value; the calibrator's error when PositionEvents fails; otherwise always a table, with the event column of the corrected OwnRowCells |
| TrainModel.BackfillOwnRow | train_model.py:152-172 | each row's event cell is its own vector's probability, NA without a full vector; no other cell changes |
| TrainModel.BackfillFirstRowNA | train_model.py:148-152 | the first row in date order gets NA |
| TrainModel.OwnRowCellsOwnVector | train_model.py:171-172 | each row's cell comes from its own sorted position |
| TrainModel.BackfillMisalignedAsWritten | train_model.py:158-172 | on a file not in date order, as written, row 0 gets another row's probability |
| TrainModel.BackfillHistory | train_model.py:128-174 | the file is rewritten with Backfill's table, or left as it was |
| TrainModel.Trained | train_model.py:182-193 | a SingleLabel error iff the fog or castle target has one label; otherwise both classifiers and the calibrator payload |
| TrainModel.TrainModels | train_model.py:182-193 | each model file is saved as soon as it is fitted; a castle failure leaves the new fog model |
| TrainModel.TrainMain | train_model.py:177-194 | a load error changes nothing; otherwise train, then backfill |
| TrainModel.TrainAndBackfill | train_model.py:179-194 | training, then the backfill with the new models |
| TrainModel.LoadedShaped | train_model.py:50-57 | every loaded row has five weather and five lag values |
| FetchWeather.MorningIndices | fetch_weather.py:56-62 | exactly the indices with hour 5 to 8, ascending; an error when a time stamp does not parse |
| FetchWeather.At | fetch_weather.py:77-81 | the series' values at the selected indices |
| FetchWeather.SeriesMean | fetch_weather.py:69-81 | IndexError iff an index is past the series, else TypeError iff a selected reading is null, else the mean |
| FetchWeather.MeansOf | fetch_weather.py:75-82 | all means iff every series is complete; otherwise the error of the first series that fails |
| FetchWeather.AveragesAt | fetch_weather.py:67-82 | an error iff a series is incomplete, the first failing series deciding it; otherwise the first reading's day and the five means |
| FetchWeather.MorningAverage | fetch_weather.py:53-82 | ValueError without a morning reading; an IndexError or TypeError iff a series is short or has a null reading, the first such series deciding; otherwise the first reading's day and the five means |
| FetchWeather.AverageMorning | fetch_weather.py:53-82 | the index loop collects exactly MorningIndices, failing on the first unparsable stamp, and then AveragesAt over them yields MorningAverage |
| FetchWeather.MalformedPrefix | fetch_weather.py:58-60 | one unparsable time stamp makes the whole day fail |
| FetchWeather.MorningDayIsFirst | fetch_weather.py:67 | the day is that of the earliest morning reading |
| FetchWeather.MorningMeansBounded | fetch_weather.py:69-82 | each mean lies between the smallest and largest reading in the band |
| FetchWeather.ChooseTarget | fetch_weather.py:112-120 | the given non-empty date (an unparsable one an error) or else tomorrow, an empty `--date` being falsy; archive iff the flag is set, or a given date is before today |
| FetchWeather.ArchiveOnlyForPastDays | fetch_weather.py:115-120 | without the flag the archive is used iff the day is past |
| FetchWeather.Url | fetch_weather.py:21-22 | the two endpoints' URLs, one per endpoint |
| FetchWeather.Requests | fetch_weather.py:38-47 | the archive or forecast endpoint first; a second call to the forecast endpoint iff the archive answered 400 |
| FetchWeather.FetchWeather | fetch_weather.py:28-50 | the last response's body, or HTTPError iff its status is 400 to 599 |
| FetchWeather.FallbackOnlyAfterArchive400 | fetch_weather.py:41-49 | no retry for a forecast call; a non-400 archive answer is final; after a 400 the forecast answer decides |
| FetchForecastWindow.SelectIndicesForHours | fetch_forecast_window.py:73-83 | the loop yields Grouped and its key order |
| FetchForecastWindow.KeyOrderIsKeys | fetch_forecast_window.py:82 | the key order lists each key once |
| FetchForecastWindow.GroupedShape | fetch_forecast_window.py:73-83 | every group is non-empty and ascending, with indices in range |
| FetchForecastWindow.GroupedIndices | fetch_forecast_window.py:75-82 | index i is in day d's group iff its time stamp parses with a target hour on day d |
| FetchForecastWindow.GroupedKeys | fetch_forecast_window.py:82 | a day is a key iff some morning reading falls on it |
| FetchForecastWindow.MostFrequent | fetch_forecast_window.py:97 | an element of the list no other element outnumbers |
| FetchForecastWindow.Mode | fetch_forecast_window.py:97 | a code with the largest count |
| FetchForecastWindow.CodesAt | fetch_forecast_window.py:96 | the codes at the selected indices |
| FetchForecastWindow.MorningCode | fetch_forecast_window.py:94-97 | None without the key; IndexError for a short series; otherwise a most frequent code |
| FetchForecastWindow.MorningMean | fetch_forecast_window.py:86-107 | IndexError for no index or a short code series; ValueError for an unparsable first time stamp; then the first short or null-holding series raises; otherwise the first day, the code and the five means |
| FetchForecastWindow.SortInts | fetch_forecast_window.py:114 | a rearrangement of the keys |
| FetchForecastWindow.SortIntsAscends | fetch_forecast_window.py:114 | `sorted` ascends strictly on distinct keys |
| FetchForecastWindow.SliceEnd | fetch_forecast_window.py:114 | where `[:days]` ends, for negative days too |
| FetchForecastWindow.ReportedDays | fetch_forecast_window.py:114 | only days that are keys |
| FetchForecastWindow.ReportedDaysAreEarliest | fetch_forecast_window.py:114 | ascending, at most `days` of them, and no earlier key is skipped |
| FetchForecastWindow.GroupsOf | fetch_forecast_window.py:115 | the groups of the reported days |
| FetchForecastWindow.MorningsOf | fetch_forecast_window.py:114-116 | one morning per group in order, or the error of some group |
| FetchForecastWindow.FirstErrorStands | fetch_forecast_window.py:114-116 | groups after the first failure do not matter |
| FetchForecastWindow.AggregateMornings | fetch_forecast_window.py:110-119 | the loop yields Mornings |
| FetchForecastWindow.GroupDay | fetch_forecast_window.py:82-93 | a group's morning carries the group's day |
| FetchForecastWindow.MorningsDescribeReportedDays | fetch_forecast_window.py:110-119 | ValueError iff no day is reported; otherwise one morning per reported day that describes its group |
| FetchForecastWindow.MorningsDated | fetch_forecast_window.py:110-119 | the mornings carry the reported days in order |
| FetchForecastWindow.MorningsInDateOrder | fetch_forecast_window.py:110-119 | at most `days` mornings, strictly ascending, and no earlier day with a morning reading is left out |
| FetchForecastWindow.CheckDays | fetch_forecast_window.py:135-136 | accepted iff 1 <= days <= 16 |
| FetchForecastWindow.DateRange | fetch_forecast_window.py:57-59 | the inclusive range of days |
| FetchForecastWindow.EndDateCoversDays | fetch_forecast_window.py:57-59 | [today, today + days - 1] holds exactly `days` dates from today |
| FetchForecastWindow.FetchHourlyForecast | fetch_forecast_window.py:55-70 | one request for [today, end]; HTTPError iff the status is 400 to 599 |
| FetchForecastWindow.RunForecastWindow | fetch_forecast_window.py:133-141 | main: the range check, the request, then the aggregation |
| FetchForecastWindow.ForecastWindowBounds | fetch_forecast_window.py:133-141 | out-of-range days are rejected; a result has 1 to `days` mornings in strictly ascending order |
| Dashboard.ToDatetime | dashboard.py:44 | NaT stays, a date string is parsed, a bad string or a number raises |
| Dashboard.Converted | dashboard.py:44 | the row with its date converted, same keys |
| Dashboard.SortByDate | dashboard.py:44-45 | the converted rows in the stable date order |
| Dashboard.LoadHistory | dashboard.py:37-46 | the default columns without a file; an empty table as it is; KeyError without a date column; ValueError for a bad date; otherwise the converted rows sorted |
| Dashboard.LoadHistorySorts | dashboard.py:44-45 | the rows come back once each, in a sorted order of the file's rows |
| Dashboard.LoadedDatesAscend | dashboard.py:44-45 | the loaded dates never decrease from top to bottom, NaT last |
| Dashboard.RenderHeading | dashboard.py:56-69 | today, tomorrow or the date for a feed date, the date as caption; generic without one; a bad date raises |
| Dashboard.WithNote | dashboard.py:119-120 | a note column of "" is added when missing |
| Dashboard.FirstOnDay | dashboard.py:141-147 | the first row of the day; none iff no row has that date |
| Dashboard.FirstOnDaySameDates | dashboard.py:141-147 | the row looked up depends on the date cells only |
| Dashboard.FirstOnDayAppended | dashboard.py:141-147 | a row appended after rows without the day is found |
| Dashboard.TruthAsWritten | dashboard.py:148-149 | `bool()` of a cell: NaN is true, a number iff non-zero |
| Dashboard.Observed | dashboard.py:148-149 | a missing observation reads as unchecked; otherwise as `bool()` |
| Dashboard.NoteValue | dashboard.py:150-152 | NaN becomes "" and any other note is kept |
| Dashboard.FormRow | dashboard.py:141-147 | no row for an empty table or a day without rows; KeyError without a date or observation column |
| Dashboard.FormLookupAsWritten | dashboard.py:141-156 | blank form without a row; otherwise `bool()` of the stored flags and the note |
| Dashboard.FormLookup | dashboard.py:141-156 | blank form without a row; otherwise the stored flags (missing is unchecked) and the note |
| Dashboard.UnobservedDayTicksBoxesAsWritten | dashboard.py:148-149 | an unfilled day ticks both boxes as written, none as intended |
| Dashboard.ObservationForm.constructor | dashboard.py:161-165 | no date, both boxes unchecked, an empty note |
| Dashboard.ObservationForm.SelectDate | dashboard.py:122-165 | the date is recorded; a new date loads its values through the corrected FormLookup; the same date keeps the form; a failed lookup changes nothing else |
| Dashboard.FlagCell | dashboard.py:178-179 | `int(flag)` reads back as the flag |
| Dashboard.ObservationCells | dashboard.py:177-181 | exactly the three observation columns |
| Dashboard.MarkedRows | dashboard.py:177-181 | rows of the day get the cells, others are kept |
| Dashboard.NumberIndices | dashboard.py:185-189 | the positions of a column's numbers: increasing, each a number, none missed |
| Dashboard.Numbers | dashboard.py:185-189 | the numbers of a column, top to bottom, each once: the values at NumberIndices |
| Dashboard.ColumnMean | dashboard.py:185-189 | TypeError iff a cell is text or a date; NaN iff there is no number; otherwise exactly the mean of Numbers, between the smallest and largest number |
| Dashboard.FeatureValue | dashboard.py:185-189 | 0 for an empty table or a missing column, the column mean otherwise |
| Dashboard.FeatureMeans | dashboard.py:185-189 | the five weather cells of the new row |
| Dashboard.NewRow | dashboard.py:183-193 | a row iff every mean succeeds, with exactly the nine keys |
| Dashboard.UpdateDay | dashboard.py:176-181 | the update branch keeps the table well formed |
| Dashboard.AppendDay | dashboard.py:194 | the append branch keeps the table well formed |
| Dashboard.Observe | dashboard.py:172-194 | a saved table is well formed |
| Dashboard.StoredRow | dashboard.py:49-52 | dates go back to strings, other cells are unchanged |
| Dashboard.Stored | dashboard.py:49-52 | every row stored with StoredRow |
| Dashboard.ObserveKeepsColumns | dashboard.py:172-194 | old columns stay first and the observation columns exist |
| Dashboard.MarkDay | dashboard.py:177-181 | the row loop yields MarkedRows |
| Dashboard.ObserveTable | dashboard.py:172-194 | the save branch with its loop yields Observe |
| Dashboard.SaveObservation | dashboard.py:172-196 | on an error the file is unchanged; otherwise it holds the loaded, observed and stored table |
| Dashboard.UpdateDayRows | dashboard.py:176-181 | row by row: dates kept, written keys as specified, other cells kept |
| Dashboard.ObserveExistingDay | dashboard.py:176-181 | an existing day gets the flags and note on every one of its rows; nothing else changes except new missing columns |
| Dashboard.ObservationCellValues | dashboard.py:177-181 | the flags as 0 or 1 and the note |
| Dashboard.AppendDayRows | dashboard.py:183-194 | old rows keep their cells; the last holds the new row and is missing elsewhere |
| Dashboard.NewRowCells | dashboard.py:183-193 | the new row's date, flags and note |
| Dashboard.NewRowFeatures | dashboard.py:185-189 | the new row's weather cells are the column values |
| Dashboard.ObserveBranches | dashboard.py:176-194 | the update, append and error branches |
| Dashboard.ObserveNewDay | dashboard.py:182-194 | a new day appends one row iff every mean succeeds; old cells are kept |
| Dashboard.ObserveNewDayRow | dashboard.py:183-194 | the appended row has the day, flags, note and the means (0 without data) |
| Dashboard.AppendDayLast | dashboard.py:194 | the appended row holds the new row's cells |
| Dashboard.NewRowIsNewDayRow | dashboard.py:183-193 | the new row is the appended row of the day |
| Dashboard.NewDayRowKept | dashboard.py:194 | a row holding the new row's cells is the day's row |
| Dashboard.LookupSavedRow | dashboard.py:141-156 | the form shows the first row's saved values |
| Dashboard.FirstAfterUpdate | dashboard.py:176-181 | after an update the day's first row stays where it was, with the cells |
| Dashboard.AddColumnsSameDates | dashboard.py:194 | adding columns leaves the dates |
| Dashboard.FirstAfterAppend | dashboard.py:194 | after an append the day's first row is the new last row |
| Dashboard.LookupAfterSave | dashboard.py:141-194 | what was saved is what the form shows for the day, as written and as intended |
| Ordering.PrecedesTotal | train_model.py:51 | two distinct rows are ordered one way exactly |
| Ordering.SortedOrder | dashboard.py:45 | every row once, dates ascending with NaT last, ties in file order |
| Ordering.Latest | predict_model.py:66 | the eligible row that every other eligible row precedes; none iff none is eligible |
| Ordering.LatestIsLastSorted | predict_model.py:59-66 | `iloc[-1]` of the filtered, sorted rows is Latest |
| HistoryTable.Column | train_model.py:46 | a column's cells, top to bottom |
| HistoryTable.DateOf | predict_model.py:58 | `to_datetime(errors="coerce")`: a date, or NaT |
| HistoryTable.DateKeys | predict_model.py:58-59 | every row's coerced date |
| HistoryTable.BlankRow | main.py:138 | every column missing |
| HistoryTable.HistoryFile.Snapshot | main.py:62-66 | the file's table, present or not |
| HistoryTable.HistoryFile.constructor | main.py:62-66 | the file holds the given table |
| Common.Sub | predict_model.py:96 | NaN absorbs in prev_temp - temp |
| Common.FloatOf | predict_model.py:70-74 | float() of a cell: NaN for missing, a raise for a date or unparsable text |
| Common.CellOf | main.py:75-76 | a NaN float is stored as NA |
| Common.JsonFloat | predict_forecast_window.py:66-70 | float() of a JSON value: booleans count, null raises |
| Common.Mean | fetch_weather.py:69-73 | sum / len, between the smallest and largest value |
| Common.Trunc | predict_forecast_window.py:71 | int() truncates toward zero |

## Left out

- I/O is outside the model. The contents of history.csv are a `HistoryFile` object; every other file is a parameter. This covers CSV and JSON reading and writing, directory creation, `print`, logging, and the `save_csv`, `write_feed`, `save_json`, `save_results` and `read_weather` / `load_weather` helpers.
- The network is a parameter: `requests.get` becomes a function from endpoint and day to a status and a body. The query parameters are fixed, and the time-out (a raise) is not modelled.
- The clock is a parameter: `today` becomes a day number and `updated_at` a string.
- Model training and inference are opaque functions. LightGBM and LogisticRegression `fit`/`predict_proba` and `joblib` are not modelled. A classifier returns a probability. A calibrator may fail.
- The Magnus dew-point formula is a parameter, because it is transcendental floating point. Only its humidity domain check is modelled.
- `round` to 1, 2 or 3 decimals, percent formatting and `strftime` formatting are left out; values are kept unrounded. The overlay and the feed therefore hold exact values where the code rounds.
- Floats are reals or NaN; infinities and overflow are not modelled.
- pandas dtype coercion is not modelled. This covers `convert_dtypes`, `astype` in `append_history`'s normalisation and `astype(int)` of the labels beyond truncation. Existing cells are kept as read.
- A date inside the table is a string, a parsed day number, or missing. Time-of-day and time zones are not modelled. ISO date strings become day numbers through a parser parameter. A number in a date column is treated as unparsable.
- Where pandas' sort order among equal dates is unspecified, the model takes the stable sort from `Ordering` (file order).
- `pd.read_csv` failures are not modelled, including the `try` around it in `update_history_event_probability`: a file is either absent or a table.
- The column order of a pandas `concat` or `.loc` enlargement follows the model's `AddColumns`: missing columns are appended in the order they are named.
- The Streamlit UI is left out: widgets, charts, `session_state` plumbing beyond the form values, the data-editor save, the subprocess buttons, `load_feed`'s cache, the event log, and everything after the save branch.
- `argparse` and `main.py`'s orchestration of subprocesses are left out.
- dashboard_test.py is not part of this model: it builds and prints a fixture.
- Concurrent writers to history.csv are not modelled: the code takes no lock.
- `predict_model.main` always passes an event probability, so the legacy label policy is unreachable from it. `PredictModel.DetermineEvent` states both policies anyway.
- FetchForecastWindow.MorningCode: states only that the code is one with the largest count. On a tie Python picks by set iteration order; the model picks the earliest code.
- FetchForecastWindow.MorningCode: weather codes are modelled as integers. A null code, and `int()` of a code that is not one, are not modelled.
- PredictForecastWindow.BuildFeatureFrame: built on the corrected LagFrame. Without a history tail it returns rows with NaN lags; the code raises a ValueError at predict_forecast_window.py:114 (first finding below).
- PredictForecastWindow.RunPrediction: built on the corrected LagFrame. Without a history tail it returns payloads; the code raises at predict_forecast_window.py:114 (first finding below).
- TrainModel.Backfill: writes the corrected OwnRowCells, each row's own probability. The code writes AsWrittenCells, sorted-order values in file order, which differ when history.csv is not in date order (second finding below).
- TrainModel.BackfillHistory: inherits Backfill's corrected event column.
- TrainModel.TrainMain: inherits Backfill's corrected event column.
- TrainModel.TrainAndBackfill: inherits Backfill's corrected event column.
- Dashboard.ObservationForm.SelectDate: loads the corrected FormLookup, where a missing observation is unchecked. The code's `bool()` ticks both boxes for it (third finding below).
- FetchWeather.MorningAverage: the payload is modelled as its `hourly` object with all six keys present; the KeyError for a missing key is not modelled.
- load_models of both predictors is modelled as classifier and calibrator parameters that may be absent.

## Findings

| source | as written | input that shows it | evidently intended | confidence | as-written member | corrected member |
|---|---|---|---|---|---|---|
| predict_forecast_window.py:105-114 | without a history tail, `lag_sources[0]` is None and `pd.DataFrame(lag_sources, columns=...)` rejects the list | no history.csv and any non-empty forecast window | the first day gets NaN lags, as the single-day predictor does | not executed | PredictForecastWindow.LagFrameAsWritten, PredictForecastWindow.MissingHistoryRaisesAsWritten | PredictForecastWindow.LagFrame |
| train_model.py:158-172 | the probability array is in date order, but `.loc[feature_mask]` assigns it to rows in file order | three rows whose file order is not their date order (`MisorderedRows`), with classifiers that answer 1 only for temp 12 | each row gets the probability of its own feature vector | not executed | TrainModel.AsWrittenCells, TrainModel.BackfillMisalignedAsWritten | TrainModel.OwnRowCells, TrainModel.BackfillOwnRow |
| dashboard.py:148-149 | `bool(row["fog_observed"])` is True for a missing (NaN) observation | a history row whose observation cells are empty, as `append_history`'s normalisation leaves older rows | a missing observation shows as unchecked | not executed | Dashboard.FormLookupAsWritten, Dashboard.UnobservedDayTicksBoxesAsWritten | Dashboard.FormLookup |

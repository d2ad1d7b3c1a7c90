# Outbreak-risk pipeline: a verified model

This project models the Python core of a health-surveillance system that
turns raw records into a per-district outbreak risk score. There are three
kinds of records: hospital visits, pharmacy sales and social posts.

- **Aggregation.** Records are grouped by (district, calendar day) and
  reduced to five counts:
  - `hospitalCaseCount`: visits;
  - `severeCaseCount`: visits of severity `"High"`;
  - `pharmaSalesCount`: the sum of `qtySold`;
  - `socialPostsCount`: posts;
  - `negativePostsCount`: posts of sentiment `"Negative"`.

  The prediction job keeps the *sparse* table, which is the outer merge of
  the three partial aggregates with zero fill. The training job reindexes
  that table onto a *dense* grid: every calendar day from the first to the
  last observed day, crossed with every observed district, zero-filled.
- **Scoring.** For each district the prediction job sorts the district's rows
  by day and takes the latest one. It scores that row in tenths:
  - 5 when the anomaly classifier flags it;
  - 2 more for a hospital-count rise, and 2 more for a negative-post rise,
    each only when the row is flagged. A rise means more than 1.5 × the
    mean of the trailing window, which is the last ≤ 7 rows and includes
    the latest row;
  - 1 when the forecast exceeds 1.5 × the latest hospital count, whether
    or not the row is flagged.

  The score is clamped to [0, 10] and mapped to Low, Medium or High. One
  assessment is emitted per district.
- **Guards.**
  - Prediction builds and writes no assessments without a model file. It still
    reads and aggregates the records first, so an unparseable timestamp fails
    the run even then.
  - Training does nothing without the hospital CSV.
  - Training fits no model when another CSV is missing.
  - Training skips fitting when a model file already exists.

The two foreign computations are parameters:
- The anomaly classifier is a function `Counts -> int`. A row is anomalous
  exactly when it answers `-1`.
- The forecaster is a function from the district's (day, hospital count)
  series to `Option<real>`. `None` stands for the forecasting library
  raising, for instance on a series with fewer than two rows.

Files:
- `wrappers.dfy`: `Option` and `Result`.
- `sequences.dfy`: `Distinct` and `Unique`, the latter for `unique()`.
- `features.dfy`: keys, the five counts and feature rows.
- `records.dfy`: the three record kinds, the counting rules and the
  conservation argument.
- `aggregate.dfy`: the sparse table.
- `grid.dfy`: the dense table.
- `scoring.dfy`: the per-district scorer.
- `predict.dfy`: the district loop and the run.
- `train.dfy`: the training decisions.

Days are integers (day numbers) and counts are natural numbers. A record's
timestamp is the parser's result as an `Option<Day>`, where `None` means the
timestamp could not be read.

Two points where the code is easy to misread:
- Unparseable timestamps are not dropped by the aggregation itself. Only the
  ingestion script drops them, before storage (`python/el_final.py:51-56`).
  `aggregate_data` calls `.date()` on the `None` that `parse_datetime_safe`
  returns, and `load_and_aggregate_data` lets `pd.to_datetime` raise. Either
  way the run aborts. The model returns `Err(UnparseableTimestamp)`.
- The percentage at `python/predict.py:111` divides by the trailing mean with
  no guard. `Scoring.RiseMeansPositiveTotal` proves that none is needed:
  whenever the rise test holds, the window mean is positive.

## Model

| member | source | states |
|---|---|---|
| Features.DistrictsOf | python/predict.py:83 | The districts of a table without repeats; a district is listed exactly when some row carries it (`unique()`). |
| Records.HospitalEntries | python/predict.py:56 | The hospitalCaseCount rule: each visit counts once at its (district, day). Records.HospitalTotals proves the column weighs the number of visits. |
| Records.SevereEntries | python/predict.py:57 | The severeCaseCount rule: a visit counts 1 when its severity is "High", else 0. Records.HospitalTotals and Records.SubCountsBounded state its total and its bound by the hospital count. |
| Records.PharmaEntries | python/predict.py:61 | The pharmaSalesCount rule: a sale adds its qtySold. Records.PharmaTotals proves the column weighs Σ qtySold. |
| Records.PostEntries | python/predict.py:65 | The socialPostsCount rule: each post counts once. Records.SocialTotals proves the column weighs the number of posts. |
| Records.NegativeEntries | python/predict.py:66 | The negativePostsCount rule: a post counts 1 when its sentiment is "Negative", else 0. Records.SocialTotals and Records.SubCountsBounded state its total and its bound by the post count. |
| Records.CountsAt | python/predict.py:55-67 | Each of the five counts at a key is the weighted number of records of its column that fall on that key. |
| Records.SubCountsBounded | python/predict.py:55-67 | At every key, severeCaseCount ≤ hospitalCaseCount and negativePostsCount ≤ socialPostsCount. |
| Records.UnseenIsZero | python/predict.py:69-70 | A source with no record on a key contributes 0 to its columns there, which is the outer merge's fill. |
| Records.UnobservedIsZero | python/train.py:50 | A key on which no source has a record has all five counts 0. |
| Records.WeighedUnmatched | python/predict.py:55-67 | A column whose records all miss a key has value 0 at that key. |
| Records.WeighedPointwise | python/predict.py:57 | Counting a sub-selection of records (weights pointwise no larger) gives no larger a count. |
| Records.HitsAbsent | python/predict.py:55-67 | A record whose key is not among the table's keys is counted in no row. |
| Records.HitsOnce | python/predict.py:55-67 | A record whose key is among the table's distinct keys is counted in exactly one row, with its full weight. |
| Records.SumWeighedSplit | python/predict.py:55-67 | The column total over a set of keys splits into the first record's share plus the rest. |
| Records.SumWeighedNone | python/predict.py:55-67 | No records give a total of 0 over any keys. |
| Records.Conservation | python/predict.py:55-70 | If the table's keys are distinct and cover every record's key, summing a column over them gives the total weight of the records. |
| Records.TableSum | python/predict.py:55-70 | The column total of a table whose rows hold the counted values equals the records' weight summed over the table's keys. |
| Records.TableConservation | python/predict.py:55-70 | A table with distinct keys that covers every observed key and holds the counted values has, per column, the records' total weight as its column total. |
| Records.HospitalTotals | python/predict.py:56-57 | The hospital column weighs the number of visits; the severe column weighs the number of "High" visits. |
| Records.PharmaTotals | python/predict.py:61 | The pharmacy column weighs Σ qtySold. |
| Records.SocialTotals | python/predict.py:65-66 | The posts column weighs the number of posts; the negative column weighs the number of "Negative" posts. |
| Records.ColumnTotalsOfRecords | python/predict.py:55-70 | Such a table's five column totals are the number of visits, of severe visits, Σ qtySold, the number of posts and of negative posts. |
| Aggregate.AggregateSparse | python/predict.py:50-53 | Aggregation succeeds exactly when every timestamp parses; otherwise it fails with UnparseableTimestamp rather than dropping the record. |
| Aggregate.GroupKeysAreSeen | python/predict.py:55-67 | A key is a group of a source's aggregate exactly when that source has a record on it; the merged keys are those of any source. |
| Aggregate.ObservedKeys | python/predict.py:55-70 | The group-by keys of the three sources, concatenated, before the merge removes repeats. Aggregate.GroupKeysAreSeen proves a key is among them exactly when some record falls on it. |
| Aggregate.MergedIsCounted | python/predict.py:69-70 | The outer merge with zero fill yields at every key exactly the counted values. |
| Aggregate.MergedCounts | python/predict.py:69-70 | The outer merge with zero fill at one key: a partial aggregate's columns where that source has the key, 0 otherwise. Aggregate.MergedIsCounted proves it equals Records.CountsAt. |
| Aggregate.SparseTable | python/predict.py:55-72 | One row per merged key holding the merged counts. Its keys are given by Aggregate.SparseKeys, its rows by Aggregate.SparseCounts, its totals by Aggregate.SparseConservation. |
| Aggregate.SparseKeys | python/predict.py:69-70 | The sparse table has one row per key, and a key has a row exactly when at least one source has a record on it. |
| Aggregate.SparseCounts | python/predict.py:55-70 | Each sparse row holds the counted values, severe ≤ hospital and negative ≤ posts, and columns of a source with no record on the key are 0. |
| Aggregate.SparseConservation | python/predict.py:55-70 | The sparse table's column totals are the number of visits, of severe visits, Σ qtySold, the number of posts and of negative posts. |
| Aggregate.SparseEmpty | python/predict.py:69-70 | The sparse table is empty exactly when there are no records at all. |
| Grid.DateRange | python/train.py:46 | The days from lo to hi inclusive, in order, hi − lo + 1 of them. |
| Grid.DateRangeSpan | python/train.py:46 | The range has no repeated day and holds exactly the days between its bounds, observed or not. |
| Grid.DayKeys | python/train.py:49 | The keys of one day, one per district. |
| Grid.Product | python/train.py:49 | The Cartesian product of days and districts: #days × #districts keys, holding exactly the pairs. |
| Grid.ProductDistinct | python/train.py:49 | The product of two repeat-free lists has no repeated key. |
| Grid.Lookup | python/train.py:50 | Reindexing with fill 0 gives a key's row when the table has it, and all-zero counts otherwise. |
| Grid.Reindex | python/train.py:50 | Each grid key paired with Grid.Lookup's counts for it. Grid.DenseIsGrid and Grid.DenseCells state what it yields. |
| Grid.FirstDay | python/train.py:46 | The minimum observed day: some row has it and none is earlier. |
| Grid.LastDay | python/train.py:46 | The maximum observed day: some row has it and none is later. |
| Grid.FirstNotAfterLast | python/train.py:46 | The minimum day does not exceed the maximum, so the range is non-empty. |
| Grid.ProductSize | python/train.py:46-49 | The grid over the days lo..hi and a district list has (hi − lo + 1) × #districts keys. |
| Grid.ProductSpan | python/train.py:46-49 | A key is in the grid over lo..hi exactly when its day is between lo and hi inclusive and its district is listed. |
| Grid.GridKeys | python/train.py:46-49 | The `full_index`: every day from the first to the last observed day crossed with every observed district. Grid.GridSize, Grid.GridDistinct and Grid.GridSpan state its size, distinctness and contents. |
| Grid.GridSize | python/train.py:46-49 | The grid has (max − min + 1) × #districts keys. |
| Grid.GridDistinct | python/train.py:49 | No grid key is repeated. |
| Grid.GridSpan | python/train.py:46-49 | A key is in the grid exactly when its day is in [min, max] and its district was observed. |
| Grid.AggregateDense | python/train.py:25-52 | Training aggregation succeeds exactly when every timestamp parses and there is at least one record; an unparseable timestamp fails with UnparseableTimestamp, no records at all fails with NoObservations. |
| Grid.DenseTable | python/train.py:43-52 | The sparse table reindexed onto the grid of Grid.GridKeys. Its shape is given by Grid.DenseSize and Grid.DenseSpan, its cells by Grid.DenseCells, its totals by Grid.DenseConservation. |
| Grid.DenseIsGrid | python/train.py:49-50 | The dense table's keys are exactly the grid, in grid order. |
| Grid.DenseSize | python/train.py:46-50 | The dense table has (max − min + 1) × #districts rows. |
| Grid.DenseSpan | python/train.py:46-50 | The dense table has one row per key, and a key has a row exactly when its day is in [min, max] and its district was observed. |
| Grid.DenseCoversObserved | python/train.py:46-50 | Every key with a record is a row of the dense table. |
| Grid.DenseCells | python/train.py:43-44 | A dense cell keeps the merged counts when its key was observed and is all zeros otherwise; either way it holds the counted values. |
| Grid.DenseConservation | python/train.py:43-50 | Reindexing adds only zero rows: every column total equals the sparse table's, which is the records' total. |
| Scoring.InsertByDay | python/predict.py:84 | Inserting into a day-sorted list keeps it sorted and adds exactly that row. |
| Scoring.SortByDay | python/predict.py:84 | The result is sorted by day and a permutation of the input. |
| Scoring.RowsOf | python/predict.py:84 | Exactly the rows of the given district, each as many times as it occurs in the table (the boolean-mask filter). |
| Scoring.History | python/predict.py:84 | The district's rows sorted by day: sorted, a permutation of the filtered rows, so each row of the district occurs exactly as often as in the table. |
| Scoring.Latest | python/predict.py:100 | `df.iloc[-1]`, the last row of the sorted history. Scoring.AssessmentIsLatest proves no row of the history is later. |
| Scoring.Window | python/predict.py:105-112 | The last at most 7 rows (`tail(7)`). Scoring.WindowHoldsLatest proves it is non-empty, at most 7 long and ends with the latest row. |
| Scoring.Mean | python/predict.py:105-112 | The window's column total divided by its length (`.mean()`). Scoring.RiseMeansPositiveTotal shows it is positive whenever a rise holds. |
| Scoring.Rise | python/predict.py:109-112 | The rise test in integers. Scoring.RiseAsMean proves it equals "latest > 1.5 × mean". |
| Scoring.TotalAtLeastLast | python/predict.py:105 | A window's column total is at least its last row's value. |
| Scoring.WindowHoldsLatest | python/predict.py:105-112 | The trailing window is non-empty, has at most 7 rows and ends with the latest row. |
| Scoring.ThresholdAsMean | python/predict.py:109 | The integer test 2·n·x > 3·s is the same as x > 1.5 × (s / n). |
| Scoring.RiseAsMean | python/predict.py:109-112 | The rise test holds exactly when the latest value exceeds 1.5 × the trailing mean. |
| Scoring.RiseMeansPositiveTotal | python/predict.py:109-111 | Whenever the rise test holds, the window total and mean are positive, so the percentage never divides by zero. |
| Scoring.SingleRowNoRise | python/predict.py:105-112 | With a single-row history neither rise test can hold. |
| Scoring.RisePercent | python/predict.py:111 | The percentage rise of the latest hospital count over the trailing mean; its divisor is positive by Scoring.RiseMeansPositiveTotal. |
| Scoring.RiskScore | python/predict.py:101-119 | The 5/2/2/1 increments in tenths: always within [0, 10] without clamping, at least 5 with an anomaly, and only the forecast term without one. |
| Scoring.Clamp | python/predict.py:120 | `min(1.0, max(0.0, score))` in tenths: within [0, 10], and the identity on scores already there. |
| Scoring.AlertOf | python/predict.py:120-124 | High exactly above 7 tenths, Medium exactly in (4, 7], Low exactly at or below 4. |
| Scoring.ForecastRises | python/predict.py:116 | The forecast test: forecast > 1.5 × latest hospitalCaseCount. Scoring.ScoreBounds and Scoring.ExplanationClauses state its effect on the score and the explanation, with or without an anomaly. |
| Scoring.ExplanationOf | python/predict.py:103-118 | The clauses of the explanation in order. Scoring.ExplanationClauses states when each clause is present. |
| Scoring.AssessmentOf | python/predict.py:100-137 | The district's assessment: latest row, clamped score, level and explanation. Scoring.ScoreBounds, Scoring.AnomalyDecides and Scoring.AssessmentIsLatest state its properties. |
| Scoring.AssessDistrict | python/predict.py:100-137 | The accumulated score, explanation, clamp and level are those of the scorer's specification. |
| Scoring.ScoreBounds | python/predict.py:101-120 | The score equals 5·A + 2·(A ∧ hospital rise) + 2·(A ∧ negative rise) + forecast rise, lies in [0, 10] and takes only the values 0, 1, 5…10. |
| Scoring.AnomalyDecides | python/predict.py:101-124 | Without an anomaly the score is just the forecast term and the explanation opens with normal trends; with one it is at least 5 and opens with the spike; the level is Low exactly when no anomaly. |
| Scoring.ExplanationClauses | python/predict.py:103-118 | Each clause appears exactly when its condition holds: the case rise and the post spike only with an anomaly, the forecast clause whether or not. |
| Scoring.AlertBoundaries | python/predict.py:121-124 | 0.7 maps to Medium and 0.8 to High; 0.4 maps to Low and 0.5 to Medium. |
| Scoring.AssessmentIsLatest | python/predict.py:100-133 | The assessment carries the district, day and counts of the latest row, and no row of the history is later. |
| Scoring.WorkedDistrict | python/predict.py:100-124 | Hospital counts 10, 10, 10, 10, 60 with 10 negative posts on the last day score 0.9 (High, 200% rise) when flagged and 0 (Low) when not. |
| Predict.HistoryNonEmpty | python/predict.py:83-84 | A district taken from the table has at least one row. |
| Predict.ForecastInput | python/predict.py:93 | The (date, hospitalCaseCount) series the forecaster is fitted on, one pair per history row. |
| Predict.ForecastOf | python/predict.py:93-98 | The forecaster applied to the district's (date, hospitalCaseCount) series; None stands for the library raising, which fails the run by Predict.PredictAndSave. |
| Predict.DistrictAssessment | python/predict.py:84-137 | The loop body for one district: the classifier's flag on the latest row of the sorted history, scored with the forecast. Predict.SavedRow states its properties; Predict.PredictAndSave proves the loop produces it for every district. |
| Predict.IsAnomaly | python/predict.py:89-90 | The anomaly flag: set exactly when the classifier answers -1. Predict.SavedRow ties it to the alert level. |
| Predict.PredictAndSave | python/predict.py:75-137 | No model file gives ModelMissing; otherwise the run fails exactly when some district's forecast fails; a saved result set holds, for each district in order, the assessment of its history with the classifier's flag on the latest row. |
| Predict.SavedDistricts | python/predict.py:83-127 | The saved districts are the table's districts: none twice and every one present. |
| Predict.SavedRow | python/predict.py:89-134 | Each saved assessment carries a row of the table that is its district's latest; its level is Low exactly when the classifier did not return −1; its score is in [0, 10]. |
| Predict.RunPrediction | python/predict.py:155-166 | An unparseable timestamp fails the run even without a model; with every timestamp parsed the run is ModelMissing exactly without a model, and Saved exactly when the model exists and every district's forecast succeeds, holding the assessments of the sparse table. |
| Predict.StoredAfter | python/predict.py:139-151 | A saved run replaces the whole stored result set with one row per assessment; any other outcome leaves it unchanged. |
| Predict.Summary | python/predict.py:142-144 | The stored columns of an assessment: district, date, the five counts, score and level, without the explanation. |
| Train.TrainMain | python/train.py:16-76 | No hospital CSV: nothing is done. Another CSV missing: nothing is trained. With all CSVs, a failing aggregation crashes the script even when a model file exists; otherwise an existing model file is kept; a model is fitted exactly when all CSVs exist, no model file exists and aggregation succeeds, and then on the dense table. |

## Left out

- Database access, the model file and the CSV files: reading tables and
  files, the DELETE-then-INSERT write, the commit and the top-level
  try/finally. Their effects are parameters (`modelPresent`, the
  CSV-existence flags, the record lists) or the abstract result
  `Predict.StoredAfter`.
- IsolationForest fitting, joblib persistence and Prophet numerics. These
  are foreign library calls. The classifier and the forecaster are function
  parameters. The contamination and seed used for fitting are not modelled.
- Float arithmetic of the score. The score is kept in exact tenths. In
  doubles, 0.5 + 0.2 + 0.2 + 0.1 is 0.9999999999999999, not 1.0. On the ten
  reachable combinations these errors are below one unit in the last place.
  They do not cross the 0.4 and 0.7 thresholds, and `round(score, 2)`
  removes them.
- Predict.StoredAfter: the stored `outbreakRiskScore` is kept as whole
  tenths rather than as the rounded double, which agrees with it as noted
  above.
- The `:.0f` formatting inside explanation strings. The explanation is the
  list of its clauses, carrying exact numbers.
- Row order of the aggregated tables. pandas sorts merge keys, and the
  model keeps first-seen order. The order of districts in `unique()`
  therefore follows the table as modelled.
- Grid.AggregateDense: a blank timestamp cell in a training CSV becomes
  NaT, and pandas' `groupby` then drops that record silently. The model
  treats every unreadable timestamp as a failure. Only text that
  `pd.to_datetime` rejects fails in the code.
- Records.CountsAt: `count` of `patientId` and `postId` skips null ids.
  The model counts every record, so it assumes ids are non-null.
- Counts are unbounded naturals. pandas' int64 overflow is not modelled.
- The classifier's whole-history prediction at `python/predict.py:89`.
  Only the latest row's flag is used, so only that call is modelled.
- The `DATABASE_URL` check, the sleep/scheduling loop and the ingestion
  script `python/el_final.py`. They are I/O.
- The synthetic data generators `python/data_generator.py` and
  `python/train/ds_generator.py`. They fabricate random records.
- The Node/Express service under `src/`. It is HTTP plumbing and query
  wrappers.

# Outage-prediction feature pipeline, modelled in Dafny

The network incident monitor scores hourly OLT (optical line terminal) telemetry
for the next-hour outage risk. Every entry point prepares its rows the same way
before anything is scored:

- handling_skewness takes the clamped `log1p` of five count columns and drops the raw counts;
- add_time_feats writes the sine and cosine of the hour of the day;
- add_roll_delta coerces the five log columns to numbers and sorts the rows by
  (timestamp_1h, olt_id). Within each olt_id it then writes the first
  difference and the 6-hour and 24-hour trailing means of every log column;
- `temp_anomaly_score` is dropped;
- the base and rolling feature columns are selected;
- infinities and missing values become 0.0 and every cell is cast to float;
- the columns are reordered against a reference list.

make_prediction then scores one row at a time. It has a probability path, a
decision-function fallback and a no-model fallback, and labels a row 1 when the
probability reaches 0.4753.

Three drivers are modelled:

- the batch upload (process_batch_excel), which scores every row and counts the predicted outages;
- the live stream (process_and_predict), which also derives the hour, and shows
  the newest ingestion first;
- the single-prediction form (dt_prep), which appends the form's row, tagged
  olt_id `"abc"` at the current hour, to a canned history. Only the last row
  goes on to be scored.

A data frame is a value, `Frames.Frame`:

- a column order;
- a map from column name to cells;
- a row count.

A cell is a `Values.Value`: a real number, a missing value (NaN/NaT/None), a
signed infinity, text, or a timestamp in seconds. numpy's `log1p`, `sin`,
`cos`, `exp`, float parsing and `pd.to_datetime` are fields of `Values.Env`.
They are uninterpreted, and `Values.Lawful` names the only facts that are assumed
about `log1p`.

The float parse may give NaN or an infinity, for text such as "nan", "inf"
or "1e999". The model follows the code: the `# Handle NaN values` step
(streamlit/utils/batch_prediction.py:78-79, streamlit/utils/data_prep.py:107-108)
replaces non-finite numbers with 0.0 but leaves text alone until astype(float),
so a base-feature cell reading "inf" reaches the classifier as an infinite
float.

Each pipeline stage is a function. The code that loops is written as a method
with a `while` loop, proved equal to that function. This covers:

- the skewness columns;
- the numeric coercion;
- the aggregate passes;
- the scoring loop;
- the stages run in sequence;
- the drivers.

A raised exception is an `Err` of `Common.Result`. The group key of
add_roll_delta is a parameter, and the drivers pass `Pipeline.GroupKey`, which
is olt_id. The trained classifier is a `Scoring.Loading` value: a load that
raises, no model, or a model with its answer on every frame. The reference
column list is an `Option`, where `None` is a list that could not be read. The
clock is the parameter `now`.

`Pipeline.ScoringOrder` is the row order of the feature table: the sort inside
add_roll_delta, taken on the input's own cells. It is proved to be a
permutation, and feature row i is proved to hold the cleaned cells of input row
`ScoringOrder(d)[i]`. This is what the two findings below rest on.

## Model

| member | source | states |
|---|---|---|
| Common.NatToStringInjective | streamlit/utils/data_prep_sup.py:125-129 | different window lengths give different `_roll{w}h_mean` column names |
| Sorting.SortPermSorted | streamlit/utils/data_prep_sup.py:102-107 | sort_values lists every row exactly once, in non-decreasing key order |
| Sorting.SortPermOfSorted | streamlit/utils/data_prep_sup.py:102-107 | rows whose keys are already in order stay where they are |
| Sorting.SortPermKeepsLast | streamlit/utils/data_prep.py:70-71 | a last row whose key no other row exceeds stays last, and every other position holds an earlier row |
| Sorting.SortPrefixPermutation | streamlit/utils/data_prep_sup.py:102-107 | the insertion sort of the first n rows is a permutation of them |
| Sorting.InsertElements | streamlit/utils/data_prep_sup.py:102-107 | inserting a row adds exactly that row and loses none |
| Sorting.InsertSorted | streamlit/utils/data_prep_sup.py:102-107 | inserting one row into a sorted order keeps it sorted |
| Frames.Row | streamlit/utils/batch_prediction.py:96 | `iloc[[idx]]` is a one-row frame with the same columns, holding row idx's cells |
| Frames.Concat | streamlit/utils/data_prep.py:65-66 | the concatenation has the rows of both frames and the union of their columns |
| Skew.HandlingSkewness | streamlit/utils/data_prep_sup.py:69-83 | the column loop, up to the first column that raises, then the drop, computes `Skew.Skewness` |
| Skew.SkewnessFacts | streamlit/utils/data_prep_sup.py:69-83 | succeeds exactly when every present count column is numeric; then every present count has its `_log` column of clamped logs, no raw count remains, absent counts are skipped, and every other column is unchanged |
| Skew.LogAllOk | streamlit/utils/data_prep_sup.py:76-80 | the loop succeeds if and only if each present key column is numeric |
| Skew.LogAllPresent | streamlit/utils/data_prep_sup.py:77-78 | each present key column gets a `_log` column holding its clamped logs |
| Skew.LogAllOthers | streamlit/utils/data_prep_sup.py:76-80 | columns other than the `_log` names pass through the loop untouched |
| Skew.LogAllErrSticky | streamlit/utils/data_prep_sup.py:76-80 | once a column raises, the later columns do not change the outcome |
| Skew.SkewedNoLogClash | streamlit/utils/data_prep_sup.py:71-74 | no count column is the `_log` name of another, so the loop never overwrites a column it still reads |
| Skew.LogCellBounds | streamlit/utils/data_prep_sup.py:78 | a clamped log is a number, non-negative, and 0 for counts at most 0 |
| TimeFeatures.TimeFeatsFacts | streamlit/utils/data_prep_sup.py:85-89 | fails exactly when hour_of_day is absent (reported as that KeyError) or not numeric; otherwise adds hour_sin and hour_cos per row, appended when new, and nothing else changes |
| TimeFeatures.TimeFeatsRowLocal | streamlit/utils/data_prep_sup.py:87-88 | the encoding of a row depends only on its hour |
| TimeFeatures.EncodingFinite | streamlit/utils/data_prep_sup.py:87-88 | a finite hour gives finite encodings; a missing or infinite hour gives NaN in both |
| TimeFeatures.SinColumn | streamlit/utils/data_prep_sup.py:87 | the sine column has one encoded cell per row |
| TimeFeatures.CosColumn | streamlit/utils/data_prep_sup.py:88 | the cosine column has one encoded cell per row |
| Rolling.SafeNumericColumns | streamlit/utils/data_prep_sup.py:91-97 | the coercion loop and the infinity replacement compute `Rolling.SafeNumeric` |
| Rolling.SafeNumericFacts | streamlit/utils/data_prep_sup.py:91-97 | afterwards no cell is infinite, key columns hold only numbers and missing values, and other cells change only from infinity to NaN |
| Rolling.CoerceIdempotent | streamlit/utils/data_prep_sup.py:95 | coercing a coerced column changes nothing |
| Rolling.HistoryFirst | streamlit/utils/data_prep_sup.py:110-111 | the first row of an olt_id partition has only itself as history |
| Rolling.HistoryNext | streamlit/utils/data_prep_sup.py:110-111 | a row's history extends the history of the previous row of its partition |
| Rolling.DeltaFirst | streamlit/utils/data_prep_sup.py:119-122 | the delta of a partition's first row is 0.0 (diff's NaN filled) |
| Rolling.DeltaNext | streamlit/utils/data_prep_sup.py:119-122 | a later delta is the difference from the previous row of the same partition, and 0.0 when either value is missing |
| Rolling.DeltaDefined | streamlit/utils/data_prep_sup.py:122 | a delta is never missing |
| Rolling.RollDefined | streamlit/utils/data_prep_sup.py:128 | with min_periods=1 a trailing mean exists whenever the row's own value is a number |
| Rolling.RollNonNegative | streamlit/utils/data_prep_sup.py:128 | a trailing mean of non-negative values is non-negative |
| Rolling.SinglePartition | streamlit/utils/data_prep_sup.py:112-116 | without a usable group key the delta is the change since the previous row and the mean covers the last w rows of the column |
| Rolling.AssignPass | streamlit/utils/data_prep_sup.py:119-122 | one pass over the keys writes one aggregate column per present key |
| Rolling.AddAggregates | streamlit/utils/data_prep_sup.py:118-129 | the delta pass and one pass per window write exactly the planned aggregate columns |
| Rolling.Prepare | streamlit/utils/data_prep_sup.py:100-116 | the coercion, the sort and the temporary group column give `Rolling.Prepared` |
| Rolling.AggregateOver | streamlit/utils/data_prep_sup.py:99-136 | the whole stage, for any key list, computes `Rolling.RollDelta` |
| Rolling.AddRollDelta | streamlit/utils/data_prep_sup.py:99-136 | add_roll_delta with its own key list computes `Rolling.RollDelta` |
| Rolling.RollDeltaFacts | streamlit/utils/data_prep_sup.py:99-136 | every present key has its delta column and one mean column per window, computed on the sorted rows per partition; every other column is the sorted input's; `__grp__` is removed whenever no group key is given or the group key is not a column |
| Rolling.PreparedRows | streamlit/utils/data_prep_sup.py:100-107 | the sort is a permutation of the rows, sorted by (timestamp_1h, group key) when there is a timestamp |
| Rolling.JobsDetermined | streamlit/utils/data_prep_sup.py:118-129 | two aggregate jobs that write the same column name are the same job, so no pass overwrites another |
| Features.Present | streamlit/utils/batch_prediction.py:73 | the kept names are distinct and are exactly the listed names that are columns |
| Features.PresentOrdered | streamlit/utils/batch_prediction.py:73 | the kept names keep the list's order |
| Features.PresentAll | streamlit/utils/batch_prediction.py:73 | a list of distinct present names is kept whole |
| Features.RollCols | streamlit/utils/batch_prediction.py:67-71 | exactly the columns containing a roll suffix and starting with a roll base are kept |
| Features.NumBaseNotRoll | streamlit/utils/batch_prediction.py:56-71 | no base feature is taken for a rolling one |
| Features.FeatureNamesFacts | streamlit/utils/batch_prediction.py:56-73 | the feature list names every present base column and rolling column once, base columns first, in base order |
| Features.SelectFeatures | streamlit/utils/batch_prediction.py:76 | the selection has exactly the feature list as columns, with their cells |
| Features.FirstUncastable | streamlit/utils/batch_prediction.py:79 | names a column that astype(float) rejects, and is None exactly when there is none |
| Features.CleanFacts | streamlit/utils/batch_prediction.py:79 | fails exactly when a cell is text float() rejects or a timestamp, naming such a column; otherwise every cell is a float: numbers kept, inf and NaN become 0.0, text becomes the float it reads as ("inf" stays infinite), and only a text cell can give a non-finite float |
| Features.ReorderFacts | streamlit/utils/data_prep_sup.py:164-170 | with a reference list, the result holds exactly the listed names that are columns, in list order and with their cells; without one, the frame is returned as it is |
| Features.ReorderSame | streamlit/utils/data_prep_sup.py:164-166 | a list equal to the frame's own columns leaves the frame unchanged |
| Scoring.LogisticBounds | streamlit/utils/data_prep_sup.py:241 | over the reals, the squashed decision score lies strictly between 0 and 1 |
| Scoring.PredictionFacts | streamlit/utils/data_prep_sup.py:224-246 | label 1 exactly when the first probability reaches the threshold; fails exactly on a load error, a raising predict_proba or an empty probability column; no model gives (0, [0.0]); the decision fallback gives the logistic, in [0, 1) over the reals; a raising decision function gives zeros |
| Scoring.Labels | streamlit/utils/batch_prediction.py:91-106 | entry i is the label from scoring row i alone |
| Scoring.Probas | streamlit/utils/batch_prediction.py:91-106 | entry i is the first probability from scoring row i alone |
| Scoring.ScoreRows | streamlit/utils/batch_prediction.py:91-106 | one label and probability per row, both None for a row that raised; label 1 exactly when the probability reaches 0.4753; a failing row does not stop the loop |
| Scoring.OutageCountReaching | streamlit/utils/batch_prediction.py:118-120 | the outage count is the number of rows reaching the threshold, between 0 and the row count |
| Pipeline.DropTemp | streamlit/utils/batch_prediction.py:51-53 | temp_anomaly_score is gone and every other column is unchanged |
| Pipeline.Engineer | streamlit/utils/batch_prediction.py:47-53 | the three stages in sequence, then the drop, compute `Pipeline.Engineered` |
| Pipeline.BuildFeatures | streamlit/utils/batch_prediction.py:47-82 | the engineering, selection, cleaning and reordering compute `Pipeline.FeatureTable` |
| Pipeline.FeatureTableFacts | streamlit/utils/batch_prediction.py:47-82 | one row per input row, every cell a float, a cell that is not a finite number only where the engineered frame held text reading as one, only base or rolling columns, and only listed columns under a reference list |
| Pipeline.FeatureTableErrors | streamlit/utils/batch_prediction.py:47-82 | the table fails exactly when a stage raises: a non-numeric count, a missing or non-numeric hour, or an uncastable feature cell |
| Pipeline.TableOfEngineered | streamlit/utils/batch_prediction.py:76-82 | the table is the reordered, cleaned selection of the engineered frame |
| Pipeline.TableCell | streamlit/utils/batch_prediction.py:76-82 | a table cell is the cleaned engineered cell of the same row |
| Pipeline.TableHas | streamlit/utils/batch_prediction.py:73-82 | an engineered feature column reaches the table unless the reference list omits it |
| Pipeline.RollNameSelected | streamlit/utils/batch_prediction.py:67-71 | the name test picks every column add_roll_delta writes |
| Pipeline.RollColumnsInTable | streamlit/utils/batch_prediction.py:47-82 | each present count has its delta and both means in the table unless the reference list omits them |
| Pipeline.GroupTempRemoved | streamlit/utils/data_prep_sup.py:110-134 | with group key olt_id and no olt_id column, the temporary `__grp__` column is created and removed again |
| Pipeline.LogColumnPresent | streamlit/utils/batch_prediction.py:47-48 | the log of a present count survives the first two stages |
| Pipeline.EngineeredKeeps | streamlit/utils/batch_prediction.py:47-48 | the first two stages leave a base column no stage writes as it was |
| Pipeline.OrderAgrees | streamlit/utils/data_prep_sup.py:102-105 | the sort inside add_roll_delta orders the rows as `Pipeline.ScoringOrder` |
| Pipeline.FeatureRowsFollowOrder | streamlit/utils/batch_prediction.py:47-82 | feature row i holds the cleaned base cells of input row ScoringOrder(df)[i] |
| Pipeline.EngineeredRow | streamlit/utils/batch_prediction.py:47-53 | row i of the engineered frame holds input row ScoringOrder(df)[i] |
| Pipeline.TableColumnFromInput | streamlit/utils/batch_prediction.py:73-76 | a base feature no stage writes is in the table only if it was in the input |
| Pipeline.DeltaInTable | streamlit/utils/data_prep_sup.py:119-122 | a delta column reaches the table row by row as the cleaned difference within its partition |
| Pipeline.GroupFollowsOrder | streamlit/utils/data_prep_sup.py:109-111 | the partition cells are the input's olt_id cells in the table's row order |
| Drivers.StampCell | streamlit/utils/batch_prediction.py:40 | a parsed cell is a timestamp exactly when it parses, else NaT |
| Drivers.ParseTimestamps | streamlit/utils/batch_prediction.py:38-40 | only timestamp_1h changes, each cell to its parse |
| Drivers.SortByColumnFacts | streamlit/utils/batch_prediction.py:42-44 | the sort permutes whole rows and orders the column's keys |
| Drivers.MissingColumns | streamlit/utils/batch_prediction.py:33 | exactly the required columns that are absent |
| Drivers.AttachFacts | streamlit/utils/batch_prediction.py:112-113 | row i carries prediction i and probability i by position; every other column is unchanged; the two columns are appended when new |
| Drivers.ScoringOrderPermutation | streamlit/utils/data_prep_sup.py:102-105 | every input row is scored exactly once |
| Drivers.AttachRows | streamlit/utils/batch_prediction.py:112-113 | in the reordered annotated frame, row i holds the cells of input row p[i] |
| Drivers.TableFollowsOrder | streamlit/utils/batch_prediction.py:47-82 | every feature row holds the cleaned base cells of input row ScoringOrder(d)[i] |
| Drivers.AlignedCell | streamlit/utils/batch_prediction.py:112-113 | with the rows reordered by the table's order, feature and input cells sit on the same row |
| Drivers.RowsAligned | streamlit/utils/batch_prediction.py:111-113 | writing the scores into the rows in the table's order puts each label beside its own features |
| Drivers.TiedPairOrders | streamlit/utils/batch_prediction.py:42-44 | two rows with one timestamp and out-of-order olt_ids stay in place under the timestamp sort but are swapped by the pipeline's order |
| Drivers.PositionalAttachMisplaces | streamlit/utils/batch_prediction.py:111-113 | with such a pair, output row 0 keeps input row 0 but gets the label of the features built from input row 1 |
| Batch.ProcessBatchExcel | streamlit/utils/batch_prediction.py:23-126 | None exactly on a missing column, a stage that raises, or an empty upload (the division by zero); otherwise the sorted upload with the scores attached by position, and the outage summary, present exactly when every row was scored, equal to the rows reaching the threshold |
| Batch.BatchLabelsMisplaced | streamlit/utils/batch_prediction.py:111-113 | a tied pair gets its labels crossed |
| Batch.ProcessBatchAligned | streamlit/utils/batch_prediction.py:23-126 | the same outcomes, with the rows in the table's order so that every label sits beside its own features |
| Live.HourOfStamp | streamlit/custom_pages/live_prediction.py:148-150 | the derived hour is the whole hour of the day the timestamp falls in, 0 to 23 |
| Live.WithHour | streamlit/custom_pages/live_prediction.py:148-150 | hour_of_day is added exactly when the timestamp column is there; an existing hour is kept |
| Live.LiveInputFacts | streamlit/custom_pages/live_prediction.py:139-151 | after the sort, the parse and the derived hour, hour_of_day is present when either column was; a derived hour is the hour of the row's parsed timestamp; other columns are the sorted input's |
| Live.Display | streamlit/custom_pages/live_prediction.py:227-229 | the display sort keeps the columns and does nothing without ingested_time |
| Live.DisplayWithoutIngestion | streamlit/custom_pages/live_prediction.py:227-229 | without ingested_time the annotated frame is shown as it is |
| Live.DisplayOrder | streamlit/custom_pages/live_prediction.py:227-229 | the display lists each row once, the newest ingestion first and missing times last |
| Live.ProcessAndPredict | streamlit/custom_pages/live_prediction.py:119-235 | an empty frame comes back unchanged; a missing column or a raising stage returns the prepared frame unscored; otherwise the scores are attached by position and the frame is put in display order |
| Live.LiveLabelsMisplaced | streamlit/custom_pages/live_prediction.py:223-225 | a tied pair gets its labels crossed |
| Live.ProcessAndPredictAligned | streamlit/custom_pages/live_prediction.py:119-235 | the same outcomes, with each label beside the features it was computed from |
| DataPrep.MaintenanceFlag | streamlit/utils/data_prep.py:28 | the flag is 1 exactly for "Yes" |
| DataPrep.SampleTypeOf | streamlit/utils/data_prep.py:49-61 | each sample type is chosen exactly when its profile matches (the two profiles never overlap), and the default otherwise |
| DataPrep.FormDefaultsPickNoOutage | streamlit/utils/data_prep.py:11-26 | the values the form opens with select the no-outage history |
| DataPrep.FloorHour | streamlit/utils/data_prep.py:32 | the current hour is the whole hour at or just before the clock |
| DataPrep.FormColumnsDistinct | streamlit/utils/data_prep.py:31-47 | the fifteen column names of the form's row are distinct |
| DataPrep.CurrentRow | streamlit/utils/data_prep.py:30-47 | one row with the fifteen form columns in the order the frame is built with, the current hour and olt_id "abc" |
| DataPrep.CurrentCellsNumeric | streamlit/utils/data_prep.py:34-46 | every cell other than the timestamp and the id is a number |
| DataPrep.Combined | streamlit/utils/data_prep.py:63-68 | the current row is appended to a non-empty history and stands alone otherwise |
| DataPrep.CombinedRows | streamlit/utils/data_prep.py:65-68 | the current row is last with all its columns; earlier rows are the history's, NaN where the history lacks a column |
| DataPrep.Arranged | streamlit/utils/data_prep.py:70-71 | the timestamp sort keeps the row count |
| DataPrep.DtInput | streamlit/utils/data_prep.py:49-71 | the prepared frame has at least the current row |
| DataPrep.DtPrep | streamlit/utils/data_prep.py:28-115 | fails exactly when a stage raises; otherwise it is the one-row frame of the feature table's last row |
| DataPrep.SortKeepsLast | streamlit/utils/data_prep.py:70-71 | a last row with the strictly latest timestamp stays last under the timestamp sort, which permutes whole rows |
| DataPrep.CombinedLater | streamlit/utils/data_prep.py:63-68 | appended after an older history, the current row is the strictly latest row |
| DataPrep.ArrangedKeepsLast | streamlit/utils/data_prep.py:70-71 | with a history older than the current row, the sort keeps the current row last |
| DataPrep.ScoringKeepsLast | streamlit/utils/data_prep_sup.py:102-105 | a strictly latest last row stays last in the pipeline's order |
| DataPrep.ArrangedLastRow | streamlit/utils/data_prep.py:63-71 | the prepared frame ends with the current row |
| DataPrep.ArrangedEarlier | streamlit/utils/data_prep.py:63-71 | every earlier prepared row has a strictly earlier timestamp |
| DataPrep.ArrangedOrder | streamlit/utils/data_prep.py:70-75 | the pipeline's order keeps the current row last |
| DataPrep.ArrangedLast | streamlit/utils/data_prep.py:63-75 | column by column, the last prepared row is the current one, scored last |
| DataPrep.ArrangedAlone | streamlit/utils/data_prep.py:33-75 | a current row whose id no history row shares is alone in its partition and scored last |
| DataPrep.ArrangedIds | streamlit/utils/data_prep.py:63-71 | rows before the current one carry only history ids |
| DataPrep.PassthroughInForm | streamlit/utils/data_prep.py:31-47 | every base feature no stage writes is a numeric form column |
| DataPrep.LastCellPassthrough | streamlit/utils/data_prep.py:83-111 | when the last row is scored last, the last table row carries its numeric cells |
| DataPrep.LastCellDeltaZero | streamlit/utils/data_prep.py:73-111 | a last row alone in its partition and scored last has every delta 0.0 |
| DataPrep.ArrangedRowScored | streamlit/utils/data_prep.py:63-115 | with a history older than the current row, the last table row holds the current row's numeric cells |
| DataPrep.ArrangedDeltasZero | streamlit/utils/data_prep.py:63-115 | with ids the history does not share, every delta of the last table row is 0.0 |
| DataPrep.FormRowScored | streamlit/utils/data_prep.py:28-115 | the row the form scores holds the user's entries in every base feature |
| DataPrep.FormDeltasZero | streamlit/utils/data_prep.py:33-115 | the form's row, tagged "abc", has every delta 0.0 against a history whose ids all differ |

## Left out

- Reading the Excel workbook, the Kafka/Snowflake stream, the CSV histories and the features list, and loading the model (historical_data, load_model, get_registry): the histories, the reference list and the load outcome are inputs.
- Every Streamlit widget, message, progress bar, button and table display; the scoring call behind the button in dt_prep is the `Scoring.MakePrediction` of the row `DataPrep.DtPrep` returns.
- Floating point: cells are reals. `log1p`, `sin`, `cos`, `exp`, float parsing and timestamp parsing are uninterpreted functions, with only `log1p(0) = 0`, non-negativity of `log1p` on non-negative arguments and positivity of `exp` (its result type `Values.Positive`) assumed.
- The classifier is an arbitrary function from frames to answers; CatBoost itself is out of scope.
- Sorting a column that mixes kinds (numbers with text, say) raises TypeError in pandas; the model orders kinds by a fixed rank instead.
- The one-column sorts by `timestamp_1h` and `ingested_time` use numpy's default quicksort, an introsort that is not stable above 16 rows, so pandas leaves the order of rows with equal keys unspecified; only the two-key sort inside add_roll_delta is stable. The model sorts every key stably, which fixes one admissible order: the `table ==` clauses of `Batch.ProcessBatchExcel` and `Live.ProcessAndPredict` describe one of pandas' possible outputs when keys tie.
- Row labels (the pandas index) are not modelled; frames are positional, which is how the drivers' list assignments behave.
- A reference list that names a column twice: the model keeps the first occurrence, where pandas would select the column twice.
- An exception inside the live display sort, or anywhere else past the scoring loop in process_and_predict, is not modelled; the model's display sort cannot fail.
- The trailing means of the form's row are not characterised beyond what `Rolling.RollDeltaFacts` states about every row.
- dt_prep does not catch exceptions; the model returns them as `Err`.
- The widget bounds of the form (hour 0 to 23 and the others) are not enforced; every input is accepted.
- Time zones: the clock is the parameter `now` in seconds, and "now" is tz-naive.
- Scoring.LogisticBounds: the strict bounds 0 < p < 1 hold of reals only; in float64, `1 / (1 + np.exp(-x))` rounds to exactly 1.0 for decision scores above about 37 and to 0.0 below about -745, because `exp` is modelled as a positive real function.
- Scoring.PredictionFacts: the decision fallback's `proba[0] < 1.0` holds of reals only, for the same reason; in float64 a large decision score gives 1.0.
- Rolling.AddRollDelta: requires every window to be at least 1, because `rolling(w, min_periods=1)` raises for a smaller window, and that error path is not modelled.
- DataPrep.FormRowScored: stated only for a selected history strictly older than the current hour, since an older current row would not sort last.
- DataPrep.FormDeltasZero: stated only for a history strictly older than the current hour whose ids all differ from "abc".

## Findings

| source | as written | input that shows it | evidently intended | confidence | as-written member | corrected member |
|---|---|---|---|---|---|---|
| streamlit/utils/batch_prediction.py:111-113 | the scores are written by position into the upload sorted by timestamp_1h alone, but the feature table was sorted again by (timestamp_1h, olt_id) inside add_roll_delta | two uploaded rows with the same timestamp_1h and olt_ids "B" then "A": output row 0 is row "B" but receives the label computed from row "A"'s features | each row carries the label of its own features | not executed | Batch.BatchLabelsMisplaced | Batch.ProcessBatchAligned |
| streamlit/custom_pages/live_prediction.py:223-225 | the same positional write on the frame sorted by timestamp_1h alone | two streamed rows with the same timestamp_1h, olt_ids "B" then "A", and no ingested_time | each row carries the label of its own features | not executed | Live.LiveLabelsMisplaced | Live.ProcessAndPredictAligned |

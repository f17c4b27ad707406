/**
 * process_batch_excel after the workbook is read: the required-column check,
 * the timestamp parse and sort, the pipeline, the per-row scoring loop, the
 * two result columns and the outage summary.
 */
module Batch {
  import opened Common
  import opened Values
  import opened Frames
  import opened Sorting
  import opened Rolling
  import opened Features
  import opened Scoring
  import opened Pipeline
  import opened Drivers

  const BatchRequired: seq<string> := [
    "timestamp_1h", "olt_id", "hour_of_day", "is_maintenance_window",
    "offline_ont_now", "temperature_avg_c", "link_loss_count",
    "bad_rsl_count", "high_temp_count", "dying_gasp_count",
    "offline_ont_ratio", "fault_rate", "snr_avg",
    "rx_power_avg_dbm", "trap_trend_score"]

  /** The frame returned and the summary shown: the number of predicted outages, when every row was scored. */
  datatype BatchReport = BatchReport(table: Frame, outages: Option<int>)

  /** The uploaded frame after the timestamp parse and the sort by timestamp_1h. */
  function BatchInput(env: Env, df: Frame): (d: Frame)
    requires Valid(df)
    ensures Valid(d) && d.height == df.height && d.data.Keys == df.data.Keys
  {
    SortByColumn(ParseTimestamps(env, df), TimestampCol, true)
  }

  /**
   * process_batch_excel on an uploaded frame. Scoring uses `reference` for
   * validate_and_reorder_columns and `load` for every make_prediction call.
   * None is the function's None: a missing column, an exception in the
   * pipeline, or the division by the row count of an empty upload.
   */
  method ProcessBatchExcel(env: Env, load: Loading, df: Frame, reference: Option<seq<string>>) returns (r: Option<BatchReport>)
    requires Valid(df)
    ensures MissingColumns(df, BatchRequired) != [] ==> r.None?
    ensures r.None? <==>
      || MissingColumns(df, BatchRequired) != []
      || FeatureTable(env, BatchInput(env, df), reference).Err?
      || df.height == 0
    ensures r.Some? ==>
      var d := BatchInput(env, df);
      var features := FeatureTable(env, d, reference).value;
      && r.value.table == Attach(d, Labels(env, load, features), Probas(env, load, features))
      && (r.value.outages.Some? <==> AllScored(Labels(env, load, features)))
      && (r.value.outages.Some? ==>
            r.value.outages.value == Reaching(Probas(env, load, features))
            && 0 <= r.value.outages.value <= df.height)
  {
    var missing := MissingColumns(df, BatchRequired);
    if missing != [] {
      return None;
    }
    var d := ParseTimestamps(env, df);
    d := SortByColumn(d, TimestampCol, true);
    var features := BuildFeatures(env, d, reference);
    if features.Err? {
      return None;
    }
    var predictions, probabilities := ScoreRows(env, load, features.value);
    var table := Attach(d, predictions, probabilities);
    var outages: Option<int> := None;
    if AllScored(predictions) {
      if |predictions| == 0 {
        // outage_count / len(predictions) raises ZeroDivisionError
        return None;
      }
      OutageCountReaching(predictions, probabilities);
      outages := Some(OutageCount(predictions));
    }
    r := Some(BatchReport(table, outages));
  }

  /**
   * The labels are written by position into the frame sorted by timestamp_1h,
   * but the table was scored in the pipeline's (timestamp_1h, olt_id) order.
   * For two uploaded rows with one timestamp and olt_ids "B" then "A", the
   * first output row keeps its own cells while the label beside it was
   * computed from the second row's features.
   */
  lemma BatchLabelsMisplaced(env: Env, load: Loading, df: Frame, reference: Option<seq<string>>, c: string, features: Frame)
    requires Valid(df) && TiedPair(BatchInput(env, df)) && c in Passthrough
    requires FeatureTable(env, BatchInput(env, df), reference) == Ok(features) && c in features.data
    ensures var d := BatchInput(env, df);
      var out := Attach(d, Labels(env, load, features), Probas(env, load, features));
      && c in d.data && out.data[c][0] == d.data[c][0]
      && out.data[LabelCol][0] == LabelCell(LabelOf(RowScore(env, load, features, 0)))
      && features.data[c][0] == CleanValue(env, InfToNaN(d.data[c][1]))
  {
    PositionalAttachMisplaces(env, load, BatchInput(env, df), reference, c, features);
  }

  /**
   * process_batch_excel with the labels written to the rows they were
   * computed from: the output is the sorted upload in the pipeline's row
   * order, so row i carries the label of feature row i.
   */
  method ProcessBatchAligned(env: Env, load: Loading, df: Frame, reference: Option<seq<string>>) returns (r: Option<BatchReport>)
    requires Valid(df)
    ensures r.None? <==>
      || MissingColumns(df, BatchRequired) != []
      || FeatureTable(env, BatchInput(env, df), reference).Err?
      || df.height == 0
    ensures r.Some? ==>
      var d := BatchInput(env, df);
      var p := ScoringOrder(d);
      var features := FeatureTable(env, d, reference).value;
      && r.value.table == Attach(Rows(d, p), Labels(env, load, features), Probas(env, load, features))
      && IsPermutation(p, d.height)
      && ScoredBeside(env, load, features, r.value.table)
      && (r.value.outages.Some? <==> AllScored(Labels(env, load, features)))
      && (r.value.outages.Some? ==> r.value.outages.value == Reaching(Probas(env, load, features)))
  {
    var missing := MissingColumns(df, BatchRequired);
    if missing != [] {
      return None;
    }
    var d := ParseTimestamps(env, df);
    d := SortByColumn(d, TimestampCol, true);
    var features := BuildFeatures(env, d, reference);
    if features.Err? {
      return None;
    }
    var predictions, probabilities := ScoreRows(env, load, features.value);
    var p := ScoringOrder(d);
    var table := Attach(Rows(d, p), predictions, probabilities);
    RowsAligned(env, load, d, reference, features.value);
    var outages: Option<int> := None;
    if AllScored(predictions) {
      if |predictions| == 0 {
        return None;
      }
      OutageCountReaching(predictions, probabilities);
      outages := Some(OutageCount(predictions));
    }
    r := Some(BatchReport(table, outages));
  }
}

/**
 * process_and_predict on a frame of streamed rows: the sort by the raw
 * timestamp, the parse, the derived hour, the required-column check, the
 * pipeline, per-row scoring and the final sort by ingestion time, newest
 * first. Every failure returns the frame as it stands at that point.
 */
module Live {
  import opened Common
  import opened Values
  import opened Frames
  import opened Sorting
  import opened Rolling
  import opened Features
  import opened Scoring
  import opened Pipeline
  import opened Drivers

  const LiveRequired: seq<string> := [
    "hour_of_day", "is_maintenance_window", "offline_ont_now",
    "temperature_avg_c", "link_loss_count", "bad_rsl_count",
    "high_temp_count", "dying_gasp_count", "offline_ont_ratio",
    "fault_rate", "snr_avg", "rx_power_avg_dbm", "trap_trend_score"]

  const HourCol: string := "hour_of_day"
  const IngestedCol: string := "ingested_time"

  /** `.dt.hour` of one parsed cell: the hour of the day, missing for NaT. */
  function HourCell(v: Value): Value {
    if v.Stamp? then Num(((v.t / 3600) % 24) as real) else NaN
  }

  /**
   * The hour of a timestamp is the hour of the day it falls in: t is that
   * many whole hours, plus less than one hour, after the start of its day.
   */
  lemma HourOfStamp(t: int)
    ensures HourCell(Stamp(t)).Num?
    ensures var h := HourCell(Stamp(t)).x;
      exists k: int :: 0.0 <= h <= 23.0 && h == k as real && 0 <= t - 86400 * (t / 86400) - 3600 * k < 3600
  {
    var q := t / 3600;
    var k := q % 24;
    assert t == 3600 * q + t % 3600;
    assert q == 24 * (q / 24) + k;
    assert t / 86400 == q / 24;
    assert t - 86400 * (t / 86400) - 3600 * k == t % 3600;
  }

  /** `df["hour_of_day"] = df["timestamp_1h"].dt.hour` when the hour is absent and the timestamp present. */
  function WithHour(f: Frame): (r: Frame)
    requires Valid(f)
    ensures Valid(r) && r.height == f.height
    ensures r.data.Keys == f.data.Keys + if TimestampCol in f.data then {HourCol} else {}
  {
    if HourCol !in f.data && TimestampCol in f.data then Assign(f, HourCol, MapCells(f.data[TimestampCol], HourCell))
    else f
  }

  /** The frame after the sort by the raw timestamp, the parse and the derived hour. */
  function LiveInput(env: Env, df: Frame): (d: Frame)
    requires Valid(df)
    ensures Valid(d) && d.height == df.height
    ensures d.data.Keys == df.data.Keys + if TimestampCol in df.data then {HourCol} else {}
  {
    WithHour(ParseTimestamps(env, SortByColumn(df, TimestampCol, true)))
  }

  /**
   * The derived hour: present in the prepared frame whenever either column
   * was, holding the hour of the row's parsed timestamp when it was derived;
   * an hour column already there, and every other column, is the sorted input's.
   */
  lemma LiveInputFacts(env: Env, df: Frame)
    requires Valid(df)
    ensures var d := LiveInput(env, df);
      var s := SortByColumn(df, TimestampCol, true);
      && (HourCol in d.data <==> HourCol in df.data || TimestampCol in df.data)
      && (HourCol !in df.data && TimestampCol in df.data ==>
            forall i :: 0 <= i < df.height ==> d.data[HourCol][i] == HourCell(StampCell(env, s.data[TimestampCol][i])))
      && (forall n :: n in df.data && n != TimestampCol ==> n in d.data && d.data[n] == s.data[n])
      && (TimestampCol in df.data ==> forall i :: 0 <= i < df.height ==>
            d.data[TimestampCol][i] == StampCell(env, s.data[TimestampCol][i]))
      && (forall n :: n in d.data <==> n in df.data || (n == HourCol && TimestampCol in df.data))
  {
  }

  /** `df.sort_values("ingested_time", ascending=False).reset_index(drop=True)` when that column exists. */
  function Display(f: Frame): (r: Frame)
    requires Valid(f)
    ensures Valid(r) && r.height == f.height && r.data.Keys == f.data.Keys
    ensures IngestedCol !in f.data ==> r == f
  {
    SortByColumn(f, IngestedCol, false)
  }

  /** Without an ingestion time the annotated frame is shown in the order it has. */
  lemma DisplayWithoutIngestion(d: Frame, predictions: seq<Option<int>>, probabilities: seq<Option<real>>)
    requires Valid(d) && IngestedCol !in d.data && |predictions| == d.height && |probabilities| == d.height
    ensures Display(Attach(d, predictions, probabilities)) == Attach(d, predictions, probabilities)
  {
    assert |IngestedCol| !in {|LabelCol|, |ProbaCol|};
  }

  /** The display order lists the newest ingestion first, missing times last, each row once. */
  lemma DisplayOrder(f: Frame)
    requires Valid(f) && IngestedCol in f.data
    ensures var p := SortPerm(ColumnKeys(f, IngestedCol, false));
      && IsPermutation(p, f.height)
      && (forall n :: n in f.data ==> Display(f).data[n] == PermuteCells(f.data[n], p))
      && forall i, j :: 0 <= i < j < f.height ==>
           var a, b := Display(f).data[IngestedCol][i], Display(f).data[IngestedCol][j];
           (b.NaN? || !a.NaN?) && (a.NaN? || b.NaN? || ValueLe(b, a))
  {
    var p := SortPerm(ColumnKeys(f, IngestedCol, false));
    var keys := ColumnKeys(f, IngestedCol, false);
    SortByColumnFacts(f, IngestedCol, false);
    forall i, j | 0 <= i < j < f.height
      ensures var a, b := Display(f).data[IngestedCol][i], Display(f).data[IngestedCol][j];
        (b.NaN? || !a.NaN?) && (a.NaN? || b.NaN? || ValueLe(b, a))
    {
      assert KeyLe(keys[p[i]], keys[p[j]]);
      ValueLeTotal(f.data[IngestedCol][p[i]], f.data[IngestedCol][p[i]]);
      var a, b := f.data[IngestedCol][p[i]], f.data[IngestedCol][p[j]];
      assert keys[p[i]] == [Desc(a)] && keys[p[j]] == [Desc(b)];
      if a != b {
        assert PartLe(Desc(a), Desc(b));
      }
    }
  }

  /**
   * process_and_predict with the classifier outcome `load` and the reference
   * list `reference`. An empty frame comes back unchanged; a frame lacking a
   * required column, or whose pipeline raises, comes back prepared but
   * unscored; otherwise every row gets its label and probability by
   * position and the frame is put in display order.
   */
  method ProcessAndPredict(env: Env, load: Loading, df: Frame, reference: Option<seq<string>>) returns (r: Frame)
    requires Valid(df)
    ensures Valid(r)
    ensures Empty(df) ==> r == df
    ensures !Empty(df) && MissingColumns(LiveInput(env, df), LiveRequired) != [] ==> r == LiveInput(env, df)
    ensures !Empty(df) && MissingColumns(LiveInput(env, df), LiveRequired) != [] && LabelCol !in df.data && ProbaCol !in df.data ==>
      LabelCol !in r.data && ProbaCol !in r.data
    ensures !Empty(df) && FeatureTable(env, LiveInput(env, df), reference).Err? ==> r == LiveInput(env, df)
    ensures !Empty(df) && MissingColumns(LiveInput(env, df), LiveRequired) == [] && FeatureTable(env, LiveInput(env, df), reference).Ok? ==>
      var d := LiveInput(env, df);
      var features := FeatureTable(env, d, reference).value;
      r == Display(Attach(d, Labels(env, load, features), Probas(env, load, features)))
  {
    if Empty(df) {
      return df;
    }
    var d := SortByColumn(df, TimestampCol, true);
    d := ParseTimestamps(env, d);
    d := WithHour(d);
    var missing := MissingColumns(d, LiveRequired);
    if missing != [] {
      LiveInputFacts(env, df);
      return d;
    }
    var features := BuildFeatures(env, d, reference);
    if features.Err? {
      // the exception handler returns the frame as it stands
      return d;
    }
    var predictions, probabilities := ScoreRows(env, load, features.value);
    d := Attach(d, predictions, probabilities);
    d := Display(d);
    r := d;
  }

  /**
   * As in the batch driver, the labels are written by position while the
   * table was scored in (timestamp_1h, olt_id) order: with two rows of one
   * timestamp and olt_ids "B" then "A" (and no ingestion time), the first
   * output row carries its own cells and a label computed from the second
   * row's features.
   */
  lemma LiveLabelsMisplaced(env: Env, load: Loading, df: Frame, reference: Option<seq<string>>, c: string, features: Frame)
    requires Valid(df) && TiedPair(LiveInput(env, df)) && IngestedCol !in df.data && c in Passthrough
    requires FeatureTable(env, LiveInput(env, df), reference) == Ok(features) && c in features.data
    ensures var d := LiveInput(env, df);
      var out := Attach(d, Labels(env, load, features), Probas(env, load, features));
      && Display(out) == out
      && c in d.data && out.data[c][0] == d.data[c][0]
      && out.data[LabelCol][0] == LabelCell(LabelOf(RowScore(env, load, features, 0)))
      && features.data[c][0] == CleanValue(env, InfToNaN(d.data[c][1]))
  {
    var d := LiveInput(env, df);
    DisplayWithoutIngestion(d, Labels(env, load, features), Probas(env, load, features));
    PositionalAttachMisplaces(env, load, d, reference, c, features);
  }

  /**
   * process_and_predict with each label written beside the features it was
   * computed from: the prepared rows are put in the pipeline's order before
   * the two columns are written, then in display order.
   */
  method ProcessAndPredictAligned(env: Env, load: Loading, df: Frame, reference: Option<seq<string>>) returns (r: Frame)
    requires Valid(df)
    ensures Valid(r)
    ensures Empty(df) ==> r == df
    ensures !Empty(df) ==>
      var d := LiveInput(env, df);
      var table := FeatureTable(env, d, reference);
      if MissingColumns(d, LiveRequired) != [] || table.Err? then r == d
      else
        var p := ScoringOrder(d);
        var out := Attach(Rows(d, p), Labels(env, load, table.value), Probas(env, load, table.value));
        && r == Display(out)
        && IsPermutation(p, d.height)
        && ScoredBeside(env, load, table.value, out)
  {
    if Empty(df) {
      return df;
    }
    var d := SortByColumn(df, TimestampCol, true);
    d := ParseTimestamps(env, d);
    d := WithHour(d);
    var missing := MissingColumns(d, LiveRequired);
    if missing != [] {
      return d;
    }
    var features := BuildFeatures(env, d, reference);
    if features.Err? {
      return d;
    }
    var predictions, probabilities := ScoreRows(env, load, features.value);
    RowsAligned(env, load, d, reference, features.value);
    var out := Attach(Rows(d, ScoringOrder(d)), predictions, probabilities);
    r := Display(out);
  }
}

/**
 * dt_prep: the single-record form. The entries become one row tagged
 * olt_id "abc" at the current hour; they choose which canned history to
 * load; the row is appended to that history, the frame sorted by
 * timestamp_1h and run through the pipeline, and the last row of the
 * feature table is what the form scores.
 */
module DataPrep {
  import opened Common
  import opened Values
  import opened Frames
  import opened Sorting
  import opened Rolling
  import opened Skew
  import opened TimeFeatures
  import opened Features
  import opened Pipeline
  import opened Drivers

  /** The values the form's widgets hold. */
  datatype Inputs = Inputs(
    hour: int, maintenance: string, offlineNow: int, temperature: real,
    linkLoss: int, badRsl: int, highTemp: int, dyingGasp: int,
    offlineRatio: real, faultRate: real, snr: real, rxPower: real, trapTrend: real)

  /** The id every single-record row carries. */
  const FormId: string := "abc"

  /** The maintenance selection as the 0/1 feature. */
  function MaintenanceFlag(choice: string): (flag: int)
    ensures flag == 1 <==> choice == "Yes"
    ensures flag == 0 <==> choice != "Yes"
  {
    if choice == "Yes" then 1 else 0
  }

  function Abs(x: real): real {
    if x < 0.0 then -x else x
  }

  /** Which canned history the form loads. */
  datatype SampleType = NoOutage | Outage | DefaultSample

  /** The entries of the canned no-outage example. */
  predicate NoOutageProfile(inp: Inputs, flag: int) {
    && inp.hour == 22 && flag == 0 && inp.offlineNow == 0 && Abs(inp.temperature - 38.06) < 0.1
    && inp.linkLoss == 1 && inp.badRsl == 0 && inp.highTemp == 0 && inp.dyingGasp == 0
  }

  /** The entries of the canned outage example. */
  predicate OutageProfile(inp: Inputs, flag: int) {
    && inp.hour == 19 && flag == 0 && inp.offlineNow == 16 && Abs(inp.temperature - 38.63) < 0.1
    && inp.linkLoss == 0 && inp.badRsl == 0 && inp.highTemp == 0 && inp.dyingGasp == 0
  }

  /**
   * The sample-type rule. The two named profiles never overlap (their hours
   * differ), so each type is chosen exactly when its profile matches.
   */
  function SampleTypeOf(inp: Inputs, flag: int): (t: SampleType)
    ensures t == NoOutage <==> NoOutageProfile(inp, flag)
    ensures t == Outage <==> OutageProfile(inp, flag)
    ensures t == DefaultSample <==> !NoOutageProfile(inp, flag) && !OutageProfile(inp, flag)
  {
    if NoOutageProfile(inp, flag) then NoOutage
    else if OutageProfile(inp, flag) then Outage
    else DefaultSample
  }

  /** The values the form opens with select the no-outage history. */
  lemma FormDefaultsPickNoOutage()
    ensures var inp := Inputs(22, "No", 0, 38.06, 1, 0, 0, 0, 0.000371, 0.001311, 25.836, -19.243, 0.007864);
      SampleTypeOf(inp, MaintenanceFlag(inp.maintenance)) == NoOutage
  {
    var inp := Inputs(22, "No", 0, 38.06, 1, 0, 0, 0, 0.000371, 0.001311, 25.836, -19.243, 0.007864);
    assert |inp.maintenance| != |"Yes"|;
  }

  /** `pd.Timestamp.now().floor("h")`, with the clock reading `now` in seconds. */
  function FloorHour(now: int): (t: int)
    ensures t <= now < t + 3600 && t % 3600 == 0
  {
    (now / 3600) * 3600
  }

  /** The columns of the form's row, in the order the frame is built with. */
  const FormColumns: seq<string> := [
    "timestamp_1h", "olt_id", "hour_of_day", "is_maintenance_window",
    "offline_ont_now", "temperature_avg_c", "link_loss_count",
    "bad_rsl_count", "high_temp_count", "dying_gasp_count",
    "offline_ont_ratio", "fault_rate", "snr_avg",
    "rx_power_avg_dbm", "trap_trend_score"]

  /** The fifteen column names are distinct: names of one length differ in their first letter. */
  lemma FormColumnsDistinct()
    ensures Distinct(FormColumns)
  {
    var b := FormColumns;
    assert |b[0]| == 12 && |b[1]| == 6 && |b[2]| == 11 && |b[3]| == 21 && |b[4]| == 15;
    assert |b[5]| == 17 && |b[6]| == 15 && |b[7]| == 13 && |b[8]| == 15 && |b[9]| == 16;
    assert |b[10]| == 17 && |b[11]| == 10 && |b[12]| == 7 && |b[13]| == 16 && |b[14]| == 16;
    assert b[4][0] != b[6][0] && b[4][0] != b[8][0] && b[6][0] != b[8][0];
    assert b[5][0] != b[10][0] && b[9][0] != b[13][0] && b[9][0] != b[14][0] && b[13][0] != b[14][0];
  }

  /** The form's cell for column n. */
  function CurrentCell(inp: Inputs, now: int, n: string): Value {
    if n == "timestamp_1h" then Stamp(FloorHour(now))
    else if n == "olt_id" then Str(FormId)
    else if n == "hour_of_day" then Num(inp.hour as real)
    else if n == "is_maintenance_window" then Num(MaintenanceFlag(inp.maintenance) as real)
    else if n == "offline_ont_now" then Num(inp.offlineNow as real)
    else if n == "temperature_avg_c" then Num(inp.temperature)
    else if n == "link_loss_count" then Num(inp.linkLoss as real)
    else if n == "bad_rsl_count" then Num(inp.badRsl as real)
    else if n == "high_temp_count" then Num(inp.highTemp as real)
    else if n == "dying_gasp_count" then Num(inp.dyingGasp as real)
    else if n == "offline_ont_ratio" then Num(inp.offlineRatio)
    else if n == "fault_rate" then Num(inp.faultRate)
    else if n == "snr_avg" then Num(inp.snr)
    else if n == "rx_power_avg_dbm" then Num(inp.rxPower)
    else if n == "trap_trend_score" then Num(inp.trapTrend)
    else NaN
  }

  /**
   * The single-row frame: the fifteen form columns, in that order, at the
   * current hour and with olt_id "abc"; every other cell is a number.
   */
  function CurrentRow(inp: Inputs, now: int): (f: Frame)
    ensures Valid(f) && f.height == 1 && f.cols == FormColumns
    ensures forall n :: n in f.data ==> f.data[n] == [CurrentCell(inp, now, n)]
    ensures f.data[TimestampCol] == [Stamp(FloorHour(now))] && f.data["olt_id"] == [Str(FormId)]
  {
    var f := Frame(FormColumns, map n | n in FormColumns :: [CurrentCell(inp, now, n)], 1);
    assert Valid(f) by {
      FormColumnsDistinct();
    }
    assert TimestampCol in f.data && "olt_id" in f.data by {
      assert FormColumns[0] == TimestampCol && FormColumns[1] == "olt_id";
    }
    f
  }

  /** Apart from the timestamp and the id, the form's cells are numbers. */
  lemma CurrentCellsNumeric(inp: Inputs, now: int)
    ensures forall n :: n in FormColumns && n != TimestampCol && n != "olt_id" ==> CurrentCell(inp, now, n).Num?
  {
  }

  /** The three canned histories, one per sample type. */
  datatype Histories = Histories(noOutage: Frame, outage: Frame, fallback: Frame)

  ghost predicate ValidHistories(hist: Histories) {
    Valid(hist.noOutage) && Valid(hist.outage) && Valid(hist.fallback)
  }

  /** `historical_data(sample_type)`. */
  function Pick(hist: Histories, t: SampleType): Frame {
    match t
    case NoOutage => hist.noOutage
    case Outage => hist.outage
    case DefaultSample => hist.fallback
  }

  /** The history the form's entries select. */
  function Chosen(inp: Inputs, hist: Histories): Frame {
    Pick(hist, SampleTypeOf(inp, MaintenanceFlag(inp.maintenance)))
  }

  /** The history with the current row appended, or the current row alone after an empty history. */
  function Combined(h: Frame, cur: Frame): (c: Frame)
    requires Valid(h) && Valid(cur)
    ensures Valid(c) && c.height == (if Empty(h) then 0 else h.height) + cur.height
  {
    if !Empty(h) then Concat(h, cur) else cur
  }

  /**
   * The current row is the last row of the combined frame, every column it
   * has included; the rows before it are the history's, missing where the
   * history lacks the column.
   */
  lemma CombinedRows(h: Frame, cur: Frame)
    requires Valid(h) && Valid(cur) && cur.height == 1
    ensures var c := Combined(h, cur);
      && (forall n :: n in cur.data ==> n in c.data && c.data[n][c.height - 1] == cur.data[n][0])
      && (!Empty(h) ==> forall n, j :: n in c.data && 0 <= j < h.height ==>
            c.data[n][j] == if n in h.data then h.data[n][j] else NaN)
      && (Empty(h) ==> c == cur)
  {
  }

  /** The frame the pipeline receives: history and current row, sorted by timestamp_1h. */
  function Arranged(h: Frame, cur: Frame): (d: Frame)
    requires Valid(h) && Valid(cur)
    ensures Valid(d) && d.height == Combined(h, cur).height
  {
    SortByColumn(Combined(h, cur), TimestampCol, true)
  }

  /** The prepared frame of the form. */
  function DtInput(inp: Inputs, now: int, hist: Histories): (d: Frame)
    requires ValidHistories(hist)
    ensures Valid(d) && d.height >= 1
  {
    Arranged(Chosen(inp, hist), CurrentRow(inp, now))
  }

  /**
   * dt_prep up to the row it scores: the one-row frame of the feature
   * table's last row, or the error a pipeline stage raises.
   */
  method DtPrep(env: Env, inp: Inputs, now: int, hist: Histories, reference: Option<seq<string>>) returns (r: Result<Frame>)
    requires ValidHistories(hist)
    ensures r.Err? <==> FeatureTable(env, DtInput(inp, now, hist), reference).Err?
    ensures r.Err? ==> r == FeatureTable(env, DtInput(inp, now, hist), reference)
    ensures r.Ok? ==>
      var f := FeatureTable(env, DtInput(inp, now, hist), reference).value;
      && f.height >= 1 && r.value.height == 1 && r.value.cols == f.cols
      && r.value == Row(f, f.height - 1)
  {
    var flag := MaintenanceFlag(inp.maintenance);
    var current := CurrentRow(inp, now);
    var sample := SampleTypeOf(inp, flag);
    var history := Pick(hist, sample);
    var df: Frame;
    if !Empty(history) {
      df := Concat(history, current);
    } else {
      df := current;
    }
    assert df == Combined(history, current);
    df := SortByColumn(df, TimestampCol, true);
    assert df == DtInput(inp, now, hist);
    var features := BuildFeatures(env, df, reference);
    if features.Err? {
      return Err(features.error);
    }
    r := Ok(Row(features.value, features.value.height - 1));
  }

  /** Every history row has a timestamp strictly before t. */
  ghost predicate Older(h: Frame, t: int) {
    && Valid(h) && TimestampCol in h.data
    && forall j :: 0 <= j < h.height ==> h.data[TimestampCol][j].Stamp? && h.data[TimestampCol][j].t < t
  }

  /** No history row carries the id `id`. */
  predicate OtherIds(h: Frame, id: string) {
    "olt_id" in h.data ==> forall j :: 0 <= j < |h.data["olt_id"]| ==> h.data["olt_id"][j] != Str(id)
  }

  /** A last row with the strictly latest timestamp stays last under the sort by timestamp_1h. */
  lemma SortKeepsLast(c: Frame)
    requires Valid(c) && c.height >= 1 && TimestampCol in c.data
    requires c.data[TimestampCol][c.height - 1].Stamp?
    requires forall j :: 0 <= j < c.height - 1 ==>
      c.data[TimestampCol][j].Stamp? && c.data[TimestampCol][j].t < c.data[TimestampCol][c.height - 1].t
    ensures var p := SortPerm(ColumnKeys(c, TimestampCol, true));
      var k := c.height - 1;
      && p[k] == k && (forall j :: 0 <= j < k ==> p[j] < k)
      && (forall n :: n in c.data ==> SortByColumn(c, TimestampCol, true).data[n] == PermuteCells(c.data[n], p))
  {
    var keys := ColumnKeys(c, TimestampCol, true);
    var k := c.height - 1;
    forall j | 0 <= j < k ensures KeyLe(keys[j], keys[k]) {
      assert keys[j] == [Asc(c.data[TimestampCol][j])] && keys[k] == [Asc(c.data[TimestampCol][k])];
      assert keys[j][1..] == [] && keys[k][1..] == [];
    }
    SortPermKeepsLast(keys);
  }

  /** The sort by timestamp_1h keeps a later current row last. */
  lemma ArrangedKeepsLast(h: Frame, cur: Frame)
    requires Valid(h) && Valid(cur) && cur.height == 1 && TimestampCol in cur.data
    requires cur.data[TimestampCol][0].Stamp? && (Empty(h) || Older(h, cur.data[TimestampCol][0].t))
    ensures var c := Combined(h, cur);
      var p := SortPerm(ColumnKeys(c, TimestampCol, true));
      var d := Arranged(h, cur);
      var k := d.height - 1;
      && p[k] == k && (forall j :: 0 <= j < k ==> p[j] < k)
      && (forall n :: n in c.data ==> n in d.data && d.data[n] == PermuteCells(c.data[n], p))
  {
    var c := Combined(h, cur);
    CombinedLater(h, cur);
    SortKeepsLast(c);
    assert Arranged(h, cur) == SortByColumn(c, TimestampCol, true);
  }

  /** Appended after an older history, the current row is the strictly latest row. */
  lemma CombinedLater(h: Frame, cur: Frame)
    requires Valid(h) && Valid(cur) && cur.height == 1 && TimestampCol in cur.data
    requires cur.data[TimestampCol][0].Stamp? && (Empty(h) || Older(h, cur.data[TimestampCol][0].t))
    ensures var c := Combined(h, cur);
      && c.height >= 1 && TimestampCol in c.data
      && c.data[TimestampCol][c.height - 1] == cur.data[TimestampCol][0]
      && forall j :: 0 <= j < c.height - 1 ==>
           c.data[TimestampCol][j].Stamp? && c.data[TimestampCol][j].t < cur.data[TimestampCol][0].t
  {
    CombinedRows(h, cur);
  }

  /**
   * When the last row of a frame has the latest timestamp, strictly, the
   * pipeline's (timestamp_1h, olt_id) order keeps it last too.
   */
  lemma ScoringKeepsLast(d: Frame)
    requires Valid(d) && d.height >= 1 && TimestampCol in d.data && "olt_id" in d.data
    requires d.data[TimestampCol][d.height - 1].Stamp?
    requires forall j :: 0 <= j < d.height - 1 ==>
      d.data[TimestampCol][j].Stamp? && d.data[TimestampCol][j].t < d.data[TimestampCol][d.height - 1].t
    ensures ScoringOrder(d)[d.height - 1] == d.height - 1
    ensures forall j :: 0 <= j < d.height - 1 ==> ScoringOrder(d)[j] < d.height - 1
  {
    var t := MapFrame(d, InfToNaN);
    var keys := SortKeys(t, GroupKey);
    var k := d.height - 1;
    forall j | 0 <= j < k ensures KeyLe(keys[j], keys[k]) {
      assert keys[j][0] == Asc(d.data[TimestampCol][j]) && keys[k][0] == Asc(d.data[TimestampCol][k]);
    }
    SortPermKeepsLast(keys);
  }

  /** With a history strictly older than the current row, the prepared frame ends with the current row. */
  lemma ArrangedLastRow(h: Frame, cur: Frame)
    requires Valid(h) && Valid(cur) && cur.height == 1 && TimestampCol in cur.data
    requires cur.data[TimestampCol][0].Stamp? && (Empty(h) || Older(h, cur.data[TimestampCol][0].t))
    ensures var d := Arranged(h, cur);
      forall n :: n in cur.data ==> n in d.data && d.data[n][d.height - 1] == cur.data[n][0]
  {
    var c := Combined(h, cur);
    var p := SortPerm(ColumnKeys(c, TimestampCol, true));
    var d := Arranged(h, cur);
    var k := d.height - 1;
    CombinedRows(h, cur);
    ArrangedKeepsLast(h, cur);
    forall n | n in cur.data ensures n in d.data && d.data[n][k] == cur.data[n][0] {
      assert n in c.data && d.data[n] == PermuteCells(c.data[n], p);
      assert d.data[n][k] == c.data[n][k];
    }
  }

  /** The rows before the current one carry strictly earlier timestamps. */
  lemma ArrangedEarlier(h: Frame, cur: Frame)
    requires Valid(h) && Valid(cur) && cur.height == 1 && TimestampCol in cur.data
    requires cur.data[TimestampCol][0].Stamp? && (Empty(h) || Older(h, cur.data[TimestampCol][0].t))
    ensures var d := Arranged(h, cur);
      && TimestampCol in d.data && d.data[TimestampCol][d.height - 1] == cur.data[TimestampCol][0]
      && forall j :: 0 <= j < d.height - 1 ==>
           d.data[TimestampCol][j].Stamp? && d.data[TimestampCol][j].t < cur.data[TimestampCol][0].t
  {
    var c := Combined(h, cur);
    var p := SortPerm(ColumnKeys(c, TimestampCol, true));
    var d := Arranged(h, cur);
    CombinedRows(h, cur);
    ArrangedKeepsLast(h, cur);
    ArrangedLastRow(h, cur);
    forall j | 0 <= j < d.height - 1
      ensures d.data[TimestampCol][j].Stamp? && d.data[TimestampCol][j].t < cur.data[TimestampCol][0].t
    {
      assert d.data[TimestampCol][j] == c.data[TimestampCol][p[j]];
    }
  }

  /** The pipeline's order keeps the current row last. */
  lemma ArrangedOrder(h: Frame, cur: Frame)
    requires Valid(h) && Valid(cur) && cur.height == 1 && TimestampCol in cur.data && "olt_id" in cur.data
    requires cur.data[TimestampCol][0].Stamp? && (Empty(h) || Older(h, cur.data[TimestampCol][0].t))
    ensures var d := Arranged(h, cur);
      ScoringOrder(d)[d.height - 1] == d.height - 1 && forall j :: 0 <= j < d.height - 1 ==> ScoringOrder(d)[j] < d.height - 1
  {
    ArrangedEarlier(h, cur);
    ArrangedLastRow(h, cur);
    ScoringKeepsLast(Arranged(h, cur));
  }

  /** Column by column, the last prepared row is the current one, and it is scored last. */
  lemma ArrangedLast(h: Frame, cur: Frame, c: string)
    requires Valid(h) && Valid(cur) && cur.height == 1 && TimestampCol in cur.data && "olt_id" in cur.data && c in cur.data
    requires cur.data[TimestampCol][0].Stamp? && (Empty(h) || Older(h, cur.data[TimestampCol][0].t))
    ensures var d := Arranged(h, cur);
      c in d.data && d.data[c][d.height - 1] == cur.data[c][0] && ScoringOrder(d)[d.height - 1] == d.height - 1
  {
    ArrangedLastRow(h, cur);
    ArrangedOrder(h, cur);
  }

  /**
   * The last row of d carries `id`, no earlier row does, and the pipeline's
   * order keeps the last row last and the others before it.
   */
  ghost predicate AloneLast(d: Frame, id: string)
    requires Valid(d) && d.height >= 1
  {
    var p, k := ScoringOrder(d), d.height - 1;
    && "olt_id" in d.data && p[k] == k && (forall j :: 0 <= j < k ==> p[j] < k)
    && d.data["olt_id"][k] == Str(id) && (forall j :: 0 <= j < k ==> d.data["olt_id"][j] != Str(id))
  }

  /** A current row whose id no history row shares is alone in its partition and scored last. */
  lemma ArrangedAlone(h: Frame, cur: Frame, id: string)
    requires Valid(h) && Valid(cur) && cur.height == 1 && TimestampCol in cur.data && "olt_id" in cur.data
    requires cur.data[TimestampCol][0].Stamp? && (Empty(h) || Older(h, cur.data[TimestampCol][0].t))
    requires cur.data["olt_id"][0] == Str(id) && OtherIds(h, id)
    ensures AloneLast(Arranged(h, cur), id)
  {
    ArrangedLastRow(h, cur);
    ArrangedOrder(h, cur);
    ArrangedIds(h, cur, id);
  }

  /** Every row before the current one is a history row, so it carries no id the history lacks. */
  lemma ArrangedIds(h: Frame, cur: Frame, id: string)
    requires Valid(h) && Valid(cur) && cur.height == 1 && TimestampCol in cur.data && "olt_id" in cur.data
    requires cur.data[TimestampCol][0].Stamp? && (Empty(h) || Older(h, cur.data[TimestampCol][0].t))
    requires OtherIds(h, id)
    ensures var d := Arranged(h, cur);
      forall j :: 0 <= j < d.height - 1 ==> d.data["olt_id"][j] != Str(id)
  {
    var c := Combined(h, cur);
    var p := SortPerm(ColumnKeys(c, TimestampCol, true));
    var d := Arranged(h, cur);
    CombinedRows(h, cur);
    ArrangedKeepsLast(h, cur);
    forall j | 0 <= j < d.height - 1 ensures d.data["olt_id"][j] != Str(id) {
      assert d.data["olt_id"][j] == c.data["olt_id"][p[j]];
    }
  }

  lemma PassthroughInForm(c: string)
    requires c in Passthrough
    ensures c in FormColumns && c != TimestampCol && c != "olt_id"
  {
  }

  /** The one cell of column c in the one-row frame of row i. */
  lemma RowCell(f: Frame, i: nat, c: string)
    requires Valid(f) && i < f.height && c in f.data
    ensures Row(f, i).data[c] == [f.data[c][i]]
  {
  }

  /** When the pipeline's order keeps the last row last, the last table row carries that row's numeric cells. */
  lemma LastCellPassthrough(env: Env, d: Frame, reference: Option<seq<string>>, c: string, f: Frame)
    requires Valid(d) && d.height >= 1 && c in Passthrough && c in d.data && d.data[c][d.height - 1].Num?
    requires ScoringOrder(d)[d.height - 1] == d.height - 1
    requires FeatureTable(env, d, reference) == Ok(f) && c in f.data
    ensures f.height == d.height && f.data[c][d.height - 1] == d.data[c][d.height - 1]
  {
    TableFollowsOrder(env, d, reference, f);
  }

  /** A last row alone in its olt_id partition, scored last, has every delta 0.0. */
  lemma LastCellDeltaZero(env: Env, d: Frame, reference: Option<seq<string>>, i: nat, id: string, f: Frame)
    requires Valid(d) && d.height >= 1 && i < 5 && RollBases[i] in d.data && "olt_id" in d.data
    requires AloneLast(d, id)
    requires FeatureTable(env, d, reference) == Ok(f) && OpName(RollKeys[i], Delta) in f.data
    ensures f.height == d.height && f.data[OpName(RollKeys[i], Delta)][d.height - 1] == Num(0.0)
  {
    var k := d.height - 1;
    DeltaInTable(env, d, reference, i, k);
    var s := Prepared(env, AddTimeFeats(env, Skewness(env, d).value).value, RollKeys, GroupKey);
    var g := GroupCells(s, GroupKey);
    GroupFollowsOrder(env, d, k);
    forall j | 0 <= j < k ensures g[j] != g[k] {
      GroupFollowsOrder(env, d, j);
    }
    DeltaFirst(s.data[RollKeys[i]], g, k);
  }

  /** With a history older than the current row, the last table row holds the current row's numeric cells. */
  lemma ArrangedRowScored(env: Env, h: Frame, cur: Frame, reference: Option<seq<string>>, c: string, f: Frame)
    requires Valid(h) && Valid(cur) && cur.height == 1 && TimestampCol in cur.data && "olt_id" in cur.data && c in cur.data
    requires cur.data[TimestampCol][0].Stamp? && (Empty(h) || Older(h, cur.data[TimestampCol][0].t))
    requires c in Passthrough && cur.data[c][0].Num?
    requires FeatureTable(env, Arranged(h, cur), reference) == Ok(f) && c in f.data
    ensures f.height >= 1 && Row(f, f.height - 1).data[c] == [cur.data[c][0]]
  {
    var d := Arranged(h, cur);
    var k := d.height - 1;
    ArrangedLast(h, cur, c);
    LastCellPassthrough(env, d, reference, c, f);
    assert f.height - 1 == k && d.data[c][k] == cur.data[c][0];
    RowCell(f, f.height - 1, c);
  }

  /** A current row whose id no history row shares has every delta of the last table row 0.0. */
  lemma ArrangedDeltasZero(env: Env, h: Frame, cur: Frame, reference: Option<seq<string>>, i: nat, id: string, f: Frame)
    requires Valid(h) && Valid(cur) && cur.height == 1 && TimestampCol in cur.data && "olt_id" in cur.data
    requires cur.data[TimestampCol][0].Stamp? && (Empty(h) || Older(h, cur.data[TimestampCol][0].t))
    requires i < 5 && RollBases[i] in cur.data && cur.data["olt_id"][0] == Str(id) && OtherIds(h, id)
    requires FeatureTable(env, Arranged(h, cur), reference) == Ok(f) && OpName(RollKeys[i], Delta) in f.data
    ensures f.height >= 1 && Row(f, f.height - 1).data[OpName(RollKeys[i], Delta)] == [Num(0.0)]
  {
    var d := Arranged(h, cur);
    var k := d.height - 1;
    ArrangedAlone(h, cur, id);
    assert RollBases[i] in d.data by {
      ArrangedLastRow(h, cur);
    }
    LastCellDeltaZero(env, d, reference, i, id, f);
    assert f.height - 1 == k;
    RowCell(f, f.height - 1, OpName(RollKeys[i], Delta));
  }

  /**
   * When every row of the selected history is older than the current hour,
   * the row the form scores holds the user's entries: each base feature of
   * the last table row is the form's own value.
   */
  lemma FormRowScored(env: Env, inp: Inputs, now: int, hist: Histories, reference: Option<seq<string>>, c: string, f: Frame)
    requires ValidHistories(hist)
    requires Empty(Chosen(inp, hist)) || Older(Chosen(inp, hist), FloorHour(now))
    requires FeatureTable(env, DtInput(inp, now, hist), reference) == Ok(f) && c in Passthrough && c in f.data
    ensures f.height >= 1 && Row(f, f.height - 1).data[c] == [CurrentCell(inp, now, c)]
  {
    var h, cur := Chosen(inp, hist), CurrentRow(inp, now);
    assert c in cur.data && cur.data[c][0] == CurrentCell(inp, now, c) && CurrentCell(inp, now, c).Num? by {
      PassthroughInForm(c);
      CurrentCellsNumeric(inp, now);
    }
    ArrangedRowScored(env, h, cur, reference, c, f);
  }

  /**
   * The current row is tagged "abc", so against a history whose ids all
   * differ it is alone in its partition: every delta of the row the form
   * scores is 0.0, whatever the history holds.
   */
  lemma FormDeltasZero(env: Env, inp: Inputs, now: int, hist: Histories, reference: Option<seq<string>>, i: nat, f: Frame)
    requires ValidHistories(hist) && OtherIds(Chosen(inp, hist), FormId)
    requires Empty(Chosen(inp, hist)) || Older(Chosen(inp, hist), FloorHour(now))
    requires FeatureTable(env, DtInput(inp, now, hist), reference) == Ok(f) && i < 5
    requires OpName(RollKeys[i], Delta) in f.data
    ensures f.height >= 1 && Row(f, f.height - 1).data[OpName(RollKeys[i], Delta)] == [Num(0.0)]
  {
    var h, cur := Chosen(inp, hist), CurrentRow(inp, now);
    assert RollBases[i] in cur.data;
    ArrangedDeltasZero(env, h, cur, reference, i, FormId, f);
  }
}

/**
 * The pipeline the three callers share: handling_skewness, add_time_feats,
 * add_roll_delta grouped by `olt_id` over windows 6 and 24, the drop of
 * `temp_anomaly_score`, the feature selection, the cleaning and
 * validate_and_reorder_columns.
 */
module Pipeline {
  import opened Common
  import opened Values
  import opened Frames
  import opened Sorting
  import opened Skew
  import opened TimeFeatures
  import opened Rolling
  import opened Features

  const Windows: seq<nat> := [6, 24]

  const GroupKey: Option<string> := Some("olt_id")

  /** The base features that no stage writes: they reach the table as read. */
  const Passthrough: seq<string> := [
    "offline_ont_ratio", "trap_trend_score", "fault_rate",
    "snr_avg", "rx_power_avg_dbm", "temperature_avg_c", "is_maintenance_window"]

  /** The feature table, or the error the first failing stage raises. */
  function FeatureTable(env: Env, df: Frame, reference: Option<seq<string>>): (r: Result<Frame>)
    requires Valid(df)
    ensures r.Ok? ==> Valid(r.value) && r.value.height == df.height
  {
    match Engineered(env, df)
    case Err(e) => Err(e)
    case Ok(c) =>
      match Clean(env, SelectFeatures(c))
      case Err(e) => Err(e)
      case Ok(d) => Ok(Reorder(d, reference))
  }

  /** The frame the feature selection starts from: the three stages, then the drop. */
  function Engineered(env: Env, df: Frame): (r: Result<Frame>)
    requires Valid(df)
    ensures r.Ok? ==> Valid(r.value) && r.value.height == df.height
  {
    match Skewness(env, df)
    case Err(e) => Err(e)
    case Ok(a) =>
      match AddTimeFeats(env, a)
      case Err(e) => Err(e)
      case Ok(b) => Ok(DropTemp(RollDelta(env, b, RollKeys, GroupKey, Windows)))
  }

  /** `df.drop(columns=['temp_anomaly_score'])` when that column is present. */
  function DropTemp(f: Frame): (r: Frame)
    requires Valid(f)
    ensures Valid(r) && r.height == f.height
    ensures forall n :: n != TempAnomaly ==> (n in r.data <==> n in f.data) && (n in f.data ==> r.data[n] == f.data[n])
    ensures TempAnomaly !in r.data
  {
    if TempAnomaly in f.data then Drop(f, {TempAnomaly}) else f
  }

  /** handling_skewness, add_time_feats and add_roll_delta run one after another, then the drop. */
  method Engineer(env: Env, df: Frame) returns (r: Result<Frame>)
    requires Valid(df)
    ensures r == Engineered(env, df)
  {
    var a := HandlingSkewness(env, df);
    if a.Err? {
      return Err(a.error);
    }
    var b := AddTimeFeats(env, a.value);
    if b.Err? {
      return Err(b.error);
    }
    assert Windows[0] == 6 && Windows[1] == 24 && |Windows| == 2;
    var c := AddRollDelta(env, b.value, GroupKey, Windows);
    r := Ok(DropTemp(c));
  }

  /** The engineered frame, then the selection, the cleaning and the reordering. */
  method BuildFeatures(env: Env, df: Frame, reference: Option<seq<string>>) returns (r: Result<Frame>)
    requires Valid(df)
    ensures r == FeatureTable(env, df, reference)
  {
    var c := Engineer(env, df);
    if c.Err? {
      return Err(c.error);
    }
    var d := Clean(env, SelectFeatures(c.value));
    if d.Err? {
      return Err(d.error);
    }
    r := Ok(Reorder(d.value, reference));
  }

  /**
   * A feature table has one row per input row, every cell a float, and only
   * base or rolling feature columns; with a reference list, only columns the
   * list names. A cell that is not a finite number (NaN or an infinity) is
   * the parse of a text cell of the engineered frame: the cleaning replaces
   * every non-finite number, but not text that reads as one.
   */
  lemma FeatureTableFacts(env: Env, df: Frame, reference: Option<seq<string>>)
    requires Valid(df)
    ensures FeatureTable(env, df, reference).Ok? ==>
      var r := FeatureTable(env, df, reference).value;
      var c := Engineered(env, df).value;
      && r.height == df.height
      && (forall n, i :: n in r.data && 0 <= i < r.height ==> IsNumeric(r.data[n][i]))
      && (forall n, i :: n in r.data && 0 <= i < r.height && !r.data[n][i].Num? ==>
            n in c.data && c.data[n][i].Str? && Some(r.data[n][i]) == env.parseFloat(c.data[n][i].s))
      && (forall n :: n in r.data ==> n in NumBase || IsRollCol(n))
      && (reference.Some? ==> forall n :: n in r.data ==> n in reference.value)
  {
    if FeatureTable(env, df, reference).Ok? {
      var a := Skewness(env, df).value;
      var b := AddTimeFeats(env, a).value;
      var c := DropTemp(RollDelta(env, b, RollKeys, GroupKey, Windows));
      var s := SelectFeatures(c);
      FeatureNamesFacts(c);
      CleanFacts(env, s);
      var e := Clean(env, s).value;
      ReorderFacts(e, reference);
    }
  }

  /** A name that does not end in `_log` is not a `_log` name. */
  lemma NotLogName(df: Frame, n: string)
    requires |n| >= 4 ==> n[|n| - 4..] != "_log"
    ensures n !in LogNames(SkewedFeats, df)
  {
    forall c | c in SkewedFeats ensures n != c + "_log" {
      assert (c + "_log")[|c|..] == "_log";
    }
  }

  /**
   * The table fails exactly when a stage raises: a present count column that
   * is not numeric, a missing or non-numeric `hour_of_day`, or a feature cell
   * astype(float) rejects; a missing `hour_of_day` is reported as such.
   */
  lemma FeatureTableErrors(env: Env, df: Frame, reference: Option<seq<string>>)
    requires Valid(df)
    ensures Skewness(env, df).Err? ==> FeatureTable(env, df, reference) == Err(Skewness(env, df).error)
    ensures Skewness(env, df).Ok? && "hour_of_day" !in df.data ==>
      FeatureTable(env, df, reference) == Err(MissingColumn("hour_of_day"))
    ensures Skewness(env, df).Ok? && AddTimeFeats(env, Skewness(env, df).value).Ok? ==>
      var c := DropTemp(RollDelta(env, AddTimeFeats(env, Skewness(env, df).value).value, RollKeys, GroupKey, Windows));
      (FeatureTable(env, df, reference).Err? <==> exists n :: n in SelectFeatures(c).data && !ColumnCastable(env, SelectFeatures(c).data[n]))
  {
    SkewnessFacts(env, df);
    if Skewness(env, df).Ok? {
      NotLogName(df, "hour_of_day");
      TimeFeatsFacts(env, Skewness(env, df).value);
      if AddTimeFeats(env, Skewness(env, df).value).Ok? {
        var c := DropTemp(RollDelta(env, AddTimeFeats(env, Skewness(env, df).value).value, RollKeys, GroupKey, Windows));
        CleanFacts(env, SelectFeatures(c));
      }
    }
  }

  /** The table is the selection, cleaning and reordering of the engineered frame. */
  lemma TableOfEngineered(env: Env, df: Frame, reference: Option<seq<string>>)
    requires Valid(df) && FeatureTable(env, df, reference).Ok?
    ensures Engineered(env, df).Ok?
    ensures var c := Engineered(env, df).value;
      Clean(env, SelectFeatures(c)).Ok?
      && FeatureTable(env, df, reference).value == Reorder(Clean(env, SelectFeatures(c)).value, reference)
  {
  }

  /** A table cell is the cleaned cell of the engineered frame at the same row. */
  lemma TableCell(env: Env, c: Frame, reference: Option<seq<string>>, n: string, i: nat)
    requires Valid(c) && Clean(env, SelectFeatures(c)).Ok? && i < c.height
    requires n in Reorder(Clean(env, SelectFeatures(c)).value, reference).data
    ensures n in c.data
    ensures Reorder(Clean(env, SelectFeatures(c)).value, reference).data[n][i] == CleanValue(env, c.data[n][i])
  {
    var e := Clean(env, SelectFeatures(c)).value;
    ReorderFacts(e, reference);
  }

  /** A base or rolling column of the engineered frame is in the table unless the reference list omits it. */
  lemma TableHas(env: Env, c: Frame, reference: Option<seq<string>>, n: string)
    requires Valid(c) && Clean(env, SelectFeatures(c)).Ok?
    requires n in c.data && (n in NumBase || IsRollCol(n))
    ensures n in Reorder(Clean(env, SelectFeatures(c)).value, reference).data <==> reference.None? || n in reference.value
  {
    FeatureNamesFacts(c);
    var e := Clean(env, SelectFeatures(c)).value;
    ReorderFacts(e, reference);
  }

  // ---------------------------------------------------------------------
  // The rolling columns reach the table
  // ---------------------------------------------------------------------

  /** The suffix `OpName` appends for the delta and the two windows. */
  function Suffix(op: Op): string
    requires op == Delta || op == Roll(6) || op == Roll(24)
  {
    if op == Delta then "_delta_1h" else if op == Roll(6) then "_roll6h_mean" else "_roll24h_mean"
  }

  lemma OpNameSuffix(k: string, op: Op)
    requires op == Delta || op == Roll(6) || op == Roll(24)
    ensures OpName(k, op) == k + Suffix(op)
  {
    if op == Roll(24) {
      assert NatToString(24) == NatToString(2) + [Digit(4)];
    }
  }

  /** The name test of the feature selection picks every column add_roll_delta writes. */
  lemma RollNameSelected(b: string, op: Op)
    requires b in RollBases && (op == Delta || op == Roll(6) || op == Roll(24))
    ensures IsRollCol(OpName(b + "_log", op))
  {
    var k := b + "_log";
    var n := OpName(k, op);
    OpNameSuffix(k, op);
    assert n == b + ("_log" + Suffix(op));
    assert StartsWith(n, b);
    assert OccursAt(n, Suffix(op), |k|);
    assert Suffix(op) in RollSuffixes;
  }

  lemma RollKeysFromBases(i: nat)
    requires i < 5
    ensures RollKeys[i] == RollBases[i] + "_log" && RollBases[i] == SkewedFeats[[2, 1, 4, 3, 0][i]]
  {
  }

  /**
   * For every count column of the input and every operation (the delta and
   * the two trailing means) the table holds the column add_roll_delta wrote
   * on its log, unless a reference list leaves it out.
   */
  lemma RollColumnsInTable(env: Env, df: Frame, reference: Option<seq<string>>, i: nat, op: Op)
    requires Valid(df) && i < 5 && (op == Delta || op == Roll(6) || op == Roll(24))
    requires FeatureTable(env, df, reference).Ok? && RollBases[i] in df.data
    ensures var n := OpName(RollKeys[i], op);
      n in FeatureTable(env, df, reference).value.data <==> reference.None? || n in reference.value
  {
    var k := RollKeys[i];
    var n := OpName(k, op);
    TableOfEngineered(env, df, reference);
    var c := Engineered(env, df).value;
    RollKeysFromBases(i);
    RollNameSelected(RollBases[i], op);
    LogColumnPresent(env, df, i);
    var b := AddTimeFeats(env, Skewness(env, df).value).value;
    RollKeysShape();
    if op == Delta {
      RollDeltaDelta(env, b, RollKeys, GroupKey, Windows, k);
    } else {
      RollDeltaRoll(env, b, RollKeys, GroupKey, Windows, k, op.w);
    }
    OpNameLast(k, op);
    TableHas(env, c, reference, n);
  }

  /**
   * When the frame has no olt_id column, add_roll_delta groups everything
   * under the temporary `__grp__` column and removes it again before
   * returning.
   */
  lemma GroupTempRemoved(env: Env, f: Frame)
    requires Valid(f) && GroupKey.value !in f.data
    ensures "__grp__" !in RollDelta(env, f, RollKeys, GroupKey, Windows).data
  {
    RollKeysShape();
    RollKeysLong();
    if GroupKey.value in NewNames(RollKeys, Windows) {
      NewNamesLong(RollKeys, Windows, 17, GroupKey.value);
    }
    RollDeltaFacts(env, f, RollKeys, GroupKey, Windows);
  }

  /** The log of a present count column survives the first two stages. */
  lemma LogColumnPresent(env: Env, df: Frame, i: nat)
    requires Valid(df) && i < 5 && RollBases[i] in df.data
    requires Skewness(env, df).Ok? && AddTimeFeats(env, Skewness(env, df).value).Ok?
    ensures RollKeys[i] in AddTimeFeats(env, Skewness(env, df).value).value.data
  {
    RollKeysFromBases(i);
    SkewnessFacts(env, df);
    TimeFeatsFacts(env, Skewness(env, df).value);
  }

  // ---------------------------------------------------------------------
  // Which input row each table row comes from
  // ---------------------------------------------------------------------

  /**
   * The row order of the table: add_roll_delta's sort by (timestamp_1h,
   * olt_id), taken on the input's own cells (infinities read as missing).
   */
  function ScoringOrder(df: Frame): (p: seq<nat>)
    requires Valid(df)
    ensures |p| == df.height && InRange(p, df.height)
  {
    RollOrder(MapFrame(df, InfToNaN), GroupKey)
  }

  /** The columns no stage before the sort writes. */
  predicate Untouched(n: string) {
    n in Passthrough || n == "timestamp_1h" || n == "olt_id"
  }

  lemma UntouchedNames(df: Frame, n: string)
    requires Untouched(n)
    ensures n !in SkewedSet && n !in LogNames(SkewedFeats, df)
    ensures n != "hour_sin" && n != "hour_cos" && n !in RollKeys && n != "__grp__" && n != TempAnomaly
    ensures n !in NewNames(RollKeys, Windows)
  {
    UntouchedShape(n);
    NotSkewed(n);
    NotRollKey(n);
    RollKeysLong();
    if n in NewNames(RollKeys, Windows) {
      NewNamesLong(RollKeys, Windows, 17, n);
    }
    NotLogName(df, n);
  }

  /** Length and last letter of the untouched names. */
  lemma UntouchedShape(n: string)
    requires Untouched(n)
    ensures 4 <= |n| <= 21 && n[|n| - 4..] != "_log"
    ensures n != "hour_sin" && n != "hour_cos" && n != "__grp__" && n != TempAnomaly
  {
  }

  lemma NotSkewed(n: string)
    requires Untouched(n)
    ensures n !in SkewedSet
  {
    assert forall c :: c in SkewedSet <==> c in SkewedFeats;
  }

  lemma NotRollKey(n: string)
    requires Untouched(n)
    ensures n !in RollKeys
  {
  }

  /** The first two stages leave an untouched column as it was. */
  lemma EngineeredKeeps(env: Env, df: Frame, n: string)
    requires Valid(df) && Untouched(n)
    requires Skewness(env, df).Ok? && AddTimeFeats(env, Skewness(env, df).value).Ok?
    ensures var b := AddTimeFeats(env, Skewness(env, df).value).value;
      (n in b.data <==> n in df.data) && (n in df.data ==> b.data[n] == df.data[n])
  {
    UntouchedNames(df, n);
    SkewnessFacts(env, df);
    TimeFeatsFacts(env, Skewness(env, df).value);
  }

  /** The sort inside add_roll_delta orders the rows as ScoringOrder does. */
  lemma OrderAgrees(env: Env, df: Frame)
    requires Valid(df)
    requires Skewness(env, df).Ok? && AddTimeFeats(env, Skewness(env, df).value).Ok?
    ensures var b := AddTimeFeats(env, Skewness(env, df).value).value;
      RollOrder(SafeNumeric(env, b, RollKeys), GroupKey) == ScoringOrder(df)
  {
    var b := AddTimeFeats(env, Skewness(env, df).value).value;
    var s0, t := SafeNumeric(env, b, RollKeys), MapFrame(df, InfToNaN);
    EngineeredKeeps(env, df, "timestamp_1h");
    EngineeredKeeps(env, df, "olt_id");
    UntouchedNames(df, "timestamp_1h");
    UntouchedNames(df, "olt_id");
    SafeNumericFacts(env, b, RollKeys);
    if "timestamp_1h" in df.data {
      assert s0.data["timestamp_1h"] == t.data["timestamp_1h"];
      assert "olt_id" in df.data ==> s0.data["olt_id"] == t.data["olt_id"];
      assert SortKeys(s0, GroupKey) == SortKeys(t, GroupKey);
    }
  }

  /**
   * Row i of the table is built from input row ScoringOrder(df)[i]: each
   * base feature no stage writes holds the cleaned cell of that row.
   */
  lemma FeatureRowsFollowOrder(env: Env, df: Frame, reference: Option<seq<string>>, c: string, i: nat)
    requires Valid(df) && c in Passthrough && FeatureTable(env, df, reference).Ok?
    requires c in FeatureTable(env, df, reference).value.data && i < df.height
    ensures c in df.data
    ensures FeatureTable(env, df, reference).value.data[c][i]
      == CleanValue(env, InfToNaN(df.data[c][ScoringOrder(df)[i]]))
  {
    TableOfEngineered(env, df, reference);
    var e := Engineered(env, df).value;
    TableCell(env, e, reference, c, i);
    EngineeredRow(env, df, c, i);
  }

  /** An untouched column of the engineered frame holds, at row i, the input's cell at ScoringOrder(df)[i]. */
  lemma EngineeredRow(env: Env, df: Frame, c: string, i: nat)
    requires Valid(df) && Untouched(c) && Engineered(env, df).Ok? && i < df.height
    requires c in Engineered(env, df).value.data
    ensures c in df.data
    ensures Engineered(env, df).value.data[c][i] == InfToNaN(df.data[c][ScoringOrder(df)[i]])
  {
    var b := AddTimeFeats(env, Skewness(env, df).value).value;
    var p := ScoringOrder(df);
    UntouchedNames(df, c);
    EngineeredKeeps(env, df, c);
    OrderAgrees(env, df);
    RollDeltaOther(env, b, RollKeys, GroupKey, Windows, c);
    PreparedRows(env, b, RollKeys, GroupKey);
    SafeNumericFacts(env, b, RollKeys);
    var s0 := SafeNumeric(env, b, RollKeys);
    assert Prepared(env, b, RollKeys, GroupKey).data[c][i] == s0.data[c][p[i]];
  }

  /** A base feature no stage writes reaches the table only from a column of the input. */
  lemma TableColumnFromInput(env: Env, df: Frame, reference: Option<seq<string>>, c: string)
    requires Valid(df) && Untouched(c) && FeatureTable(env, df, reference).Ok?
    requires c in FeatureTable(env, df, reference).value.data
    ensures c in df.data
  {
    TableOfEngineered(env, df, reference);
    var e := Engineered(env, df).value;
    ReorderFacts(Clean(env, SelectFeatures(e)).value, reference);
    assert c in e.data;
    var b := AddTimeFeats(env, Skewness(env, df).value).value;
    UntouchedNames(df, c);
    EngineeredKeeps(env, df, c);
    RollDeltaOther(env, b, RollKeys, GroupKey, Windows, c);
  }

  /**
   * The delta column of a count reaches the table row by row: at row r it
   * holds the cleaned first difference add_roll_delta computed at row r of
   * its sorted frame, within the partition of that row's group cells.
   */
  lemma DeltaInTable(env: Env, df: Frame, reference: Option<seq<string>>, i: nat, r: nat)
    requires Valid(df) && i < 5 && RollBases[i] in df.data && r < df.height
    requires FeatureTable(env, df, reference).Ok?
    requires OpName(RollKeys[i], Delta) in FeatureTable(env, df, reference).value.data
    ensures Skewness(env, df).Ok? && AddTimeFeats(env, Skewness(env, df).value).Ok?
    ensures var s := Prepared(env, AddTimeFeats(env, Skewness(env, df).value).value, RollKeys, GroupKey);
      && RollKeys[i] in s.data
      && FeatureTable(env, df, reference).value.data[OpName(RollKeys[i], Delta)][r]
         == CleanValue(env, DeltaAt(s.data[RollKeys[i]], GroupCells(s, GroupKey), r))
  {
    TableOfEngineered(env, df, reference);
    var c := Engineered(env, df).value;
    var k := RollKeys[i];
    LogColumnPresent(env, df, i);
    var b := AddTimeFeats(env, Skewness(env, df).value).value;
    RollKeysShape();
    assert k in RollKeys;
    var sp := Prepared(env, b, RollKeys, GroupKey);
    var n := OpName(k, Delta);
    assert n in c.data && c.data[n] == DeltaCells(sp.data[k], GroupCells(sp, GroupKey)) by {
      RollDeltaDelta(env, b, RollKeys, GroupKey, Windows, k);
      OpNameLast(k, Delta);
      assert n != TempAnomaly;
    }
    TableCell(env, c, reference, n, r);
  }

  /** The partition cells of add_roll_delta are the input's olt_id cells, in the table's row order. */
  lemma GroupFollowsOrder(env: Env, df: Frame, j: nat)
    requires Valid(df) && "olt_id" in df.data && j < df.height
    requires Skewness(env, df).Ok? && AddTimeFeats(env, Skewness(env, df).value).Ok?
    ensures var s := Prepared(env, AddTimeFeats(env, Skewness(env, df).value).value, RollKeys, GroupKey);
      GroupCells(s, GroupKey)[j] == InfToNaN(df.data["olt_id"][ScoringOrder(df)[j]])
  {
    var b := AddTimeFeats(env, Skewness(env, df).value).value;
    UntouchedNames(df, "olt_id");
    EngineeredKeeps(env, df, "olt_id");
    OrderAgrees(env, df);
    PreparedRows(env, b, RollKeys, GroupKey);
    SafeNumericFacts(env, b, RollKeys);
  }
}

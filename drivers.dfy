/**
 * Steps the three callers share around the pipeline: parsing timestamp_1h,
 * a sort by one column, the required-column check and writing the
 * `label_outage_1h` and `outage_probability` columns.
 */
module Drivers {
  import opened Common
  import opened Values
  import opened Frames
  import opened Sorting
  import opened Rolling
  import opened Scoring
  import opened Features
  import opened Pipeline

  const TimestampCol: string := "timestamp_1h"
  const LabelCol: string := "label_outage_1h"
  const ProbaCol: string := "outage_probability"

  /** `pd.to_datetime(v, errors="coerce")`: a timestamp, or NaT when the cell does not parse. */
  function StampCell(env: Env, v: Value): (r: Value)
    ensures r.Stamp? || r.NaN?
    ensures r.Stamp? <==> env.parseStamp(v).Some?
  {
    match env.parseStamp(v)
    case Some(t) => Stamp(t)
    case None => NaN
  }

  /** `df["timestamp_1h"] = pd.to_datetime(df["timestamp_1h"], errors="coerce")` when the column exists. */
  function ParseTimestamps(env: Env, f: Frame): (r: Frame)
    requires Valid(f)
    ensures Valid(r) && r.height == f.height && r.cols == f.cols && r.data.Keys == f.data.Keys
    ensures forall n :: n in f.data && n != TimestampCol ==> r.data[n] == f.data[n]
    ensures TimestampCol in f.data ==>
      forall i :: 0 <= i < f.height ==> r.data[TimestampCol][i] == StampCell(env, f.data[TimestampCol][i])
  {
    if TimestampCol in f.data then Assign(f, TimestampCol, MapCells(f.data[TimestampCol], v => StampCell(env, v)))
    else f
  }

  /** The sort key of every row for a sort on one column. */
  function ColumnKeys(f: Frame, col: string, ascending: bool): (keys: seq<Key>)
    requires Valid(f) && col in f.data
    ensures |keys| == f.height
  {
    seq(f.height, i requires 0 <= i < f.height => if ascending then [Asc(f.data[col][i])] else [Desc(f.data[col][i])])
  }

  /** `df.sort_values(col, ascending=...).reset_index(drop=True)`, a no-op when col is absent. */
  function SortByColumn(f: Frame, col: string, ascending: bool): (r: Frame)
    requires Valid(f)
    ensures Valid(r) && r.height == f.height && r.cols == f.cols && r.data.Keys == f.data.Keys
  {
    if col in f.data then Rows(f, SortPerm(ColumnKeys(f, col, ascending))) else f
  }

  /**
   * The sort reorders rows and changes none: row k is row p[k] of the input
   * for a permutation p, and the column's keys are non-decreasing along p.
   */
  lemma SortByColumnFacts(f: Frame, col: string, ascending: bool)
    requires Valid(f) && col in f.data
    ensures var p := SortPerm(ColumnKeys(f, col, ascending));
      && IsPermutation(p, f.height)
      && SortedBy(ColumnKeys(f, col, ascending), p)
      && forall n :: n in f.data ==> SortByColumn(f, col, ascending).data[n] == PermuteCells(f.data[n], p)
  {
    SortPermSorted(ColumnKeys(f, col, ascending));
  }

  /** The required columns the frame lacks, in the order they are listed. */
  function MissingColumns(f: Frame, required: seq<string>): (r: seq<string>)
    ensures forall n :: n in r <==> n in required && n !in f.data
  {
    if required == [] then []
    else
      assert forall n :: n in required <==> n == required[0] || n in required[1..];
      (if required[0] in f.data then [] else [required[0]]) + MissingColumns(f, required[1..])
  }

  /** A label cell: the integer, or a missing value for a row whose scoring raised. */
  function LabelCell(o: Option<int>): Value {
    if o.Some? then Num(o.value as real) else NaN
  }

  function ProbaCell(o: Option<real>): Value {
    if o.Some? then Num(o.value) else NaN
  }

  /** `df["label_outage_1h"] = predictions; df["outage_probability"] = probabilities`, by position. */
  function Attach(f: Frame, predictions: seq<Option<int>>, probabilities: seq<Option<real>>): (r: Frame)
    requires Valid(f) && |predictions| == f.height && |probabilities| == f.height
    ensures Valid(r) && r.height == f.height && r.data.Keys == f.data.Keys + {LabelCol, ProbaCol}
  {
    var withLabels := Assign(f, LabelCol, seq(f.height, i requires 0 <= i < f.height => LabelCell(predictions[i])));
    Assign(withLabels, ProbaCol, seq(f.height, i requires 0 <= i < f.height => ProbaCell(probabilities[i])))
  }

  /**
   * Row i of the result carries prediction i and probability i; every other
   * column is as it was; the two columns are appended at the end unless they
   * already existed.
   */
  lemma AttachFacts(f: Frame, predictions: seq<Option<int>>, probabilities: seq<Option<real>>)
    requires Valid(f) && |predictions| == f.height && |probabilities| == f.height
    ensures var r := Attach(f, predictions, probabilities);
      && LabelCol in r.data && ProbaCol in r.data
      && (forall i :: 0 <= i < f.height ==>
            r.data[LabelCol][i] == LabelCell(predictions[i]) && r.data[ProbaCol][i] == ProbaCell(probabilities[i]))
      && (forall n :: n != LabelCol && n != ProbaCol ==>
            (n in r.data <==> n in f.data) && (n in f.data ==> r.data[n] == f.data[n]))
      && (LabelCol !in f.data && ProbaCol !in f.data ==> r.cols == f.cols + [LabelCol, ProbaCol])
  {
  }

  /** The table's row order, read as a permutation: every input row is scored exactly once. */
  lemma ScoringOrderPermutation(df: Frame)
    requires Valid(df)
    ensures IsPermutation(ScoringOrder(df), df.height)
  {
    var t := MapFrame(df, InfToNaN);
    if TimestampCol in t.data {
      SortPermSorted(SortKeys(t, GroupKey));
    }
  }

  /** The result columns are not base features: their lengths differ from every base feature's. */
  lemma PassthroughNotResult(c: string)
    requires c in Passthrough
    ensures c != LabelCol && c != ProbaCol
  {
    assert |c| in {7, 10, 16, 17, 21};
  }

  /** Row i of the reordered, annotated frame holds the cells of input row p[i]. */
  lemma AttachRows(d: Frame, p: seq<nat>, predictions: seq<Option<int>>, probabilities: seq<Option<real>>, c: string)
    requires Valid(d) && InRange(p, d.height) && |predictions| == |p| && |probabilities| == |p|
    requires c in d.data && c != LabelCol && c != ProbaCol
    ensures var out := Attach(Rows(d, p), predictions, probabilities);
      c in out.data && forall i :: 0 <= i < |p| ==> out.data[c][i] == d.data[c][p[i]]
  {
    AttachFacts(Rows(d, p), predictions, probabilities);
  }

  /** Every row of the table holds the cleaned base features of input row ScoringOrder(d)[i]. */
  lemma TableFollowsOrder(env: Env, d: Frame, reference: Option<seq<string>>, features: Frame)
    requires Valid(d) && FeatureTable(env, d, reference) == Ok(features)
    ensures forall c :: c in Passthrough && c in features.data ==> c in d.data
    ensures forall c, i :: c in Passthrough && c in features.data && 0 <= i < d.height ==>
      features.data[c][i] == CleanValue(env, InfToNaN(d.data[c][ScoringOrder(d)[i]]))
  {
    forall c | c in Passthrough && c in features.data ensures c in d.data {
      TableColumnFromInput(env, d, reference, c);
    }
    forall c, i | c in Passthrough && c in features.data && 0 <= i < d.height
      ensures features.data[c][i] == CleanValue(env, InfToNaN(d.data[c][ScoringOrder(d)[i]]))
    {
      FeatureRowsFollowOrder(env, d, reference, c, i);
    }
  }

  /**
   * Reading the annotated frame in the order p: when feature row i was built
   * from input row p[i], row i of the result holds both.
   */
  lemma AlignedCell(env: Env, d: Frame, features: Frame, p: seq<nat>, predictions: seq<Option<int>>,
                    probabilities: seq<Option<real>>, c: string, i: nat)
    requires Valid(d) && InRange(p, d.height) && |predictions| == |p| && |probabilities| == |p|
    requires c in Passthrough && c in d.data && i < |p| && c in features.data && i < |features.data[c]|
    requires features.data[c][i] == CleanValue(env, InfToNaN(d.data[c][p[i]]))
    ensures c in Attach(Rows(d, p), predictions, probabilities).data
    ensures features.data[c][i] == CleanValue(env, InfToNaN(Attach(Rows(d, p), predictions, probabilities).data[c][i]))
  {
    PassthroughNotResult(c);
    AttachRows(d, p, predictions, probabilities, c);
  }

  /**
   * Row i of `out` carries the cleaned base features of feature row i and
   * the label and probability scored from that row.
   */
  ghost predicate ScoredBeside(env: Env, load: Loading, features: Frame, out: Frame) {
    && Valid(features) && Valid(out) && out.height == features.height
    && LabelCol in out.data && ProbaCol in out.data
    && (forall c, i :: c in Passthrough && c in features.data && 0 <= i < features.height ==>
          c in out.data && features.data[c][i] == CleanValue(env, InfToNaN(out.data[c][i])))
    && (forall i :: 0 <= i < features.height ==>
          && out.data[LabelCol][i] == LabelCell(LabelOf(RowScore(env, load, features, i)))
          && out.data[ProbaCol][i] == ProbaCell(ProbaOf(RowScore(env, load, features, i))))
  }

  /** Writing the scores into the rows in the pipeline's order puts each label beside its own features. */
  lemma RowsAligned(env: Env, load: Loading, d: Frame, reference: Option<seq<string>>, features: Frame)
    requires Valid(d) && FeatureTable(env, d, reference) == Ok(features)
    ensures IsPermutation(ScoringOrder(d), d.height)
    ensures ScoredBeside(env, load, features,
      Attach(Rows(d, ScoringOrder(d)), Labels(env, load, features), Probas(env, load, features)))
  {
    var p := ScoringOrder(d);
    var predictions, probabilities := Labels(env, load, features), Probas(env, load, features);
    ScoringOrderPermutation(d);
    TableFollowsOrder(env, d, reference, features);
    AttachFacts(Rows(d, p), predictions, probabilities);
    forall c, i | c in Passthrough && c in features.data && 0 <= i < d.height
      ensures c in Attach(Rows(d, p), predictions, probabilities).data
      ensures features.data[c][i] == CleanValue(env, InfToNaN(Attach(Rows(d, p), predictions, probabilities).data[c][i]))
    {
      AlignedCell(env, d, features, p, predictions, probabilities, c, i);
    }
  }

  /** Two rows with the same timestamp whose olt_id cells are out of order. */
  predicate TiedPair(d: Frame)
  {
    && d.height == 2 && TimestampCol in d.data && "olt_id" in d.data
    && |d.data[TimestampCol]| == 2 && |d.data["olt_id"]| == 2
    && d.data[TimestampCol][0].Stamp? && d.data[TimestampCol][0] == d.data[TimestampCol][1]
    && d.data["olt_id"][0] == Str("B") && d.data["olt_id"][1] == Str("A")
  }

  /**
   * The frame sorted by timestamp_1h alone keeps such a pair as it is (the
   * sort is stable), while the pipeline's order swaps it.
   */
  lemma TiedPairOrders(d: Frame)
    requires Valid(d) && TiedPair(d)
    ensures SortPerm(ColumnKeys(d, TimestampCol, true)) == [0, 1]
    ensures ScoringOrder(d) == [1, 0]
  {
    var ts := d.data[TimestampCol];
    var keys := ColumnKeys(d, TimestampCol, true);
    assert keys == [[Asc(ts[0])], [Asc(ts[0])]];
    assert KeyLe(keys[0], keys[1]);
    assert SortPrefix(keys, 1) == [0];
    assert SortPerm(keys) == Insert(keys, [0], 1);
    var t := MapFrame(d, InfToNaN);
    var sk := SortKeys(t, GroupKey);
    assert sk == [[Asc(ts[0]), Asc(Str("B"))], [Asc(ts[0]), Asc(Str("A"))]];
    assert !StrLe("B", "A");
    assert !KeyLe(sk[0], sk[1]) by {
      assert sk[0][1..] == [Asc(Str("B"))] && sk[1][1..] == [Asc(Str("A"))];
    }
    assert SortPrefix(sk, 1) == [0];
    assert SortPerm(sk) == Insert(sk, [0], 1);
    assert Insert(sk, [0], 1) == Insert(sk, [], 1) + [0];
  }

  /**
   * Scores written by position into a frame in timestamp order misplace a
   * tied pair: output row 0 keeps input row 0's cells, while feature row 0,
   * whose label it receives, was built from input row 1.
   */
  lemma PositionalAttachMisplaces(env: Env, load: Loading, d: Frame, reference: Option<seq<string>>, c: string, features: Frame)
    requires Valid(d) && TiedPair(d) && c in Passthrough
    requires FeatureTable(env, d, reference) == Ok(features) && c in features.data
    ensures var out := Attach(d, Labels(env, load, features), Probas(env, load, features));
      && c in d.data && out.data[c][0] == d.data[c][0]
      && out.data[LabelCol][0] == LabelCell(LabelOf(RowScore(env, load, features, 0)))
      && features.data[c][0] == CleanValue(env, InfToNaN(d.data[c][1]))
  {
    TiedPairOrders(d);
    PassthroughNotResult(c);
    FeatureRowsFollowOrder(env, d, reference, c, 0);
    AttachFacts(d, Labels(env, load, features), Probas(env, load, features));
  }
}

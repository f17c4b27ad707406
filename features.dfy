/**
 * The feature table the three callers build after the engineering stages:
 * the whitelisted base columns, then the delta and rolling columns picked by
 * name; infinities and missing values become 0.0 and every cell is cast to
 * float; finally validate_and_reorder_columns lays the columns out in the
 * order of a reference name list.
 */
module Features {
  import opened Common
  import opened Values
  import opened Frames

  const NumBase: seq<string> := [
    "offline_ont_ratio", "trap_trend_score", "fault_rate",
    "snr_avg", "rx_power_avg_dbm", "temperature_avg_c",
    "hour_sin", "hour_cos", "is_maintenance_window"]

  const RollSuffixes: seq<string> := ["_delta_1h", "_roll6h_mean", "_roll24h_mean"]

  /** The roll keys with `_log` removed, in the same order. */
  const RollBases: seq<string> := [
    "link_loss_count", "bad_rsl_count", "high_temp_count",
    "dying_gasp_count", "offline_ont_now"]

  /** The column dropped for multicollinearity. */
  const TempAnomaly: string := "temp_anomaly_score"

  // ---------------------------------------------------------------------
  // Names in the order of a list
  // ---------------------------------------------------------------------

  /** `[c for c in names if c in keys]`, keeping only the first occurrence of a name. */
  function Present(names: seq<string>, keys: set<string>): (r: seq<string>)
    ensures Distinct(r)
    ensures forall n :: n in r <==> n in names && n in keys
    decreases |names|
  {
    if names == [] then []
    else if names[0] in keys then [names[0]] + Present(names[1..], keys - {names[0]})
    else Present(names[1..], keys)
  }

  /** The position of the first occurrence of n in names. */
  function IndexOf(names: seq<string>, n: string): (i: nat)
    requires n in names
    ensures i < |names| && names[i] == n && forall j :: 0 <= j < i ==> names[j] != n
  {
    if names[0] == n then 0 else 1 + IndexOf(names[1..], n)
  }

  /** Every name of r occurs in names, and earlier in r means earlier first occurrence in names. */
  predicate OrderedIn(r: seq<string>, names: seq<string>) {
    && (forall n :: n in r ==> n in names)
    && (forall i, j :: 0 <= i < j < |r| ==> IndexOf(names, r[i]) < IndexOf(names, r[j]))
  }

  /** The kept names come in the order of their first occurrence in the list. */
  lemma {:induction false} PresentOrdered(names: seq<string>, keys: set<string>)
    ensures OrderedIn(Present(names, keys), names)
    decreases |names|
  {
    if names != [] {
      var r := Present(names, keys);
      var tail := names[1..];
      if names[0] in keys {
        var rest := Present(tail, keys - {names[0]});
        PresentOrdered(tail, keys - {names[0]});
        assert r == [names[0]] + rest;
        forall i, j | 0 <= i < j < |r| ensures IndexOf(names, r[i]) < IndexOf(names, r[j]) {
          assert r[j] == rest[j - 1] && r[j] != names[0];
          assert IndexOf(names, r[j]) == 1 + IndexOf(tail, r[j]);
          if i > 0 {
            assert r[i] == rest[i - 1] && r[i] != names[0];
            assert IndexOf(names, r[i]) == 1 + IndexOf(tail, r[i]);
            assert IndexOf(tail, rest[i - 1]) < IndexOf(tail, rest[j - 1]);
          } else {
            assert IndexOf(names, r[i]) == 0;
          }
        }
      } else {
        PresentOrdered(tail, keys);
        assert r == Present(tail, keys);
        forall i, j | 0 <= i < j < |r| ensures IndexOf(names, r[i]) < IndexOf(names, r[j]) {
          assert r[i] != names[0] && r[j] != names[0];
          assert IndexOf(names, r[i]) == 1 + IndexOf(tail, r[i]);
          assert IndexOf(names, r[j]) == 1 + IndexOf(tail, r[j]);
        }
      }
    }
  }

  /** A list of distinct names that are all present is kept as it is. */
  lemma {:induction false} PresentAll(names: seq<string>, keys: set<string>)
    requires Distinct(names) && forall n :: n in names ==> n in keys
    ensures Present(names, keys) == names
    decreases |names|
  {
    if names != [] {
      assert forall n :: n in names[1..] ==> n in keys - {names[0]} by {
        forall n | n in names[1..] ensures n != names[0] {
          var k :| 0 <= k < |names[1..]| && names[1..][k] == n;
          assert names[k + 1] == n;
        }
      }
      PresentAll(names[1..], keys - {names[0]});
    }
  }

  // ---------------------------------------------------------------------
  // Feature selection
  // ---------------------------------------------------------------------

  /** A delta or rolling column: it contains one of the suffixes and starts with a roll base. */
  predicate IsRollCol(c: string) {
    && (exists s :: s in RollSuffixes && Contains(c, s))
    && (exists b :: b in RollBases && StartsWith(c, b))
  }

  /** `[c for c in cols if IsRollCol(c)]`. */
  function RollCols(cols: seq<string>): (r: seq<string>)
    ensures forall n :: n in r <==> n in cols && IsRollCol(n)
    ensures Distinct(cols) ==> Distinct(r)
  {
    if cols == [] then []
    else
      assert forall n :: n in cols <==> n == cols[0] || n in cols[1..];
      (if IsRollCol(cols[0]) then [cols[0]] else []) + RollCols(cols[1..])
  }

  /** `[c for c in num_base if c in df.columns] + roll_cols`. */
  function FeatureNames(f: Frame): seq<string> {
    Present(NumBase, f.data.Keys) + RollCols(f.cols)
  }

  lemma NotPrefix(c: string, b: string, k: nat)
    requires k < |b|
    ensures StartsWith(c, b) ==> k < |c| && c[k] == b[k]
  {
    if StartsWith(c, b) {
      assert c[..|b|][k] == b[k];
    }
  }

  /** No base column starts with a roll base, so none is picked as a rolling column. */
  lemma NumBaseNotRoll(c: string)
    requires c in NumBase
    ensures !IsRollCol(c)
  {
    forall b | b in RollBases ensures !StartsWith(c, b) {
      if c == "offline_ont_ratio" && b == "offline_ont_now" {
        NotPrefix(c, b, 12);
      } else if c == "hour_sin" || c == "hour_cos" {
        if b == "high_temp_count" { NotPrefix(c, b, 1); } else { NotPrefix(c, b, 0); }
      } else {
        NotPrefix(c, b, 0);
      }
    }
  }

  /**
   * The feature list names every present base column and every present
   * rolling column, each once, base columns first and in the base order.
   */
  lemma FeatureNamesFacts(f: Frame)
    requires Valid(f)
    ensures Distinct(FeatureNames(f))
    ensures forall n :: n in FeatureNames(f) <==> n in f.data && (n in NumBase || IsRollCol(n))
    ensures var p := Present(NumBase, f.data.Keys);
      FeatureNames(f)[..|p|] == p && OrderedIn(p, NumBase)
  {
    var p, q := Present(NumBase, f.data.Keys), RollCols(f.cols);
    var r := p + q;
    forall i, j | 0 <= i < j < |r| ensures r[i] != r[j] {
      if i < |p| && j >= |p| {
        assert r[i] in p && r[j] in q;
        NumBaseNotRoll(r[i]);
      }
    }
    PresentOrdered(NumBase, f.data.Keys);
    assert r[..|p|] == p;
  }

  /** `df[feature_cols_all]`. */
  function SelectFeatures(f: Frame): (r: Frame)
    requires Valid(f)
    ensures Valid(r) && r.height == f.height && r.cols == FeatureNames(f)
    ensures forall n :: n in r.data ==> n in f.data && r.data[n] == f.data[n]
  {
    FeatureNamesFacts(f);
    Select(f, FeatureNames(f))
  }

  // ---------------------------------------------------------------------
  // Cleaning: replace(+-inf, NaN), fillna(0.0), astype(float)
  // ---------------------------------------------------------------------

  /** Whether astype(float) accepts the cell once infinities and NaN became 0.0. */
  predicate Castable(env: Env, v: Value) {
    match v
    case Str(s) => env.parseFloat(s).Some?
    case Stamp(_) => false
    case _ => true
  }

  /**
   * The float the cleaning gives a castable cell. Text is untouched by the
   * infinity replacement and by fillna, so astype(float) turns text such as
   * "inf" or "nan" into a non-finite float.
   */
  function CleanValue(env: Env, v: Value): Value {
    match v
    case Num(_) => v
    case Str(s) => (match env.parseFloat(s) case Some(x) => x case None => Num(0.0))
    case _ => Num(0.0)
  }

  predicate ColumnCastable(env: Env, s: seq<Value>) {
    forall i :: 0 <= i < |s| ==> Castable(env, s[i])
  }

  /** The first of cols whose column holds a cell astype(float) rejects. */
  function FirstUncastable(env: Env, f: Frame, cols: seq<string>): (c: Option<string>)
    requires forall n :: n in cols ==> n in f.data
    ensures c.Some? ==> c.value in cols && !ColumnCastable(env, f.data[c.value])
    ensures c.None? <==> forall n :: n in cols ==> ColumnCastable(env, f.data[n])
  {
    if cols == [] then None
    else if !ColumnCastable(env, f.data[cols[0]]) then Some(cols[0])
    else
      assert forall n :: n in cols <==> n == cols[0] || n in cols[1..];
      FirstUncastable(env, f, cols[1..])
  }

  function Clean(env: Env, f: Frame): (r: Result<Frame>)
    requires Valid(f)
    ensures r.Ok? ==> Valid(r.value) && r.value.height == f.height && r.value.cols == f.cols
  {
    match FirstUncastable(env, f, f.cols)
    case Some(c) => Err(CastError(c))
    case None => Ok(MapFrame(f, v => CleanValue(env, v)))
  }

  /**
   * The cleaning fails exactly when some cell is text float() rejects or a
   * timestamp, naming such a column; otherwise every cell is a float: numbers
   * are kept, infinities and missing values become 0.0 and text becomes the
   * float it reads as, so a cell that is not a finite number came from text.
   */
  lemma CleanFacts(env: Env, f: Frame)
    requires Valid(f)
    ensures Clean(env, f).Ok? <==> forall n :: n in f.data ==> ColumnCastable(env, f.data[n])
    ensures Clean(env, f).Err? ==>
      Clean(env, f).error.CastError? && Clean(env, f).error.column in f.data
      && !ColumnCastable(env, f.data[Clean(env, f).error.column])
    ensures Clean(env, f).Ok? ==>
      var r := Clean(env, f).value;
      forall n, i :: n in f.data && 0 <= i < f.height ==>
        && n in r.data && IsNumeric(r.data[n][i])
        && (f.data[n][i].Num? ==> r.data[n][i] == f.data[n][i])
        && (f.data[n][i].NaN? || f.data[n][i].Inf? ==> r.data[n][i] == Num(0.0))
        && (f.data[n][i].Str? ==> Some(r.data[n][i]) == env.parseFloat(f.data[n][i].s))
        && (!r.data[n][i].Num? ==> f.data[n][i].Str?)
  {
  }

  // ---------------------------------------------------------------------
  // validate_and_reorder_columns
  // ---------------------------------------------------------------------

  /**
   * `df[[c for c in reference if c in df.columns]]`; `None` stands for a
   * reference list that could not be loaded, in which case the frame is
   * returned as it is.
   */
  function Reorder(f: Frame, reference: Option<seq<string>>): (r: Frame)
    requires Valid(f)
    ensures Valid(r) && r.height == f.height
  {
    match reference
    case None => f
    case Some(names) => Select(f, Present(names, f.data.Keys))
  }

  /**
   * With a reference list the result holds exactly the reference names that
   * are columns, in reference order, with their cells unchanged; without one
   * it is the input frame.
   */
  lemma ReorderFacts(f: Frame, reference: Option<seq<string>>)
    requires Valid(f)
    ensures reference.None? ==> Reorder(f, reference) == f
    ensures reference.Some? ==>
      var names := reference.value;
      var r := Reorder(f, reference);
      && r.height == f.height
      && (forall n :: n in r.data <==> n in names && n in f.data)
      && (forall n :: n in r.data ==> r.data[n] == f.data[n])
      && OrderedIn(r.cols, names)
  {
    if reference.Some? {
      PresentOrdered(reference.value, f.data.Keys);
      assert Reorder(f, reference).cols == Present(reference.value, f.data.Keys);
    }
  }

  /** A reference list equal to the frame's own distinct columns leaves it unchanged. */
  lemma ReorderSame(f: Frame)
    requires Valid(f)
    ensures Reorder(f, Some(f.cols)) == f
  {
    PresentAll(f.cols, f.data.Keys);
    assert (map n | n in f.cols :: f.data[n]) == f.data;
  }
}

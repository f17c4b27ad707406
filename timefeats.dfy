/**
 * add_time_feats: the cyclical encoding of `hour_of_day` as the two columns
 * `hour_sin` and `hour_cos`, each cell computed from the same row's hour.
 */
module TimeFeatures {
  import opened Common
  import opened Values
  import opened Frames

  /** `np.sin(2*np.pi * h/24.0)` on one cell; NaN and infinities give NaN. */
  function SinCell(env: Env, v: Value): Value {
    match v
    case Num(h) => Num(env.sin(2.0 * Pi * h / 24.0))
    case NaN => NaN
    case Inf(_) => NaN
    case _ => v
  }

  /** `np.cos(2*np.pi * h/24.0)` on one cell; NaN and infinities give NaN. */
  function CosCell(env: Env, v: Value): Value {
    match v
    case Num(h) => Num(env.cos(2.0 * Pi * h / 24.0))
    case NaN => NaN
    case Inf(_) => NaN
    case _ => v
  }

  function SinColumn(env: Env, h: seq<Value>): (r: seq<Value>)
    ensures |r| == |h| && forall i :: 0 <= i < |h| ==> r[i] == SinCell(env, h[i])
  {
    MapCells(h, v => SinCell(env, v))
  }

  function CosColumn(env: Env, h: seq<Value>): (r: seq<Value>)
    ensures |r| == |h| && forall i :: 0 <= i < |h| ==> r[i] == CosCell(env, h[i])
  {
    MapCells(h, v => CosCell(env, v))
  }

  function AddTimeFeats(env: Env, df: Frame): (r: Result<Frame>)
    requires Valid(df)
    ensures r.Ok? ==> Valid(r.value) && r.value.height == df.height
  {
    if "hour_of_day" !in df.data then Err(MissingColumn("hour_of_day"))
    else
      var h := df.data["hour_of_day"];
      if !AllNumeric(h) then Err(TypeError("hour_of_day"))
      else
        Ok(Assign(Assign(df, "hour_sin", SinColumn(env, h)), "hour_cos", CosColumn(env, h)))
  }

  /**
   * add_time_feats fails exactly when `hour_of_day` is absent (KeyError) or not
   * numeric; otherwise the columns become those of df plus `hour_sin` and
   * `hour_cos` (appended in that order when new), every other column and the
   * row count are unchanged, and each new cell is the encoding of that row's hour.
   */
  lemma TimeFeatsFacts(env: Env, df: Frame)
    requires Valid(df)
    ensures AddTimeFeats(env, df).Err? <==> "hour_of_day" !in df.data || !AllNumeric(df.data["hour_of_day"])
    ensures "hour_of_day" !in df.data ==> AddTimeFeats(env, df) == Err(MissingColumn("hour_of_day"))
    ensures AddTimeFeats(env, df).Ok? ==>
      var r := AddTimeFeats(env, df).value;
      var h := df.data["hour_of_day"];
      && r.height == df.height
      && r.data.Keys == df.data.Keys + {"hour_sin", "hour_cos"}
      && r.cols == df.cols + (if "hour_sin" in df.data then [] else ["hour_sin"])
                           + (if "hour_cos" in df.data then [] else ["hour_cos"])
      && (forall n :: n in df.data && n != "hour_sin" && n != "hour_cos" ==> r.data[n] == df.data[n])
      && (forall i :: 0 <= i < df.height ==>
            r.data["hour_sin"][i] == SinCell(env, h[i]) && r.data["hour_cos"][i] == CosCell(env, h[i]))
  {
    if AddTimeFeats(env, df).Ok? {
      var h := df.data["hour_of_day"];
      var sin, cos := SinColumn(env, h), CosColumn(env, h);
      var withSin := Assign(df, "hour_sin", sin);
      var r := Assign(withSin, "hour_cos", cos);
      assert r.data == df.data["hour_sin" := sin]["hour_cos" := cos];
      assert withSin.cols == df.cols + (if "hour_sin" in df.data then [] else ["hour_sin"]);
    }
  }

  /** Two rows with the same hour get the same encoding, whatever else the frames hold. */
  lemma TimeFeatsRowLocal(env: Env, a: Frame, b: Frame, i: nat, j: nat)
    requires Valid(a) && Valid(b)
    requires AddTimeFeats(env, a).Ok? && AddTimeFeats(env, b).Ok?
    requires i < a.height && j < b.height
    requires a.data["hour_of_day"][i] == b.data["hour_of_day"][j]
    ensures AddTimeFeats(env, a).value.data["hour_sin"][i] == AddTimeFeats(env, b).value.data["hour_sin"][j]
    ensures AddTimeFeats(env, a).value.data["hour_cos"][i] == AddTimeFeats(env, b).value.data["hour_cos"][j]
  {
    TimeFeatsFacts(env, a);
    TimeFeatsFacts(env, b);
  }

  /** A finite hour gives finite encodings; a missing or infinite hour gives NaN. */
  lemma EncodingFinite(env: Env, v: Value)
    requires IsNumeric(v)
    ensures SinCell(env, v).Num? <==> v.Num?
    ensures CosCell(env, v).Num? <==> v.Num?
    ensures !v.Num? ==> SinCell(env, v) == NaN && CosCell(env, v) == NaN
  {
  }
}

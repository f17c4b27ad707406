/**
 * handling_skewness: every heavy-tailed count column that is present gets a
 * `<col>_log` column holding log1p of the count clamped at zero, and the raw
 * count columns are dropped.
 */
module Skew {
  import opened Common
  import opened Values
  import opened Frames

  const SkewedFeats: seq<string> :=
    ["offline_ont_now", "bad_rsl_count", "link_loss_count", "dying_gasp_count", "high_temp_count"]

  const SkewedSet: set<string> := set c | c in SkewedFeats

  /** `np.log1p(np.clip(v, 0, None))` on one numeric cell. */
  function LogCell(env: Env, v: Value): Value {
    match v
    case Num(x) => Num(env.log1p(if x < 0.0 then 0.0 else x))
    case Inf(p) => if p then Inf(true) else Num(env.log1p(0.0))
    case _ => v
  }

  function LogCells(env: Env, s: seq<Value>): seq<Value> {
    MapCells(s, v => LogCell(env, v))
  }

  /** One iteration of the loop: transform column c if it is present. */
  function LogStep(env: Env, f: Frame, c: string): (r: Result<Frame>)
    requires Valid(f)
    ensures r.Ok? ==> Valid(r.value) && r.value.height == f.height
  {
    if c !in f.data then Ok(f)
    else if !AllNumeric(f.data[c]) then Err(TypeError(c))
    else Ok(Assign(f, c + "_log", LogCells(env, f.data[c])))
  }

  /** The loop over `keys`, stopping at the first column that raises. */
  function LogAll(env: Env, f: Frame, keys: seq<string>): (r: Result<Frame>)
    requires Valid(f)
    ensures r.Ok? ==> Valid(r.value) && r.value.height == f.height
    decreases |keys|
  {
    if keys == [] then Ok(f)
    else
      match LogAll(env, f, keys[..|keys| - 1])
      case Err(e) => Err(e)
      case Ok(g) => LogStep(env, g, keys[|keys| - 1])
  }

  function Skewness(env: Env, df: Frame): (r: Result<Frame>)
    requires Valid(df)
    ensures r.Ok? ==> Valid(r.value) && r.value.height == df.height
  {
    match LogAll(env, df, SkewedFeats)
    case Err(e) => Err(e)
    case Ok(g) => Ok(Drop(g, SkewedSet))
  }

  method HandlingSkewness(env: Env, df: Frame) returns (r: Result<Frame>)
    requires Valid(df)
    ensures r == Skewness(env, df)
  {
    var f := df;
    var i := 0;
    while i < |SkewedFeats|
      invariant 0 <= i <= |SkewedFeats|
      invariant Valid(f)
      invariant LogAll(env, df, SkewedFeats[..i]) == Ok(f)
    {
      var col := SkewedFeats[i];
      assert SkewedFeats[..i + 1][..i] == SkewedFeats[..i];
      if col in f.data {
        if !AllNumeric(f.data[col]) {
          r := Err(TypeError(col));
          assert LogAll(env, df, SkewedFeats[..i + 1]) == r;
          LogAllErrSticky(env, df, SkewedFeats, i + 1);
          return;
        }
        f := Assign(f, col + "_log", LogCells(env, f.data[col]));
      }
      i := i + 1;
    }
    assert SkewedFeats[..i] == SkewedFeats;
    r := Ok(Drop(f, SkewedSet));
  }

  lemma {:induction false} LogAllErrSticky(env: Env, f: Frame, keys: seq<string>, k: nat)
    requires Valid(f) && k <= |keys| && LogAll(env, f, keys[..k]).Err?
    ensures LogAll(env, f, keys) == LogAll(env, f, keys[..k])
    decreases |keys| - k
  {
    if k < |keys| {
      assert keys[..k + 1][..k] == keys[..k];
      LogAllErrSticky(env, f, keys, k + 1);
    } else {
      assert keys[..k] == keys;
    }
  }

  /** No key is the `_log` name of a key, so the loop never overwrites a column it still reads. */
  predicate NoLogClash(keys: seq<string>) {
    forall c, d :: c in keys && d in keys ==> c != d + "_log"
  }

  /** The names of the `_log` columns the loop writes. */
  function LogNames(keys: seq<string>, f: Frame): set<string> {
    set c | c in keys && c in f.data :: c + "_log"
  }

  lemma LogNameInjective(a: string, b: string)
    ensures a + "_log" == b + "_log" ==> a == b
  {
    if a + "_log" == b + "_log" {
      assert a == (a + "_log")[..|a|];
      assert b == (b + "_log")[..|b|];
    }
  }

  lemma KeyNotLogName(keys: seq<string>, sub: seq<string>, f: Frame, c: string)
    requires NoLogClash(keys) && c in keys && forall d :: d in sub ==> d in keys
    ensures c !in LogNames(sub, f)
  {
  }

  /** Columns other than the `_log` names pass through the loop untouched. */
  lemma {:induction false} LogAllOthers(env: Env, f: Frame, keys: seq<string>, n: string)
    requires Valid(f) && NoLogClash(keys) && LogAll(env, f, keys).Ok? && n !in LogNames(keys, f)
    ensures n in LogAll(env, f, keys).value.data <==> n in f.data
    ensures n in f.data ==> LogAll(env, f, keys).value.data[n] == f.data[n]
    decreases |keys|
  {
    if keys != [] {
      var init, c := keys[..|keys| - 1], keys[|keys| - 1];
      assert forall d :: d in keys <==> d in init || d == c;
      assert NoLogClash(init);
      assert LogNames(init, f) <= LogNames(keys, f);
      LogAllOthers(env, f, init, n);
      KeyNotLogName(keys, init, f, c);
      LogAllOthers(env, f, init, c);
    }
  }

  lemma {:induction false} LogAllOk(env: Env, f: Frame, keys: seq<string>)
    requires Valid(f) && NoLogClash(keys)
    ensures LogAll(env, f, keys).Ok? <==> forall c :: c in keys && c in f.data ==> AllNumeric(f.data[c])
    decreases |keys|
  {
    if keys != [] {
      var init, c := keys[..|keys| - 1], keys[|keys| - 1];
      assert forall d :: d in keys <==> d in init || d == c;
      assert NoLogClash(init);
      LogAllOk(env, f, init);
      if LogAll(env, f, init).Ok? {
        KeyNotLogName(keys, init, f, c);
        LogAllOthers(env, f, init, c);
      }
    }
  }

  lemma {:induction false} LogAllPresent(env: Env, f: Frame, keys: seq<string>, c: string)
    requires Valid(f) && NoLogClash(keys) && LogAll(env, f, keys).Ok?
    requires c in keys && c in f.data
    ensures c + "_log" in LogAll(env, f, keys).value.data
    ensures LogAll(env, f, keys).value.data[c + "_log"] == LogCells(env, f.data[c])
    decreases |keys|
  {
    var init, last := keys[..|keys| - 1], keys[|keys| - 1];
    assert forall d :: d in keys <==> d in init || d == last;
    assert NoLogClash(init);
    var g := LogAll(env, f, init).value;
    KeyNotLogName(keys, init, f, last);
    LogAllOthers(env, f, init, last);
    if c != last {
      LogAllPresent(env, f, init, c);
      LogNameInjective(last, c);
    }
  }

  lemma SkewedNoLogClash()
    ensures NoLogClash(SkewedFeats)
  {
    forall c, d | c in SkewedFeats && d in SkewedFeats ensures c != d + "_log" {
      assert |c| in {13, 15, 16} && |d + "_log"| in {17, 19, 20};
    }
  }

  /**
   * handling_skewness succeeds exactly when every present count column is
   * numeric; then each present count has its clamped log column (non-negative,
   * and zero where the count is at most zero), no raw count column remains,
   * absent counts are skipped, and every other column and the row count are
   * unchanged.
   */
  lemma SkewnessFacts(env: Env, df: Frame)
    requires Valid(df)
    ensures Skewness(env, df).Ok? <==> forall c :: c in SkewedFeats && c in df.data ==> AllNumeric(df.data[c])
    ensures Skewness(env, df).Ok? ==>
      var r := Skewness(env, df).value;
      && r.height == df.height
      && (forall c :: c in SkewedFeats ==> c !in r.data)
      && (forall c :: c in SkewedFeats && c in df.data ==>
            c + "_log" in r.data && r.data[c + "_log"] == LogCells(env, df.data[c]))
      && (forall n :: n !in SkewedSet && n !in LogNames(SkewedFeats, df) ==>
            (n in r.data <==> n in df.data) && (n in df.data ==> r.data[n] == df.data[n]))
  {
    SkewedNoLogClash();
    LogAllOk(env, df, SkewedFeats);
    var res := LogAll(env, df, SkewedFeats);
    if res.Ok? {
      forall c | c in SkewedFeats && c in df.data
        ensures c + "_log" in res.value.data && res.value.data[c + "_log"] == LogCells(env, df.data[c])
        ensures c + "_log" !in SkewedSet
      {
        LogAllPresent(env, df, SkewedFeats, c);
      }
      forall n | n !in SkewedSet && n !in LogNames(SkewedFeats, df)
        ensures (n in res.value.data <==> n in df.data) && (n in df.data ==> res.value.data[n] == df.data[n])
      {
        LogAllOthers(env, df, SkewedFeats, n);
      }
    }
  }

  /** The clamped log of a count is non-negative, and zero for counts at most zero. */
  lemma LogCellBounds(env: Env, s: seq<Value>, i: nat)
    requires Lawful(env) && i < |s| && s[i].Num?
    ensures LogCells(env, s)[i].Num?
    ensures LogCells(env, s)[i].x >= 0.0
    ensures s[i].x <= 0.0 ==> LogCells(env, s)[i].x == 0.0
  {
  }
}

/**
 * _safe_numeric and add_roll_delta: numeric coercion of the log-count columns,
 * a sort by (timestamp_1h, group key), and per-partition first differences and
 * trailing means written as new columns.
 */
module Rolling {
  import opened Common
  import opened Values
  import opened Frames
  import opened Sorting

  const RollKeys: seq<string> :=
    ["link_loss_count_log", "bad_rsl_count_log", "high_temp_count_log",
     "dying_gasp_count_log", "offline_ont_now_log"]

  // ---------------------------------------------------------------------
  // _safe_numeric
  // ---------------------------------------------------------------------

  /**
   * `pd.to_numeric(errors="coerce")` on one cell: text becomes the float it
   * reads as (possibly an infinity or NaN) or missing, a timestamp becomes
   * nanoseconds.
   */
  function ToNumeric(env: Env, v: Value): Value {
    match v
    case Str(s) => (match env.parseFloat(s) case Some(x) => x case None => NaN)
    case Stamp(t) => Num((t * 1000000000) as real)
    case _ => v
  }

  /** `replace([np.inf, -np.inf], np.nan)` on one cell. */
  function InfToNaN(v: Value): Value {
    if v.Inf? then NaN else v
  }

  /** `pd.to_numeric(errors="coerce")` on a column. */
  function Coerce(env: Env, s: seq<Value>): (r: seq<Value>)
    ensures |r| == |s| && forall i :: 0 <= i < |s| ==> r[i] == ToNumeric(env, s[i])
  {
    MapCells(s, v => ToNumeric(env, v))
  }

  /** The frame after the coercion loop has run over keys. */
  function CoerceColumns(env: Env, f: Frame, keys: seq<string>): (r: Frame)
    requires Valid(f)
    ensures Valid(r) && r.cols == f.cols && r.height == f.height && r.data.Keys == f.data.Keys
  {
    Frame(f.cols, map n | n in f.data :: if n in keys then Coerce(env, f.data[n]) else f.data[n], f.height)
  }

  /** The frame _safe_numeric returns: the given columns coerced, then every infinity replaced by NaN. */
  function SafeNumeric(env: Env, f: Frame, keys: seq<string>): (r: Frame)
    requires Valid(f)
    ensures Valid(r) && r.cols == f.cols && r.height == f.height && r.data.Keys == f.data.Keys
  {
    MapFrame(CoerceColumns(env, f, keys), InfToNaN)
  }

  lemma CoerceIdempotent(env: Env, s: seq<Value>)
    ensures Coerce(env, Coerce(env, s)) == Coerce(env, s)
  {
  }

  /** One more iteration of the coercion loop. */
  lemma CoerceColumnsStep(env: Env, f: Frame, keys: seq<string>, i: nat)
    requires Valid(f) && i < |keys|
    ensures var g := CoerceColumns(env, f, keys[..i]);
      CoerceColumns(env, f, keys[..i + 1]) ==
        if keys[i] in g.data then Assign(g, keys[i], Coerce(env, g.data[keys[i]])) else g
  {
    var c := keys[i];
    assert forall n :: n in keys[..i + 1] <==> n in keys[..i] || n == c;
    if c in f.data {
      CoerceIdempotent(env, f.data[c]);
    }
  }

  method SafeNumericColumns(env: Env, df: Frame, keys: seq<string>) returns (r: Frame)
    requires Valid(df)
    ensures r == SafeNumeric(env, df, keys)
  {
    var f := df;
    var i := 0;
    assert CoerceColumns(env, df, keys[..0]) == df;
    while i < |keys|
      invariant 0 <= i <= |keys|
      invariant f == CoerceColumns(env, df, keys[..i])
    {
      CoerceColumnsStep(env, df, keys, i);
      var c := keys[i];
      if c in f.data {
        f := Assign(f, c, Coerce(env, f.data[c]));
      }
      i := i + 1;
    }
    assert keys[..i] == keys;
    r := MapFrame(f, InfToNaN);
  }

  /**
   * After _safe_numeric no cell of any column is infinite, a present key column
   * holds only numbers and missing values, and a cell of any other column
   * is unchanged unless it was infinite.
   */
  lemma SafeNumericFacts(env: Env, f: Frame, keys: seq<string>)
    requires Valid(f)
    ensures var r := SafeNumeric(env, f, keys);
      && (forall n, i :: n in r.data && 0 <= i < r.height ==> !r.data[n][i].Inf?)
      && (forall n, i :: n in keys && n in r.data && 0 <= i < r.height ==> r.data[n][i].Num? || r.data[n][i].NaN?)
      && (forall n, i :: n !in keys && n in r.data && 0 <= i < r.height ==> r.data[n][i] == InfToNaN(f.data[n][i]))
  {
  }

  // ---------------------------------------------------------------------
  // Partitions and the per-row aggregates
  // ---------------------------------------------------------------------

  /** The cells of v whose group cell in g is x, in order. */
  function Subseq(v: seq<Value>, g: seq<Value>, x: Value): seq<Value>
    requires |v| == |g|
    decreases |v|
  {
    if |v| == 0 then []
    else Subseq(v[..|v| - 1], g[..|g| - 1], x) + (if g[|g| - 1] == x then [v[|v| - 1]] else [])
  }

  /** The cells of row i's partition up to and including row i. */
  function History(v: seq<Value>, g: seq<Value>, i: nat): (h: seq<Value>)
    requires |v| == |g| && i < |v|
    ensures |h| >= 1 && h[|h| - 1] == v[i]
  {
    assert v[..i + 1][..i] == v[..i] && g[..i + 1][..i] == g[..i];
    Subseq(v[..i + 1], g[..i + 1], g[i])
  }

  /**
   * `grp[col].diff().fillna(0.0)` at row i: the change since the previous row
   * of the partition, and 0.0 for a partition's first row or when either
   * value is missing.
   */
  function DeltaAt(v: seq<Value>, g: seq<Value>, i: nat): Value
    requires |v| == |g| && i < |v|
  {
    var h := History(v, g, i);
    if |h| >= 2 && h[|h| - 1].Num? && h[|h| - 2].Num? then Num(h[|h| - 1].x - h[|h| - 2].x)
    else Num(0.0)
  }

  function CountNum(s: seq<Value>): nat {
    if s == [] then 0 else CountNum(s[..|s| - 1]) + (if s[|s| - 1].Num? then 1 else 0)
  }

  function SumNum(s: seq<Value>): real {
    if s == [] then 0.0 else SumNum(s[..|s| - 1]) + (if s[|s| - 1].Num? then s[|s| - 1].x else 0.0)
  }

  /** The mean of the numbers in s, skipping missing values; missing when there are none (min_periods=1). */
  function MeanOf(s: seq<Value>): Value {
    if CountNum(s) == 0 then NaN else Num(SumNum(s) / CountNum(s) as real)
  }

  /** The last w elements of s, or all of s when it is shorter. */
  function LastN(s: seq<Value>, w: nat): (r: seq<Value>)
    ensures |r| == if |s| <= w then |s| else w
  {
    if |s| <= w then s else s[|s| - w..]
  }

  /** `grp[col].rolling(w, min_periods=1).mean()` at row i. */
  function RollAt(v: seq<Value>, g: seq<Value>, w: nat, i: nat): Value
    requires |v| == |g| && i < |v|
  {
    MeanOf(LastN(History(v, g, i), w))
  }

  function DeltaCells(v: seq<Value>, g: seq<Value>): (r: seq<Value>)
    requires |v| == |g|
    ensures |r| == |v| && forall i :: 0 <= i < |v| ==> r[i] == DeltaAt(v, g, i)
  {
    seq(|v|, i requires 0 <= i < |v| => DeltaAt(v, g, i))
  }

  function RollCells(v: seq<Value>, g: seq<Value>, w: nat): (r: seq<Value>)
    requires |v| == |g|
    ensures |r| == |v| && forall i :: 0 <= i < |v| ==> r[i] == RollAt(v, g, w, i)
  {
    seq(|v|, i requires 0 <= i < |v| => RollAt(v, g, w, i))
  }

  /** Rows j..i-1 outside partition x add nothing to x's cells. */
  lemma {:induction false} SubseqSkip(v: seq<Value>, g: seq<Value>, x: Value, j: nat, i: nat)
    requires |v| == |g| && j <= i <= |v|
    requires forall k :: j <= k < i ==> g[k] != x
    ensures Subseq(v[..i], g[..i], x) == Subseq(v[..j], g[..j], x)
    decreases i
  {
    if i > j {
      assert v[..i][..i - 1] == v[..i - 1] && g[..i][..i - 1] == g[..i - 1];
      SubseqSkip(v, g, x, j, i - 1);
    }
  }

  lemma {:induction false} SubseqWithin(v: seq<Value>, g: seq<Value>, x: Value)
    requires |v| == |g|
    ensures forall e :: e in Subseq(v, g, x) ==> e in v
    decreases |v|
  {
    if |v| > 0 {
      SubseqWithin(v[..|v| - 1], g[..|g| - 1], x);
    }
  }

  /** The first row of a partition has only itself as history. */
  lemma HistoryFirst(v: seq<Value>, g: seq<Value>, i: nat)
    requires |v| == |g| && i < |v|
    requires forall k :: 0 <= k < i ==> g[k] != g[i]
    ensures History(v, g, i) == [v[i]]
  {
    assert v[..i + 1][..i] == v[..i] && g[..i + 1][..i] == g[..i];
    SubseqSkip(v, g, g[i], 0, i);
  }

  /** The history of row i extends that of the previous row j of the same partition. */
  lemma HistoryNext(v: seq<Value>, g: seq<Value>, j: nat, i: nat)
    requires |v| == |g| && j < i < |v| && g[j] == g[i]
    requires forall k :: j < k < i ==> g[k] != g[i]
    ensures History(v, g, i) == History(v, g, j) + [v[i]]
  {
    assert v[..i + 1][..i] == v[..i] && g[..i + 1][..i] == g[..i];
    SubseqSkip(v, g, g[i], j + 1, i);
  }

  /** The delta of a partition's first row is 0.0. */
  lemma DeltaFirst(v: seq<Value>, g: seq<Value>, i: nat)
    requires |v| == |g| && i < |v|
    requires forall k :: 0 <= k < i ==> g[k] != g[i]
    ensures DeltaAt(v, g, i) == Num(0.0)
  {
    HistoryFirst(v, g, i);
  }

  /**
   * The delta of row i is its value minus that of the previous row j of its
   * partition, and 0.0 when either of the two is missing.
   */
  lemma DeltaNext(v: seq<Value>, g: seq<Value>, j: nat, i: nat)
    requires |v| == |g| && j < i < |v| && g[j] == g[i]
    requires forall k :: j < k < i ==> g[k] != g[i]
    ensures DeltaAt(v, g, i) == if v[i].Num? && v[j].Num? then Num(v[i].x - v[j].x) else Num(0.0)
  {
    HistoryNext(v, g, j, i);
  }

  /** A delta is never missing. */
  lemma DeltaDefined(v: seq<Value>, g: seq<Value>, i: nat)
    requires |v| == |g| && i < |v|
    ensures DeltaAt(v, g, i).Num?
  {
  }

  lemma {:induction false} CountNumPositive(s: seq<Value>, k: nat)
    requires k < |s| && s[k].Num?
    ensures CountNum(s) > 0
    decreases |s|
  {
    if k < |s| - 1 {
      CountNumPositive(s[..|s| - 1], k);
    }
  }

  /** A trailing mean is defined whenever the row's own value is a number. */
  lemma RollDefined(v: seq<Value>, g: seq<Value>, w: nat, i: nat)
    requires |v| == |g| && i < |v| && w >= 1 && v[i].Num?
    ensures RollAt(v, g, w, i).Num?
  {
    var h := LastN(History(v, g, i), w);
    assert h[|h| - 1] == v[i];
    CountNumPositive(h, |h| - 1);
  }

  lemma {:induction false} SumNumNonNegative(s: seq<Value>)
    requires forall k :: 0 <= k < |s| && s[k].Num? ==> s[k].x >= 0.0
    ensures SumNum(s) >= 0.0
    decreases |s|
  {
    if s != [] {
      SumNumNonNegative(s[..|s| - 1]);
    }
  }

  /** A trailing mean of non-negative values (such as clamped logs) is non-negative. */
  lemma RollNonNegative(v: seq<Value>, g: seq<Value>, w: nat, i: nat)
    requires |v| == |g| && i < |v|
    requires forall k :: 0 <= k < |v| && v[k].Num? ==> v[k].x >= 0.0
    requires RollAt(v, g, w, i).Num?
    ensures RollAt(v, g, w, i).x >= 0.0
  {
    var h := LastN(History(v, g, i), w);
    SubseqWithin(v[..i + 1], g[..i + 1], g[i]);
    forall k | 0 <= k < |h| && h[k].Num? ensures h[k].x >= 0.0 {
      assert h[k] in History(v, g, i);
      assert h[k] in v;
    }
    SumNumNonNegative(h);
  }

  /** With a single partition (no usable group key) the history is every row so far. */
  lemma {:induction false} SubseqAll(v: seq<Value>, g: seq<Value>, x: Value, m: nat)
    requires |v| == |g| && m <= |v| && forall k :: 0 <= k < |g| ==> g[k] == x
    ensures Subseq(v[..m], g[..m], x) == v[..m]
    decreases m
  {
    if m > 0 {
      assert v[..m][..m - 1] == v[..m - 1] && g[..m][..m - 1] == g[..m - 1];
      SubseqAll(v, g, x, m - 1);
      assert v[..m] == v[..m - 1] + [v[m - 1]];
    }
  }

  /**
   * In a single partition the delta is the change since the previous row and
   * the trailing mean is over the last up-to-w rows of the whole column.
   */
  lemma SinglePartition(v: seq<Value>, g: seq<Value>, w: nat, i: nat)
    requires |v| == |g| && i < |v| && forall k :: 0 <= k < |g| ==> g[k] == g[0]
    ensures History(v, g, i) == v[..i + 1]
    ensures RollAt(v, g, w, i) == MeanOf(LastN(v[..i + 1], w))
    ensures i == 0 ==> DeltaAt(v, g, i) == Num(0.0)
    ensures i > 0 ==> DeltaAt(v, g, i) == if v[i].Num? && v[i - 1].Num? then Num(v[i].x - v[i - 1].x) else Num(0.0)
  {
    SubseqAll(v[..i + 1], g[..i + 1], g[0], i + 1);
    assert v[..i + 1][..i + 1] == v[..i + 1] && g[..i + 1][..i + 1] == g[..i + 1];
    if i == 0 {
      DeltaFirst(v, g, 0);
    } else {
      DeltaNext(v, g, i - 1, i);
    }
  }

  // ---------------------------------------------------------------------
  // The columns add_roll_delta writes
  // ---------------------------------------------------------------------

  /** What one assignment computes: the first difference, or the trailing mean over w rows. */
  datatype Op = Delta | Roll(w: nat)

  /** `col + "_delta_1h"` and `f"{col}_roll{w}h_mean"`. */
  function OpName(k: string, op: Op): string {
    match op
    case Delta => k + "_delta_1h"
    case Roll(w) => k + "_roll" + NatToString(w) + "h_mean"
  }

  function OpCells(v: seq<Value>, g: seq<Value>, op: Op): (r: seq<Value>)
    requires |v| == |g|
    ensures |r| == |v|
  {
    match op
    case Delta => DeltaCells(v, g)
    case Roll(w) => RollCells(v, g, w)
  }

  /** One column assignment of the loops: op applied to key column `key`. */
  datatype Job = Job(key: string, op: Op)

  function JobName(j: Job): string {
    OpName(j.key, j.op)
  }

  /** The assignments of one pass over keys, skipping absent columns. */
  function KeyJobs(keys: seq<string>, present: set<string>, op: Op): (r: seq<Job>)
    ensures forall t :: 0 <= t < |r| ==> r[t].key in keys && r[t].key in present && r[t].op == op
    decreases |keys|
  {
    if keys == [] then []
    else
      var k := keys[|keys| - 1];
      KeyJobs(keys[..|keys| - 1], present, op) + (if k in present then [Job(k, op)] else [])
  }

  /** The assignments of the nested loop over windows, then keys. */
  function WindowJobs(keys: seq<string>, present: set<string>, ws: seq<nat>): (r: seq<Job>)
    ensures forall t :: 0 <= t < |r| ==> r[t].key in keys && r[t].key in present && r[t].op.Roll? && r[t].op.w in ws
    decreases |ws|
  {
    if ws == [] then []
    else WindowJobs(keys, present, ws[..|ws| - 1]) + KeyJobs(keys, present, Roll(ws[|ws| - 1]))
  }

  /** Every assignment add_roll_delta makes, in order: the deltas, then the means window by window. */
  function Jobs(keys: seq<string>, present: set<string>, ws: seq<nat>): seq<Job> {
    KeyJobs(keys, present, Delta) + WindowJobs(keys, present, ws)
  }

  /**
   * The assignments run in order on b; every cell is computed from b's key
   * column and the group cells g (an assignment whose key is absent is skipped,
   * though the loops never make one).
   */
  function AssignJobs(b: Frame, g: seq<Value>, jobs: seq<Job>): (r: Frame)
    requires Valid(b) && |g| == b.height
    ensures Valid(r) && r.height == b.height
    decreases |jobs|
  {
    if jobs == [] then b
    else
      var j := jobs[|jobs| - 1];
      var f := AssignJobs(b, g, jobs[..|jobs| - 1]);
      if j.key in b.data then Assign(f, JobName(j), OpCells(b.data[j.key], g, j.op)) else f
  }

  lemma AssignJobsSnoc(b: Frame, g: seq<Value>, jobs: seq<Job>, j: Job)
    requires Valid(b) && |g| == b.height && j.key in b.data
    ensures AssignJobs(b, g, jobs + [j]) == Assign(AssignJobs(b, g, jobs), JobName(j), OpCells(b.data[j.key], g, j.op))
  {
    assert (jobs + [j])[..|jobs|] == jobs;
  }

  /** A column no assignment writes is left as it was. */
  lemma {:induction false} AssignJobsOthers(b: Frame, g: seq<Value>, jobs: seq<Job>, n: string)
    requires Valid(b) && |g| == b.height
    requires forall t :: 0 <= t < |jobs| ==> JobName(jobs[t]) != n
    ensures n in AssignJobs(b, g, jobs).data <==> n in b.data
    ensures n in b.data ==> AssignJobs(b, g, jobs).data[n] == b.data[n]
    decreases |jobs|
  {
    if jobs != [] {
      AssignJobsOthers(b, g, jobs[..|jobs| - 1], n);
    }
  }

  /** Assignments whose names coincide compute the same column. */
  ghost predicate NamesDetermineJobs(jobs: seq<Job>) {
    forall s, t :: 0 <= s < |jobs| && 0 <= t < |jobs| && JobName(jobs[s]) == JobName(jobs[t]) ==> jobs[s] == jobs[t]
  }

  /** Every assignment's column holds what it computed. */
  lemma {:induction false} AssignJobsHas(b: Frame, g: seq<Value>, jobs: seq<Job>, t: nat)
    requires Valid(b) && |g| == b.height
    requires NamesDetermineJobs(jobs) && t < |jobs| && jobs[t].key in b.data
    ensures JobName(jobs[t]) in AssignJobs(b, g, jobs).data
    ensures AssignJobs(b, g, jobs).data[JobName(jobs[t])] == OpCells(b.data[jobs[t].key], g, jobs[t].op)
    decreases |jobs|
  {
    var last := jobs[|jobs| - 1];
    if JobName(last) != JobName(jobs[t]) {
      AssignJobsHas(b, g, jobs[..|jobs| - 1], t);
    }
  }

  lemma OpNameLast(k: string, op: Op)
    ensures var n := OpName(k, op); |n| > |k| && n[..|k|] == k
    ensures var n := OpName(k, op); n[|n| - 1] == if op.Delta? then 'h' else 'n'
  {
  }

  /** Every key ends in 'g', so no assignment of a pass overwrites a key column. */
  predicate EndsInG(keys: seq<string>) {
    forall c :: c in keys ==> |c| > 0 && c[|c| - 1] == 'g'
  }

  /** No two keys share a first letter (true of the roll keys: l, b, h, d, o). */
  predicate DistinctInitials(keys: seq<string>) {
    forall a, b :: a in keys && b in keys && |a| > 0 && |b| > 0 && a[0] == b[0] ==> a == b
  }

  /** Distinct (key, operation) pairs over such keys give distinct column names. */
  lemma OpNameInjective(keys: seq<string>, k1: string, op1: Op, k2: string, op2: Op)
    requires DistinctInitials(keys) && EndsInG(keys) && k1 in keys && k2 in keys
    ensures OpName(k1, op1) == OpName(k2, op2) ==> k1 == k2 && op1 == op2
  {
    var n1, n2 := OpName(k1, op1), OpName(k2, op2);
    if n1 == n2 {
      OpNameLast(k1, op1);
      OpNameLast(k2, op2);
      assert n1[0] == k1[0] && n2[0] == k2[0];
      assert k1 == k2;
      if op1.Roll? && op2.Roll? {
        var a, b := NatToString(op1.w), NatToString(op2.w);
        assert n1 == k1 + "_roll" + a + "h_mean" && n2 == k1 + "_roll" + b + "h_mean";
        assert |a| == |b|;
        assert a == n1[|k1| + 5..|n1| - 6];
        assert b == n2[|k1| + 5..|n2| - 6];
        NatToStringInjective(op1.w, op2.w);
      }
    }
  }

  lemma JobsDetermined(keys: seq<string>, present: set<string>, ws: seq<nat>)
    requires DistinctInitials(keys) && EndsInG(keys)
    ensures NamesDetermineJobs(Jobs(keys, present, ws))
  {
    var jobs := Jobs(keys, present, ws);
    forall s, t | 0 <= s < |jobs| && 0 <= t < |jobs| && JobName(jobs[s]) == JobName(jobs[t])
      ensures jobs[s] == jobs[t]
    {
      OpNameInjective(keys, jobs[s].key, jobs[s].op, jobs[t].key, jobs[t].op);
    }
  }

  // ---------------------------------------------------------------------
  // add_roll_delta
  // ---------------------------------------------------------------------

  /** The sort key of each row: (timestamp_1h, group key) when the key is a column, else timestamp_1h alone. */
  function SortKeys(s: Frame, gk: Option<string>): (keys: seq<Key>)
    requires Valid(s) && "timestamp_1h" in s.data
    ensures |keys| == s.height
  {
    var ts := s.data["timestamp_1h"];
    if gk.Some? && gk.value in s.data then
      var gc := s.data[gk.value];
      seq(s.height, i requires 0 <= i < s.height => [Asc(ts[i]), Asc(gc[i])])
    else
      seq(s.height, i requires 0 <= i < s.height => [Asc(ts[i])])
  }

  /** Row k after the sort is row RollOrder(s, gk)[k] before it; no timestamp column, no sort. */
  function RollOrder(s: Frame, gk: Option<string>): (p: seq<nat>)
    requires Valid(s)
    ensures |p| == s.height && InRange(p, s.height)
  {
    if "timestamp_1h" in s.data then SortPerm(SortKeys(s, gk)) else Iota(s.height)
  }

  /** The frame after coercion of the key columns and the sort, before any column is written. */
  function Prepared(env: Env, f: Frame, keys: seq<string>, gk: Option<string>): (s: Frame)
    requires Valid(f)
    ensures Valid(s) && s.height == f.height && s.data.Keys == f.data.Keys
  {
    var s0 := SafeNumeric(env, f, keys);
    if "timestamp_1h" in s0.data then Rows(s0, RollOrder(s0, gk)) else s0
  }

  predicate Grouped(s: Frame, gk: Option<string>) {
    gk.Some? && gk.value in s.data
  }

  /** The cells groupby partitions by: the group key column, or the constant `__grp__` column. */
  function GroupCells(s: Frame, gk: Option<string>): (g: seq<Value>)
    requires Valid(s)
    ensures |g| == s.height
  {
    if Grouped(s, gk) then s.data[gk.value] else Fill(Num(0.0), s.height)
  }

  /** The frame the assignments start from: `__grp__` is added when there is no usable group key. */
  function Base(s: Frame, gk: Option<string>): (b: Frame)
    requires Valid(s)
    ensures Valid(b) && b.height == s.height
  {
    if Grouped(s, gk) then s else Assign(s, "__grp__", Fill(Num(0.0), s.height))
  }

  /** The frame add_roll_delta returns, for the key columns keys (ROLL_KEYS in the source). */
  function RollDelta(env: Env, f: Frame, keys: seq<string>, gk: Option<string>, ws: seq<nat>): (r: Frame)
    requires Valid(f)
    ensures Valid(r) && r.height == f.height
  {
    var s := Prepared(env, f, keys, gk);
    var b := Base(s, gk);
    Cleanup(AssignJobs(b, GroupCells(s, gk), Jobs(keys, b.data.Keys, ws)), gk)
  }

  /** The temporary `__grp__` column is dropped when the group key is not (or no longer) a column. */
  function Cleanup(r: Frame, gk: Option<string>): (c: Frame)
    requires Valid(r)
    ensures Valid(c) && c.height == r.height
  {
    if (gk.None? || gk.value !in r.data) && "__grp__" in r.data then Drop(r, {"__grp__"}) else r
  }

  lemma KeyJobsStep(keys: seq<string>, present: set<string>, op: Op, i: nat)
    requires i < |keys|
    ensures KeyJobs(keys[..i + 1], present, op)
      == KeyJobs(keys[..i], present, op) + (if keys[i] in present then [Job(keys[i], op)] else [])
  {
    assert keys[..i + 1][..i] == keys[..i];
  }

  lemma WindowJobsStep(keys: seq<string>, present: set<string>, ws: seq<nat>, j: nat)
    requires j < |ws|
    ensures WindowJobs(keys, present, ws[..j + 1]) == WindowJobs(keys, present, ws[..j]) + KeyJobs(keys, present, Roll(ws[j]))
  {
    assert ws[..j + 1][..j] == ws[..j];
  }

  /** A name ending in 'g' (as every roll key does) is never written by an assignment. */
  lemma NotAJobNameG(jobs: seq<Job>, n: string)
    requires |n| > 0 && n[|n| - 1] == 'g'
    ensures forall t :: 0 <= t < |jobs| ==> JobName(jobs[t]) != n
  {
    forall t | 0 <= t < |jobs| ensures JobName(jobs[t]) != n {
      OpNameLast(jobs[t].key, jobs[t].op);
    }
  }

  /** An assignment to a name ending in 'h' or 'n' leaves the column col, ending in 'g', as it was. */
  lemma SnocOther(b: Frame, g: seq<Value>, sofar: seq<Job>, col: string, op: Op)
    requires Valid(b) && |g| == b.height && |col| > 0 && col[|col| - 1] == 'g'
    ensures var f := AssignJobs(b, g, sofar);
      && (col in f.data <==> col in b.data)
      && (col in b.data ==>
            AssignJobs(b, g, sofar + [Job(col, op)]) == Assign(f, OpName(col, op), OpCells(f.data[col], g, op)))
  {
    NotAJobNameG(sofar, col);
    AssignJobsOthers(b, g, sofar, col);
    if col in b.data {
      AssignJobsSnoc(b, g, sofar, Job(col, op));
    }
  }

  lemma JobsStep(done: seq<Job>, keys: seq<string>, present: set<string>, op: Op, k: nat)
    requires k < |keys|
    ensures keys[k] in present ==>
      done + KeyJobs(keys[..k + 1], present, op) == (done + KeyJobs(keys[..k], present, op)) + [Job(keys[k], op)]
    ensures keys[k] !in present ==>
      done + KeyJobs(keys[..k + 1], present, op) == done + KeyJobs(keys[..k], present, op)
  {
    KeyJobsStep(keys, present, op, k);
  }

  /**
   * One pass of `for col in keys: if col in f.columns: f[name] = ...`,
   * continuing from the frame f0 that the earlier assignments `done` produced.
   */
  method AssignPass(b: Frame, g: seq<Value>, ghost done: seq<Job>, f0: Frame, keys: seq<string>, op: Op)
    returns (f: Frame)
    requires Valid(b) && |g| == b.height && EndsInG(keys)
    requires f0 == AssignJobs(b, g, done)
    ensures f == AssignJobs(b, g, done + KeyJobs(keys, b.data.Keys, op))
  {
    f := f0;
    var k := 0;
    assert done + KeyJobs(keys[..0], b.data.Keys, op) == done;
    while k < |keys|
      invariant 0 <= k <= |keys|
      invariant f == AssignJobs(b, g, done + KeyJobs(keys[..k], b.data.Keys, op))
    {
      var col := keys[k];
      JobsStep(done, keys, b.data.Keys, op, k);
      SnocOther(b, g, done + KeyJobs(keys[..k], b.data.Keys, op), col, op);
      if col in f.data {
        f := Assign(f, OpName(col, op), OpCells(f.data[col], g, op));
      }
      k := k + 1;
    }
    assert keys[..k] == keys;
  }

  lemma JobsWindowStep(keys: seq<string>, present: set<string>, ws: seq<nat>, j: nat)
    requires j < |ws|
    ensures Jobs(keys, present, ws[..j + 1]) == Jobs(keys, present, ws[..j]) + KeyJobs(keys, present, Roll(ws[j]))
  {
    WindowJobsStep(keys, present, ws, j);
  }

  /** The delta loop, then the loop over windows with the loop over keys inside. */
  method AddAggregates(b: Frame, g: seq<Value>, keys: seq<string>, ws: seq<nat>) returns (f: Frame)
    requires Valid(b) && |g| == b.height && EndsInG(keys)
    ensures f == AssignJobs(b, g, Jobs(keys, b.data.Keys, ws))
  {
    assert b == AssignJobs(b, g, []);
    f := AssignPass(b, g, [], b, keys, Delta);
    assert [] + KeyJobs(keys, b.data.Keys, Delta) == Jobs(keys, b.data.Keys, ws[..0]);
    var j := 0;
    while j < |ws|
      invariant 0 <= j <= |ws|
      invariant f == AssignJobs(b, g, Jobs(keys, b.data.Keys, ws[..j]))
    {
      JobsWindowStep(keys, b.data.Keys, ws, j);
      f := AssignPass(b, g, Jobs(keys, b.data.Keys, ws[..j]), f, keys, Roll(ws[j]));
      j := j + 1;
    }
    assert ws[..j] == ws;
  }

  /** `_safe_numeric` and the sort. */
  method Prepare(env: Env, df: Frame, keys: seq<string>, gk: Option<string>) returns (f: Frame)
    requires Valid(df)
    ensures f == Prepared(env, df, keys, gk)
  {
    f := SafeNumericColumns(env, df, keys);
    if "timestamp_1h" in f.data {
      f := Rows(f, SortPerm(SortKeys(f, gk)));
    }
  }

  method AggregateOver(env: Env, df: Frame, keys: seq<string>, gk: Option<string>, ws: seq<nat>) returns (r: Frame)
    requires Valid(df) && EndsInG(keys)
    ensures r == RollDelta(env, df, keys, gk, ws)
  {
    var f := Prepare(env, df, keys, gk);
    ghost var s := f;
    var g: seq<Value>;
    if gk.Some? && gk.value in f.data {
      g := f.data[gk.value];
    } else {
      g := Fill(Num(0.0), f.height);
      f := Assign(f, "__grp__", g);
    }
    f := AddAggregates(f, g, keys, ws);
    if (gk.None? || gk.value !in f.data) && "__grp__" in f.data {
      f := Drop(f, {"__grp__"});
    }
    r := f;
  }

  /** add_roll_delta: pandas' rolling raises for a window below min_periods=1, so callers pass windows of at least 1. */
  method AddRollDelta(env: Env, df: Frame, gk: Option<string>, ws: seq<nat>) returns (r: Frame)
    requires Valid(df)
    requires forall j :: 0 <= j < |ws| ==> ws[j] >= 1
    ensures r == RollDelta(env, df, RollKeys, gk, ws)
  {
    assert EndsInG(RollKeys);
    r := AggregateOver(env, df, RollKeys, gk, ws);
  }

  // ---------------------------------------------------------------------
  // What add_roll_delta returns
  // ---------------------------------------------------------------------

  /** The names of the columns add_roll_delta writes. */
  function NewNames(keys: seq<string>, ws: seq<nat>): set<string> {
    (set k | k in keys :: OpName(k, Delta)) + (set k, w | k in keys && w in ws :: OpName(k, Roll(w)))
  }

  lemma {:induction false} KeyJobsIndex(keys: seq<string>, present: set<string>, op: Op, k: string) returns (t: nat)
    requires k in keys && k in present
    ensures t < |KeyJobs(keys, present, op)| && KeyJobs(keys, present, op)[t] == Job(k, op)
    decreases |keys|
  {
    var init := keys[..|keys| - 1];
    if k == keys[|keys| - 1] {
      t := |KeyJobs(init, present, op)|;
    } else {
      assert k in init;
      t := KeyJobsIndex(init, present, op, k);
    }
  }

  lemma {:induction false} WindowJobsIndex(keys: seq<string>, present: set<string>, ws: seq<nat>, k: string, w: nat)
    returns (t: nat)
    requires k in keys && k in present && w in ws
    ensures t < |WindowJobs(keys, present, ws)| && WindowJobs(keys, present, ws)[t] == Job(k, Roll(w))
    decreases |ws|
  {
    var init := ws[..|ws| - 1];
    if w == ws[|ws| - 1] {
      var u := KeyJobsIndex(keys, present, Roll(w), k);
      t := |WindowJobs(keys, present, init)| + u;
    } else {
      assert w in init;
      t := WindowJobsIndex(keys, present, init, k, w);
    }
  }

  /** Every job writes one of the new names. */
  lemma JobNamesNew(keys: seq<string>, present: set<string>, ws: seq<nat>)
    ensures forall t :: 0 <= t < |Jobs(keys, present, ws)| ==> JobName(Jobs(keys, present, ws)[t]) in NewNames(keys, ws)
  {
    var d, rs := KeyJobs(keys, present, Delta), WindowJobs(keys, present, ws);
    forall t | 0 <= t < |d + rs| ensures JobName((d + rs)[t]) in NewNames(keys, ws) {
      if t < |d| {
        assert (d + rs)[t] == d[t];
      } else {
        assert (d + rs)[t] == rs[t - |d|];
      }
    }
  }

  lemma AssignedDelta(keys: seq<string>, b: Frame, g: seq<Value>, ws: seq<nat>, k: string)
    requires Valid(b) && |g| == b.height && DistinctInitials(keys) && EndsInG(keys)
    requires k in keys && k in b.data
    ensures var r := AssignJobs(b, g, Jobs(keys, b.data.Keys, ws));
      OpName(k, Delta) in r.data && r.data[OpName(k, Delta)] == DeltaCells(b.data[k], g)
  {
    var jobs := Jobs(keys, b.data.Keys, ws);
    JobsDetermined(keys, b.data.Keys, ws);
    var t := KeyJobsIndex(keys, b.data.Keys, Delta, k);
    assert jobs[t] == Job(k, Delta);
    AssignJobsHas(b, g, jobs, t);
  }

  lemma IndexAppend(a: seq<Job>, c: seq<Job>, t: nat)
    requires t < |c|
    ensures (a + c)[|a| + t] == c[t]
  {
  }

  lemma AssignedRoll(keys: seq<string>, b: Frame, g: seq<Value>, ws: seq<nat>, k: string, w: nat)
    requires Valid(b) && |g| == b.height && DistinctInitials(keys) && EndsInG(keys)
    requires k in keys && k in b.data && w in ws
    ensures var r := AssignJobs(b, g, Jobs(keys, b.data.Keys, ws));
      OpName(k, Roll(w)) in r.data && r.data[OpName(k, Roll(w))] == RollCells(b.data[k], g, w)
  {
    var jobs := Jobs(keys, b.data.Keys, ws);
    var d := KeyJobs(keys, b.data.Keys, Delta);
    var rs := WindowJobs(keys, b.data.Keys, ws);
    JobsDetermined(keys, b.data.Keys, ws);
    var t := WindowJobsIndex(keys, b.data.Keys, ws, k, w);
    var u := |d| + t;
    assert jobs[u] == rs[t] by {
      assert jobs == d + rs;
      IndexAppend(d, rs, t);
    }
    AssignJobsHas(b, g, jobs, u);
  }

  lemma AssignedOther(keys: seq<string>, b: Frame, g: seq<Value>, ws: seq<nat>, n: string)
    requires Valid(b) && |g| == b.height
    requires n !in NewNames(keys, ws)
    ensures var r := AssignJobs(b, g, Jobs(keys, b.data.Keys, ws));
      (n in r.data <==> n in b.data) && (n in b.data ==> r.data[n] == b.data[n])
  {
    JobNamesNew(keys, b.data.Keys, ws);
    AssignJobsOthers(b, g, Jobs(keys, b.data.Keys, ws), n);
  }

  /** The roll keys have the shape the name arguments above rely on. */
  lemma RollKeysShape()
    ensures EndsInG(RollKeys) && DistinctInitials(RollKeys)
  {
    var ks := RollKeys;
    assert ks[0][0] == 'l' && ks[1][0] == 'b' && ks[2][0] == 'h' && ks[3][0] == 'd' && ks[4][0] == 'o';
    assert ks[0][|ks[0]| - 1] == 'g' && ks[1][|ks[1]| - 1] == 'g' && ks[2][|ks[2]| - 1] == 'g';
    assert ks[3][|ks[3]| - 1] == 'g' && ks[4][|ks[4]| - 1] == 'g';
    assert forall c :: c in ks <==> c == ks[0] || c == ks[1] || c == ks[2] || c == ks[3] || c == ks[4];
  }

  /** The base frame differs from the sorted one at most in `__grp__`. */
  lemma BaseKeeps(s: Frame, gk: Option<string>, n: string)
    requires Valid(s) && n != "__grp__"
    ensures n in Base(s, gk).data <==> n in s.data
    ensures n in s.data ==> Base(s, gk).data[n] == s.data[n]
  {
  }

  /** The cleanup removes nothing but `__grp__`. */
  lemma CleanupKeeps(r: Frame, gk: Option<string>, n: string)
    requires Valid(r) && n != "__grp__"
    ensures n in Cleanup(r, gk).data <==> n in r.data
    ensures n in r.data ==> Cleanup(r, gk).data[n] == r.data[n]
  {
  }

  lemma RollDeltaDelta(env: Env, f: Frame, keys: seq<string>, gk: Option<string>, ws: seq<nat>, k: string)
    requires Valid(f) && EndsInG(keys) && DistinctInitials(keys) && k in keys && k in f.data
    ensures var s := Prepared(env, f, keys, gk);
      var r := RollDelta(env, f, keys, gk, ws);
      OpName(k, Delta) in r.data && r.data[OpName(k, Delta)] == DeltaCells(s.data[k], GroupCells(s, gk))
  {
    var s := Prepared(env, f, keys, gk);
    var b := Base(s, gk);
    BaseKeeps(s, gk, k);
    AssignedDelta(keys, b, GroupCells(s, gk), ws, k);
    OpNameLast(k, Delta);
    CleanupKeeps(AssignJobs(b, GroupCells(s, gk), Jobs(keys, b.data.Keys, ws)), gk, OpName(k, Delta));
  }

  lemma RollDeltaRoll(env: Env, f: Frame, keys: seq<string>, gk: Option<string>, ws: seq<nat>, k: string, w: nat)
    requires Valid(f) && EndsInG(keys) && DistinctInitials(keys) && k in keys && k in f.data && w in ws
    ensures var s := Prepared(env, f, keys, gk);
      var r := RollDelta(env, f, keys, gk, ws);
      OpName(k, Roll(w)) in r.data && r.data[OpName(k, Roll(w))] == RollCells(s.data[k], GroupCells(s, gk), w)
  {
    var s := Prepared(env, f, keys, gk);
    var b := Base(s, gk);
    BaseKeeps(s, gk, k);
    AssignedRoll(keys, b, GroupCells(s, gk), ws, k, w);
    OpNameLast(k, Roll(w));
    CleanupKeeps(AssignJobs(b, GroupCells(s, gk), Jobs(keys, b.data.Keys, ws)), gk, OpName(k, Roll(w)));
  }

  lemma RollDeltaOther(env: Env, f: Frame, keys: seq<string>, gk: Option<string>, ws: seq<nat>, n: string)
    requires Valid(f) && n != "__grp__" && n !in NewNames(keys, ws)
    ensures var s := Prepared(env, f, keys, gk);
      var r := RollDelta(env, f, keys, gk, ws);
      (n in r.data <==> n in f.data) && (n in f.data ==> r.data[n] == s.data[n])
  {
    var s := Prepared(env, f, keys, gk);
    var b := Base(s, gk);
    BaseKeeps(s, gk, n);
    AssignedOther(keys, b, GroupCells(s, gk), ws, n);
    CleanupKeeps(AssignJobs(b, GroupCells(s, gk), Jobs(keys, b.data.Keys, ws)), gk, n);
  }

  /**
   * add_roll_delta writes, for every key column present, its delta column and
   * one trailing-mean column per window, computed over the coerced and sorted
   * rows partitioned by the group cells; every other column is the coerced,
   * sorted input column; no other column appears except the temporary
   * `__grp__`, which is gone whenever no group key was given or the group key
   * is not a column (and is not a name the stage itself writes).
   */
  lemma RollDeltaFacts(env: Env, f: Frame, keys: seq<string>, gk: Option<string>, ws: seq<nat>)
    requires Valid(f) && EndsInG(keys) && DistinctInitials(keys)
    ensures var s := Prepared(env, f, keys, gk);
      var g := GroupCells(s, gk);
      var r := RollDelta(env, f, keys, gk, ws);
      && r.height == f.height
      && (forall k :: k in keys && k in f.data ==>
            OpName(k, Delta) in r.data && r.data[OpName(k, Delta)] == DeltaCells(s.data[k], g))
      && (forall k, w :: k in keys && k in f.data && w in ws ==>
            OpName(k, Roll(w)) in r.data && r.data[OpName(k, Roll(w))] == RollCells(s.data[k], g, w))
      && (forall n :: n != "__grp__" && n !in NewNames(keys, ws) ==>
            (n in r.data <==> n in f.data) && (n in f.data ==> r.data[n] == s.data[n]))
      && ((gk.None? || (gk.value !in f.data && gk.value != "__grp__" && gk.value !in NewNames(keys, ws)))
            ==> "__grp__" !in r.data)
  {
    if gk.Some? && gk.value !in f.data && gk.value != "__grp__" && gk.value !in NewNames(keys, ws) {
      var s := Prepared(env, f, keys, gk);
      RollDeltaOther(env, f, keys, gk, ws, gk.value);
      BaseKeeps(s, gk, gk.value);
      AssignedOther(keys, Base(s, gk), GroupCells(s, gk), ws, gk.value);
    }
    forall k | k in keys && k in f.data {
      RollDeltaDelta(env, f, keys, gk, ws, k);
    }
    forall k, w | k in keys && k in f.data && w in ws {
      RollDeltaRoll(env, f, keys, gk, ws, k, w);
    }
    forall n | n != "__grp__" && n !in NewNames(keys, ws) {
      RollDeltaOther(env, f, keys, gk, ws, n);
    }
  }

  lemma PermuteIota(s: seq<Value>)
    ensures PermuteCells(s, Iota(|s|)) == s
  {
  }

  /**
   * Before any column is written the rows are reordered, not changed: row k
   * is row RollOrder[k] of the coerced input, every row appears once, and with
   * a timestamp column the order is non-decreasing in (timestamp_1h, group
   * key) when the group key is a column, in timestamp_1h alone otherwise.
   */
  lemma PreparedRows(env: Env, f: Frame, keys: seq<string>, gk: Option<string>)
    requires Valid(f)
    ensures var s0 := SafeNumeric(env, f, keys);
      var p := RollOrder(s0, gk);
      var s := Prepared(env, f, keys, gk);
      && IsPermutation(p, f.height)
      && (forall n :: n in s.data ==> s.data[n] == PermuteCells(s0.data[n], p))
      && ("timestamp_1h" in f.data ==> SortedBy(SortKeys(s0, gk), p))
  {
    var s0 := SafeNumeric(env, f, keys);
    if "timestamp_1h" in f.data {
      SortPermSorted(SortKeys(s0, gk));
    } else {
      forall n | n in s0.data ensures s0.data[n] == PermuteCells(s0.data[n], Iota(f.height)) {
        PermuteIota(s0.data[n]);
      }
    }
  }

  /** Every written name is at least nine characters longer than the shortest key. */
  lemma NewNamesLong(keys: seq<string>, ws: seq<nat>, m: nat, n: string)
    requires forall k :: k in keys ==> |k| >= m
    requires n in NewNames(keys, ws)
    ensures |n| >= m + 9
  {
  }

  lemma RollKeysLong()
    ensures forall k :: k in RollKeys ==> |k| >= 17
  {
    var ks := RollKeys;
    assert |ks[0]| == 19 && |ks[1]| == 17 && |ks[2]| == 19 && |ks[3]| == 20 && |ks[4]| == 19;
    assert forall c :: c in ks <==> c == ks[0] || c == ks[1] || c == ks[2] || c == ks[3] || c == ks[4];
  }
}

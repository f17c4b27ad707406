/**
 * Cells of a frame, the order pandas' sort_values uses on them, and the
 * numeric primitives (numpy's log1p, sin, cos, exp and pandas' parsers) that
 * the pipeline calls but whose definitions are not modelled.
 */
module Values {
  import opened Common

  /** One cell. NaN stands for every missing marker pandas uses (NaN, NaT, None). */
  datatype Value =
    | Num(x: real)          // a finite number (ints, floats and booleans alike)
    | NaN                   // a missing value
    | Inf(positive: bool)   // +inf or -inf
    | Str(s: string)        // text
    | Stamp(t: int)         // a timestamp, in whole seconds since the epoch

  predicate IsNumeric(v: Value) {
    v.Num? || v.NaN? || v.Inf?
  }

  /** numpy's ufuncs accept only numeric columns; text or timestamps raise TypeError. */
  predicate AllNumeric(s: seq<Value>) {
    forall i :: 0 <= i < |s| ==> IsNumeric(s[i])
  }

  /**
   * The primitives the pipeline calls and does not define: numpy's log1p,
   * sin, cos and exp over reals, float(s) on text (which reads "inf",
   * "-inf", "nan" and out-of-range literals such as "1e999" as non-finite
   * floats, and `None` when the text is not a float), and pandas.to_datetime
   * (errors="coerce") on one cell.
   */
  datatype Env = Env(
    log1p: real -> real,
    sin: real -> real,
    cos: real -> real,
    exp: real -> Positive,
    parseFloat: string -> Option<Float>,
    parseStamp: Value -> Option<int>)

  /** The cells a float parse can give: a finite number, NaN or an infinity. */
  type Float = v: Value | IsNumeric(v) witness NaN

  /** The values of the exponential. */
  type Positive = x: real | x > 0.0 witness 1.0

  /** The only facts about log1p that the model relies on. */
  ghost predicate Lawful(env: Env) {
    && env.log1p(0.0) == 0.0
    && (forall x :: x >= 0.0 ==> env.log1p(x) >= 0.0)
  }

  /** numpy's float64 value of pi. */
  const Pi: real := 3.141592653589793

  // ---------------------------------------------------------------------
  // Ordering used by sort_values: numbers (with -inf first and +inf last),
  // then timestamps, then text, and missing values after everything
  // (na_position="last").
  // ---------------------------------------------------------------------

  function Rank(v: Value): nat {
    match v
    case Inf(p) => if p then 2 else 0
    case Num(_) => 1
    case Stamp(_) => 3
    case Str(_) => 4
    case NaN => 5
  }

  /** Python's ordering of strings: lexicographic by code point. */
  predicate StrLe(a: string, b: string) {
    |a| == 0 || (|b| > 0 && (a[0] < b[0] || (a[0] == b[0] && StrLe(a[1..], b[1..]))))
  }

  predicate ValueLe(a: Value, b: Value) {
    if Rank(a) != Rank(b) then Rank(a) < Rank(b)
    else if a.Num? && b.Num? then a.x <= b.x
    else if a.Stamp? && b.Stamp? then a.t <= b.t
    else if a.Str? && b.Str? then StrLe(a.s, b.s)
    else true
  }

  lemma {:induction false} StrLeTotal(a: string, b: string)
    ensures StrLe(a, b) || StrLe(b, a)
  {
    if |a| > 0 && |b| > 0 && a[0] == b[0] {
      StrLeTotal(a[1..], b[1..]);
    }
  }

  lemma {:induction false} StrLeAntisymmetric(a: string, b: string)
    requires StrLe(a, b) && StrLe(b, a)
    ensures a == b
  {
    if |a| > 0 && |b| > 0 {
      StrLeAntisymmetric(a[1..], b[1..]);
      assert a == [a[0]] + a[1..] && b == [b[0]] + b[1..];
    }
  }

  lemma {:induction false} StrLeTransitive(a: string, b: string, c: string)
    requires StrLe(a, b) && StrLe(b, c)
    ensures StrLe(a, c)
  {
    if |a| > 0 && |b| > 0 && |c| > 0 && a[0] == b[0] == c[0] {
      StrLeTransitive(a[1..], b[1..], c[1..]);
    }
  }

  lemma ValueLeTotal(a: Value, b: Value)
    ensures ValueLe(a, b) || ValueLe(b, a)
  {
    if a.Str? && b.Str? { StrLeTotal(a.s, b.s); }
  }

  lemma ValueLeAntisymmetric(a: Value, b: Value)
    requires ValueLe(a, b) && ValueLe(b, a)
    ensures a == b
  {
    if a.Str? && b.Str? { StrLeAntisymmetric(a.s, b.s); }
  }

  lemma ValueLeTransitive(a: Value, b: Value, c: Value)
    requires ValueLe(a, b) && ValueLe(b, c)
    ensures ValueLe(a, c)
  {
    if a.Str? && b.Str? && c.Str? { StrLeTransitive(a.s, b.s, c.s); }
  }
}

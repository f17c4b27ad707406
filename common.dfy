/** Shared wrappers: optional values and the error outcomes of the pipeline's stages. */
module Common {

  datatype Option<+T> = None | Some(value: T)

  /** Why a stage raised instead of returning a frame. */
  datatype Error =
    | MissingColumn(name: string)     // KeyError on a column the stage reads
    | TypeError(column: string)       // a numeric ufunc met a text or timestamp cell
    | CastError(column: string)       // astype(float) met a cell it cannot convert
    | ScoringError                    // model loading or predict_proba raised

  datatype Result<+T> = Ok(value: T) | Err(error: Error)

  /** Decimal digits of a natural number, as Python's str(int) writes them. */
  function NatToString(n: nat): (s: string)
    ensures |s| >= 1
    decreases n
  {
    if n < 10 then [Digit(n)] else NatToString(n / 10) + [Digit(n % 10)]
  }

  function Digit(d: nat): char
    requires d < 10
  {
    (48 + d) as char
  }

  lemma {:induction false} NatToStringInjective(n: nat, m: nat)
    requires NatToString(n) == NatToString(m)
    ensures n == m
    decreases n
  {
    if n < 10 && m < 10 {
      assert NatToString(n)[0] == Digit(n);
    } else if n >= 10 && m >= 10 {
      var a, b := NatToString(n), NatToString(m);
      assert a[|a| - 1] == Digit(n % 10) && b[|b| - 1] == Digit(m % 10);
      assert a[..|a| - 1] == NatToString(n / 10);
      assert b[..|b| - 1] == NatToString(m / 10);
      NatToStringInjective(n / 10, m / 10);
    }
  }

  /** Python's `s in c` on strings. */
  predicate Contains(c: string, s: string) {
    exists i | 0 <= i <= |c| - |s| :: OccursAt(c, s, i)
  }

  predicate OccursAt(c: string, s: string, i: int)
    requires 0 <= i <= |c| - |s|
  {
    c[i..i + |s|] == s
  }

  /** Python's `c.startswith(p)`. */
  predicate StartsWith(c: string, p: string) {
    |p| <= |c| && c[..|p|] == p
  }

  predicate Distinct<T(==)>(s: seq<T>) {
    forall i, j :: 0 <= i < j < |s| ==> s[i] != s[j]
  }
}

/**
 * A pandas DataFrame as a value: an ordered list of distinct column names,
 * the cells of each column, and the common number of rows. Every pipeline
 * stage starts from `df.copy()`, so a frame is never shared and value
 * semantics is exact.
 */
module Frames {
  import opened Common
  import opened Values

  datatype Frame = Frame(cols: seq<string>, data: map<string, seq<Value>>, height: nat)

  ghost predicate Valid(f: Frame) {
    && Distinct(f.cols)
    && (forall n :: n in f.cols <==> n in f.data)
    && (forall n :: n in f.data ==> |f.data[n]| == f.height)
  }

  /** pandas' `df.empty`: no rows or no columns. */
  predicate Empty(f: Frame) {
    f.height == 0 || |f.cols| == 0
  }

  /** A column of n copies of v. */
  function Fill(v: Value, n: nat): (s: seq<Value>)
    ensures |s| == n && forall i :: 0 <= i < n ==> s[i] == v
  {
    seq(n, _ => v)
  }

  function MapCells(s: seq<Value>, fn: Value -> Value): (r: seq<Value>)
    ensures |r| == |s| && forall i :: 0 <= i < |s| ==> r[i] == fn(s[i])
  {
    seq(|s|, i requires 0 <= i < |s| => fn(s[i]))
  }

  /** `df[n] = cells`: replaces a present column in place, appends a new one at the end. */
  function Assign(f: Frame, n: string, cells: seq<Value>): (r: Frame)
    requires Valid(f) && |cells| == f.height
    ensures Valid(r) && r.height == f.height
  {
    if n in f.data then f.(data := f.data[n := cells])
    else Frame(f.cols + [n], f.data[n := cells], f.height)
  }

  /** The names of `cols` outside `out`, in order. */
  function Filter(cols: seq<string>, out: set<string>): (r: seq<string>)
    ensures forall n :: n in r <==> n in cols && n !in out
    ensures Distinct(cols) ==> Distinct(r)
  {
    if cols == [] then []
    else (if cols[0] in out then [] else [cols[0]]) + Filter(cols[1..], out)
  }

  /** `df.drop(columns=...)` restricted to the names that are present. */
  function Drop(f: Frame, out: set<string>): (r: Frame)
    requires Valid(f)
    ensures Valid(r) && r.height == f.height
  {
    Frame(Filter(f.cols, out), f.data - out, f.height)
  }

  /** The first occurrence of every name, in order. */
  function Dedupe(s: seq<string>): (r: seq<string>)
    ensures Distinct(r) && forall n :: n in r <==> n in s
  {
    if s == [] then []
    else
      var d := Dedupe(s[..|s| - 1]);
      assert forall n :: n in s <==> n in s[..|s| - 1] || n == s[|s| - 1];
      if s[|s| - 1] in d then d else d + [s[|s| - 1]]
  }

  /** `df[names]` for distinct present names. */
  function Select(f: Frame, names: seq<string>): (r: Frame)
    requires Valid(f) && Distinct(names) && forall n :: n in names ==> n in f.data
    ensures Valid(r) && r.height == f.height
  {
    Frame(names, map n | n in names :: f.data[n], f.height)
  }

  function PermuteCells(s: seq<Value>, p: seq<nat>): (r: seq<Value>)
    requires forall i :: 0 <= i < |p| ==> p[i] < |s|
    ensures |r| == |p| && forall i :: 0 <= i < |p| ==> r[i] == s[p[i]]
  {
    seq(|p|, i requires 0 <= i < |p| => s[p[i]])
  }

  /** The frame whose k-th row is row p[k] of f (also `iloc[[i]]` for p = [i]). */
  function Rows(f: Frame, p: seq<nat>): (r: Frame)
    requires Valid(f) && forall i :: 0 <= i < |p| ==> p[i] < f.height
    ensures Valid(r) && r.height == |p| && r.cols == f.cols
    ensures forall n :: n in f.data ==> r.data[n] == PermuteCells(f.data[n], p)
  {
    Frame(f.cols, map n | n in f.data :: PermuteCells(f.data[n], p), |p|)
  }

  /** `df.iloc[[i]]`: the single-row frame of row i. */
  function Row(f: Frame, i: nat): (r: Frame)
    requires Valid(f) && i < f.height
    ensures Valid(r) && r.height == 1 && r.cols == f.cols
    ensures forall n :: n in f.data ==> r.data[n] == [f.data[n][i]]
  {
    Rows(f, [i])
  }

  /** The same operation applied to every cell of every column. */
  function MapFrame(f: Frame, fn: Value -> Value): (r: Frame)
    requires Valid(f)
    ensures Valid(r) && r.height == f.height && r.cols == f.cols
    ensures forall n :: n in f.data ==> r.data[n] == MapCells(f.data[n], fn)
  {
    Frame(f.cols, map n | n in f.data :: MapCells(f.data[n], fn), f.height)
  }

  /**
   * `pd.concat([a, b], ignore_index=True)`: the rows of a then the rows of b;
   * the columns of a then the columns only b has; absent cells are NaN.
   */
  function Concat(a: Frame, b: Frame): (r: Frame)
    requires Valid(a) && Valid(b)
    ensures Valid(r) && r.height == a.height + b.height
    ensures forall n :: n in r.data <==> n in a.data || n in b.data
  {
    var extra := Filter(b.cols, a.data.Keys);
    var cols := a.cols + extra;
    assert Distinct(cols) by {
      forall i, j | 0 <= i < j < |cols| ensures cols[i] != cols[j] {
        if j >= |a.cols| && i < |a.cols| {
          assert cols[j] in extra && cols[i] in a.data;
        }
      }
    }
    Frame(cols,
          map n | n in a.data.Keys + b.data.Keys ::
            (if n in a.data then a.data[n] else Fill(NaN, a.height))
            + (if n in b.data then b.data[n] else Fill(NaN, b.height)),
          a.height + b.height)
  }
}

/**
 * `sort_values` as a stable permutation of row indices. A row's sort key is a
 * list of parts compared lexicographically; an ascending part uses the cell
 * order of module Values and a descending part reverses it while keeping
 * missing values last.
 */
module Sorting {
  import opened Values

  datatype KeyPart = Asc(v: Value) | Desc(v: Value)

  type Key = seq<KeyPart>

  predicate PartLe(a: KeyPart, b: KeyPart) {
    match (a, b)
    case (Asc(x), Asc(y)) => ValueLe(x, y)
    case (Desc(x), Desc(y)) => if x.NaN? || y.NaN? then ValueLe(x, y) else ValueLe(y, x)
    case (Asc(_), Desc(_)) => true
    case (Desc(_), Asc(_)) => false
  }

  predicate KeyLe(a: Key, b: Key) {
    |a| == 0 || (|b| > 0 && if a[0] == b[0] then KeyLe(a[1..], b[1..]) else PartLe(a[0], b[0]))
  }

  lemma PartLeTotal(a: KeyPart, b: KeyPart)
    ensures PartLe(a, b) || PartLe(b, a)
  {
    ValueLeTotal(a.v, b.v);
  }

  lemma PartLeAntisymmetric(a: KeyPart, b: KeyPart)
    requires PartLe(a, b) && PartLe(b, a)
    ensures a == b
  {
    ValueLeAntisymmetric(a.v, b.v);
  }

  lemma PartLeTransitive(a: KeyPart, b: KeyPart, c: KeyPart)
    requires PartLe(a, b) && PartLe(b, c)
    ensures PartLe(a, c)
  {
    if a.Asc? && b.Asc? && c.Asc? {
      ValueLeTransitive(a.v, b.v, c.v);
    } else if a.Desc? && b.Desc? && c.Desc? && !a.v.NaN? && !b.v.NaN? && !c.v.NaN? {
      ValueLeTransitive(c.v, b.v, a.v);
    }
  }

  lemma {:induction false} KeyLeTotal(a: Key, b: Key)
    ensures KeyLe(a, b) || KeyLe(b, a)
  {
    if |a| > 0 && |b| > 0 {
      if a[0] == b[0] { KeyLeTotal(a[1..], b[1..]); } else { PartLeTotal(a[0], b[0]); }
    }
  }

  lemma {:induction false} KeyLeTransitive(a: Key, b: Key, c: Key)
    requires KeyLe(a, b) && KeyLe(b, c)
    ensures KeyLe(a, c)
  {
    if |a| > 0 && |b| > 0 && |c| > 0 {
      if a[0] == b[0] && b[0] == c[0] {
        KeyLeTransitive(a[1..], b[1..], c[1..]);
      } else if a[0] != b[0] && b[0] != c[0] {
        PartLeTransitive(a[0], b[0], c[0]);
        if a[0] == c[0] { PartLeAntisymmetric(a[0], b[0]); }
      }
    }
  }

  /** The indices 0, 1, ..., n - 1. */
  function Iota(n: nat): (r: seq<nat>)
    ensures |r| == n && forall i :: 0 <= i < n ==> r[i] == i
  {
    seq(n, i => i)
  }

  lemma IotaSnoc(n: nat)
    ensures Iota(n + 1) == Iota(n) + [n]
    ensures multiset(Iota(n + 1)) == multiset(Iota(n)) + multiset{n}
  {
    assert Iota(n + 1) == Iota(n) + [n];
  }

  predicate InRange(p: seq<nat>, n: nat) {
    forall i :: 0 <= i < |p| ==> p[i] < n
  }

  /** p lists every row index below n exactly once. */
  ghost predicate IsPermutation(p: seq<nat>, n: nat) {
    multiset(p) == multiset(Iota(n))
  }

  /** Rows listed by p come in non-decreasing key order. */
  ghost predicate SortedBy(keys: seq<Key>, p: seq<nat>)
    requires InRange(p, |keys|)
  {
    forall i, j :: 0 <= i < j < |p| ==> KeyLe(keys[p[i]], keys[p[j]])
  }

  /** Inserts x after every element whose key is not greater (so equal keys keep their order). */
  function Insert(keys: seq<Key>, s: seq<nat>, x: nat): (r: seq<nat>)
    requires InRange(s, |keys|) && x < |keys|
    ensures InRange(r, |keys|) && |r| == |s| + 1
    decreases |s|
  {
    if |s| == 0 then [x]
    else
      if KeyLe(keys[s[|s| - 1]], keys[x]) then s + [x]
      else Insert(keys, s[..|s| - 1], x) + [s[|s| - 1]]
  }

  /** The insertion adds x to the elements and loses none. */
  lemma {:induction false} InsertElements(keys: seq<Key>, s: seq<nat>, x: nat)
    requires InRange(s, |keys|) && x < |keys|
    ensures multiset(Insert(keys, s, x)) == multiset(s) + multiset{x}
    decreases |s|
  {
    if |s| > 0 {
      var init, last := s[..|s| - 1], s[|s| - 1];
      assert s == init + [last];
      if !KeyLe(keys[last], keys[x]) {
        InsertElements(keys, init, x);
      }
    }
  }

  function SortPrefix(keys: seq<Key>, n: nat): (r: seq<nat>)
    requires n <= |keys|
    ensures InRange(r, |keys|) && |r| == n
  {
    if n == 0 then []
    else
      Insert(keys, SortPrefix(keys, n - 1), n - 1)
  }

  /** The row order of a stable sort by the given keys. */
  function SortPerm(keys: seq<Key>): (r: seq<nat>)
    ensures InRange(r, |keys|) && |r| == |keys|
  {
    SortPrefix(keys, |keys|)
  }

  lemma {:induction false} SortPrefixPermutation(keys: seq<Key>, n: nat)
    requires n <= |keys|
    ensures IsPermutation(SortPrefix(keys, n), n)
  {
    if n > 0 {
      var s, x: nat := SortPrefix(keys, n - 1), n - 1;
      SortPrefixPermutation(keys, x);
      InsertElements(keys, s, x);
      IotaSnoc(x);
      assert multiset(SortPrefix(keys, n)) == multiset(s) + multiset{x};
    }
  }

  lemma {:induction false} InsertSorted(keys: seq<Key>, s: seq<nat>, x: nat)
    requires InRange(s, |keys|) && x < |keys| && SortedBy(keys, s)
    ensures SortedBy(keys, Insert(keys, s, x))
    decreases |s|
  {
    if |s| > 0 {
      var last := s[|s| - 1];
      if KeyLe(keys[last], keys[x]) {
        var r := s + [x];
        forall i, j | 0 <= i < j < |r| ensures KeyLe(keys[r[i]], keys[r[j]]) {
          if j == |s| && i < |s| - 1 { KeyLeTransitive(keys[s[i]], keys[last], keys[x]); }
        }
      } else {
        var init := s[..|s| - 1];
        KeyLeTotal(keys[last], keys[x]);
        InsertSorted(keys, init, x);
        InsertElements(keys, init, x);
        var m := Insert(keys, init, x);
        var r := m + [last];
        forall i, j | 0 <= i < j < |r| ensures KeyLe(keys[r[i]], keys[r[j]]) {
          if j == |m| {
            assert r[i] in multiset(m);
            if r[i] != x {
              assert r[i] in multiset(init);
              var k :| 0 <= k < |init| && init[k] == r[i];
              assert s[k] == r[i];
            }
          }
        }
      }
    }
  }

  lemma {:induction false} SortPrefixSorted(keys: seq<Key>, n: nat)
    requires n <= |keys|
    ensures SortedBy(keys, SortPrefix(keys, n))
  {
    if n > 0 {
      SortPrefixSorted(keys, n - 1);
      InsertSorted(keys, SortPrefix(keys, n - 1), n - 1);
    }
  }

  /** sort_values: the result lists every row once, in non-decreasing key order. */
  lemma SortPermSorted(keys: seq<Key>)
    ensures IsPermutation(SortPerm(keys), |keys|)
    ensures SortedBy(keys, SortPerm(keys))
  {
    SortPrefixPermutation(keys, |keys|);
    SortPrefixSorted(keys, |keys|);
  }

  /** Keys already in order are left in place: the sort is the identity. */
  lemma {:induction false} SortPermOfSorted(keys: seq<Key>, n: nat)
    requires n <= |keys|
    requires forall i, j :: 0 <= i < j < |keys| ==> KeyLe(keys[i], keys[j])
    ensures SortPrefix(keys, n) == Iota(n)
  {
    if n > 0 {
      SortPermOfSorted(keys, n - 1);
      IotaSnoc(n - 1);
      var s := SortPrefix(keys, n - 1);
      if n > 1 { assert s[|s| - 1] == n - 2; }
      assert SortPrefix(keys, n) == Insert(keys, s, n - 1);
    }
  }

  /** A permutation of 0..n-1 lists indices below n. */
  lemma PermutationInRange(p: seq<nat>, n: nat)
    requires IsPermutation(p, n)
    ensures InRange(p, n)
  {
    forall j | 0 <= j < |p| ensures p[j] < n {
      assert p[j] in multiset(Iota(n));
      var k :| 0 <= k < n && Iota(n)[k] == p[j];
    }
  }

  /**
   * A last row whose key no other row exceeds stays last (the sort is
   * stable), and every other position holds one of the earlier rows.
   */
  lemma SortPermKeepsLast(keys: seq<Key>)
    requires |keys| > 0
    requires forall j :: 0 <= j < |keys| - 1 ==> KeyLe(keys[j], keys[|keys| - 1])
    ensures SortPerm(keys)[|keys| - 1] == |keys| - 1
    ensures forall j :: 0 <= j < |keys| - 1 ==> SortPerm(keys)[j] < |keys| - 1
  {
    var n := |keys|;
    var s := SortPrefix(keys, n - 1);
    SortPrefixPermutation(keys, n - 1);
    PermutationInRange(s, n - 1);
    assert SortPerm(keys) == Insert(keys, s, n - 1);
    if |s| > 0 {
      assert KeyLe(keys[s[|s| - 1]], keys[n - 1]);
      assert Insert(keys, s, n - 1) == s + [n - 1];
    }
  }
}

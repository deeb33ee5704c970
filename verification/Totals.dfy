/** Finite tables of amounts and the SQL `SUM` over them. */
module Totals {

  /** The amount recorded for `k`, zero when there is no row. */
  function Get<K>(m: map<K, int>, k: K): int {
    if k in m then m[k] else 0
  }

  /** `SUM` over all rows. */
  ghost function Total<K>(m: map<K, int>): int
    decreases |m|
  {
    if m == map[] then 0 else
      var k :| k in m;
      assert (m - {k}).Keys == m.Keys - {k};
      m[k] + Total(m - {k})
  }

  /** Any row may be taken out first. */
  lemma {:induction false} TotalSplit<K>(m: map<K, int>, k: K)
    requires k in m
    ensures Total(m) == m[k] + Total(m - {k})
    decreases |m|
  {
    var first :| first in m && Total(m) == m[first] + Total(m - {first});
    if first != k {
      assert (m - {first}).Keys == m.Keys - {first};
      assert (m - {k}).Keys == m.Keys - {k};
      TotalSplit(m - {first}, k);
      TotalSplit(m - {k}, first);
      assert m - {first} - {k} == m - {k} - {first};
    }
  }

  /** Adding to one row adds to the sum, whether or not the row existed. */
  lemma TotalAdd<K>(m: map<K, int>, k: K, x: int)
    ensures Total(m[k := Get(m, k) + x]) == Total(m) + x
  {
    var m' := m[k := Get(m, k) + x];
    TotalSplit(m', k);
    if k in m {
      TotalSplit(m, k);
      assert m' - {k} == m - {k};
    } else {
      assert m' - {k} == m;
    }
  }

  lemma {:induction false} TotalNonNegative<K>(m: map<K, int>)
    requires forall k :: k in m ==> m[k] >= 0
    ensures Total(m) >= 0
    decreases |m|
  {
    if m != map[] {
      var k :| k in m;
      TotalSplit(m, k);
      assert (m - {k}).Keys == m.Keys - {k};
      TotalNonNegative(m - {k});
    }
  }

  /** A table with fewer and smaller rows has the smaller sum. */
  lemma {:induction false} TotalBelow<K>(m: map<K, int>, n: map<K, int>)
    requires forall k :: k in n ==> n[k] >= 0
    requires forall k :: k in m ==> k in n && m[k] <= n[k]
    ensures Total(m) <= Total(n)
    decreases |m|
  {
    if m == map[] {
      TotalNonNegative(n);
    } else {
      var k :| k in m;
      TotalSplit(m, k);
      TotalSplit(n, k);
      assert (m - {k}).Keys == m.Keys - {k};
      TotalBelow(m - {k}, n - {k});
    }
  }

  function Times<K>(m: map<K, int>, a: int): map<K, int> {
    map k | k in m :: m[k] * a
  }

  lemma Distribute(x: int, y: int, a: int)
    ensures (x + y) * a == x * a + y * a
  {}

  lemma {:induction false} TotalTimes<K>(m: map<K, int>, a: int)
    ensures Total(Times(m, a)) == Total(m) * a
    decreases |m|
  {
    if m == map[] {
      assert Times(m, a) == map[];
    } else {
      var k :| k in m;
      var rest := m - {k};
      TotalSplit(m, k);
      TotalSplit(Times(m, a), k);
      assert rest.Keys == m.Keys - {k};
      assert Times(m, a) - {k} == Times(rest, a);
      TotalTimes(rest, a);
      Distribute(m[k], Total(rest), a);
    }
  }

  /** Rows compared at the scales `a` and `b`, sums compared at the same scales. */
  lemma TotalScaled<K>(m: map<K, int>, n: map<K, int>, a: int, b: int)
    requires forall k :: k in n ==> n[k] * b >= 0
    requires forall k :: k in m ==> k in n && m[k] * a <= n[k] * b
    ensures Total(m) * a <= Total(n) * b
  {
    TotalTimes(m, a);
    TotalTimes(n, b);
    TotalBelow(Times(m, a), Times(n, b));
  }

  /** A table that only grew, by positive rows, and whose sum did not grow did not change. */
  lemma TotalRigid<K>(m: map<K, int>, n: map<K, int>)
    requires forall k :: k in n ==> n[k] > 0
    requires forall k :: k in m ==> k in n && m[k] <= n[k]
    requires Total(n) <= Total(m)
    ensures m == n
  {
    forall k | k in n
      ensures k in m && m[k] == n[k]
    {
      TotalSplit(n, k);
      if k in m {
        TotalSplit(m, k);
        TotalBelow(m - {k}, n - {k});
      } else {
        TotalBelow(m, n - {k});
      }
    }
  }

  /** Setting aside a group of equal rows. */
  lemma {:induction false} TotalSetAside<K>(m: map<K, int>, part: set<K>, c: int)
    requires forall k :: k in part ==> k in m && m[k] == c
    ensures Total(m) == Total(m - part) + |part| * c
    decreases |part|
  {
    if part == {} {
      assert m - part == m;
    } else {
      var k :| k in part;
      TotalSplit(m, k);
      var rest := part - {k};
      assert m - {k} - rest == m - part;
      TotalSetAside(m - {k}, rest, c);
      assert (|rest| + 1) * c == |rest| * c + c;
    }
  }

  // ---------------------------------------------------------------- sums of something else

  /** The sum over all rows of what `f` makes of them. */
  ghost function TotalOf<K>(m: map<K, int>, f: int -> real): real
    decreases |m|
  {
    if m == map[] then 0.0 else
      var k :| k in m;
      assert (m - {k}).Keys == m.Keys - {k};
      f(m[k]) + TotalOf(m - {k}, f)
  }

  predicate Adds(f: int -> real, x: int, y: int) {
    f(x + y) == f(x) + f(y)
  }

  /** For an additive `f` it is `f` of the sum. */
  lemma {:induction false} TotalOfAdds<K>(m: map<K, int>, f: int -> real)
    requires forall x, y :: Adds(f, x, y)
    ensures TotalOf(m, f) == f(Total(m))
    decreases |m|
  {
    if m == map[] {
      assert Adds(f, 0, 0);
    } else {
      var k :| k in m && TotalOf(m, f) == f(m[k]) + TotalOf(m - {k}, f);
      TotalSplit(m, k);
      assert (m - {k}).Keys == m.Keys - {k};
      TotalOfAdds(m - {k}, f);
      assert Adds(f, m[k], Total(m - {k}));
    }
  }
}

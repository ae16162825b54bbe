/** Finite sums over the values of a map: the totals that the storage maps must agree on. */
module Sums {

  ghost function Sum<K>(m: map<K, int>): int {
    if m == map[] then 0 else
      var k :| k in m;
      m[k] + Sum(m - {k})
  }

  lemma SumEmpty<K>(m: map<K, int>)
    requires m.Keys == {}
    ensures m == map[] && Sum(m) == 0
  {
  }

  lemma {:induction false} SumRemove<K>(m: map<K, int>, k: K)
    requires k in m
    ensures Sum(m) == m[k] + Sum(m - {k})
    decreases |m|
  {
    var j :| j in m && Sum(m) == m[j] + Sum(m - {j});
    if j != k {
      SumRemove(m - {j}, k);
      SumRemove(m - {k}, j);
      assert m - {j} - {k} == m - {k} - {j};
    }
  }

  ghost function At<K>(m: map<K, int>, k: K): int {
    if k in m then m[k] else 0
  }

  lemma SumUpdate<K>(m: map<K, int>, k: K, v: int)
    ensures Sum(m[k := v]) == Sum(m) - At(m, k) + v
  {
    SumRemove(m[k := v], k);
    if k in m {
      SumRemove(m, k);
      assert m[k := v] - {k} == m - {k};
    } else {
      assert m[k := v] - {k} == m;
    }
  }

  lemma SumDrop<K>(m: map<K, int>, k: K)
    ensures Sum(m - {k}) == Sum(m) - At(m, k)
  {
    if k in m {
      SumRemove(m, k);
    } else {
      assert m - {k} == m;
    }
  }

  lemma {:induction false} SumNonNegative<K>(m: map<K, int>)
    requires forall k :: k in m ==> m[k] >= 0
    ensures Sum(m) >= 0
    decreases |m|
  {
    if m != map[] {
      var k :| k in m;
      SumRemove(m, k);
      SumNonNegative(m - {k});
    }
  }

  lemma {:induction false} SumMono<K>(m: map<K, int>, m': map<K, int>)
    requires m.Keys == m'.Keys
    requires forall k :: k in m ==> m[k] <= m'[k]
    ensures Sum(m) <= Sum(m')
    decreases |m|
  {
    if m == map[] {
      assert m'.Keys == {};
    } else {
      var k :| k in m;
      SumRemove(m, k);
      SumRemove(m', k);
      SumMono(m - {k}, m' - {k});
    }
  }

  /** No entry of a non-negative map exceeds the sum. */
  lemma EntryAtMostSum<K>(m: map<K, int>, k: K)
    requires forall k :: k in m ==> m[k] >= 0
    ensures 0 <= At(m, k) <= Sum(m)
  {
    SumNonNegative(m);
    if k in m {
      SumRemove(m, k);
      SumNonNegative(m - {k});
    }
  }

  lemma {:induction false} SumZero<K>(m: map<K, int>)
    requires forall k :: k in m ==> m[k] == 0
    ensures Sum(m) == 0
    decreases |m|
  {
    if m != map[] {
      var k :| k in m;
      SumRemove(m, k);
      SumZero(m - {k});
    }
  }

  lemma {:induction false} SumAdd<K>(m: map<K, int>, a: map<K, int>, b: map<K, int>)
    requires m.Keys == a.Keys == b.Keys
    requires forall k :: k in m ==> m[k] == a[k] + b[k]
    ensures Sum(m) == Sum(a) + Sum(b)
    decreases |m|
  {
    if m == map[] {
      assert a.Keys == {} && b.Keys == {};
    } else {
      var k :| k in m;
      SumRemove(m, k);
      SumRemove(a, k);
      SumRemove(b, k);
      SumAdd(m - {k}, a - {k}, b - {k});
    }
  }

  function Scaled(c: int, x: int): int { c * x }

  lemma {:induction false} SumScale<K>(m: map<K, int>, b: map<K, int>, c: int)
    requires m.Keys == b.Keys
    requires forall k :: k in m ==> m[k] == Scaled(c, b[k])
    ensures Sum(m) == Scaled(c, Sum(b))
    decreases |m|
  {
    hide Scaled;
    if m == map[] {
      ScaledZero(c);
      assert b.Keys == {};
    } else {
      var k :| k in m;
      SumRemove(m, k);
      SumRemove(b, k);
      SumScale(m - {k}, b - {k}, c);
      ScaledAdds(c, b[k], Sum(b - {k}));
    }
  }

  lemma ScaledZero(c: int)
    ensures Scaled(c, 0) == 0
  {
  }

  lemma ScaledAdds(c: int, x: int, y: int)
    ensures Scaled(c, x + y) == Scaled(c, x) + Scaled(c, y)
  {
  }
}

/** Sums over finite maps. */
module Sums {
  ghost function SumOf(m: map<string, real>): real
  {
    if m == map[] then 0.0
    else
      var k :| k in m;
      m[k] + SumOf(m - {k})
  }

  /** The order in which a map is summed does not matter. */
  lemma {:induction false} SumRemove(m: map<string, real>, k: string)
    requires k in m
    ensures SumOf(m) == m[k] + SumOf(m - {k})
    decreases |m|
  {
    var j :| j in m && SumOf(m) == m[j] + SumOf(m - {j});
    if j != k {
      SumRemove(m - {j}, k);
      SumRemove(m - {k}, j);
      assert m - {j} - {k} == m - {k} - {j};
    }
  }

  function At(m: map<string, real>, k: string): real {
    if k in m then m[k] else 0.0
  }

  lemma SumUpdate(m: map<string, real>, k: string, v: real)
    ensures SumOf(m[k := v]) == SumOf(m) - At(m, k) + v
  {
    var m' := m[k := v];
    SumRemove(m', k);
    assert m' - {k} == m - {k};
    if k in m { SumRemove(m, k); } else { assert m - {k} == m; }
  }

  lemma {:induction false} SumNonNegative(m: map<string, real>)
    requires forall k :: k in m ==> m[k] >= 0.0
    ensures SumOf(m) >= 0.0
    ensures forall k :: k in m ==> m[k] <= SumOf(m)
    decreases |m|
  {
    forall k | k in m
      ensures 0.0 <= m[k] <= SumOf(m)
    {
      SumRemove(m, k);
      SumNonNegative(m - {k});
    }
    if m != map[] { var k :| k in m; assert 0.0 <= m[k] <= SumOf(m); }
  }

  lemma {:induction false} SumMonotone(m: map<string, real>, m': map<string, real>)
    requires m.Keys == m'.Keys && forall k :: k in m ==> m[k] <= m'[k]
    ensures SumOf(m) <= SumOf(m')
    decreases |m|
  {
    if m != map[] {
      var k :| k in m;
      SumRemove(m, k);
      SumRemove(m', k);
      SumMonotone(m - {k}, m' - {k});
    } else {
      assert m' == map[];
    }
  }
}

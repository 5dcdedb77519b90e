/** Sums over finite maps. */
module Sums {

  ghost function Pick<K>(m: map<K, int>): (k: K)
    requires m != map[]
    ensures k in m
  {
    var k :| k in m;
    k
  }

  ghost function Total<K>(m: map<K, int>): (t: int)
    decreases |m|
  {
    if m == map[] then 0
    else
      var k := Pick(m);
      m[k] + Total(m - {k})
  }

  /** The order in which keys are picked does not matter. */
  lemma {:induction false} TotalRemove<K>(m: map<K, int>, k: K)
    requires k in m
    ensures Total(m) == m[k] + Total(m - {k})
    decreases |m|
  {
    hide Pick;
    var j := Pick(m);
    if j != k {
      TotalRemove(m - {j}, k);
      TotalRemove(m - {k}, j);
      assert m - {j} - {k} == m - {k} - {j};
    }
  }

  lemma TotalInsert<K>(m: map<K, int>, k: K, v: int)
    requires k !in m
    ensures Total(m[k := v]) == Total(m) + v
  {
    hide Total;
    TotalRemove(m[k := v], k);
    assert m[k := v] - {k} == m;
  }

  lemma TotalUpdate<K>(m: map<K, int>, k: K, v: int)
    requires k in m
    ensures Total(m[k := v]) == Total(m) - m[k] + v
  {
    hide Total;
    TotalRemove(m[k := v], k);
    TotalRemove(m, k);
    assert m[k := v] - {k} == m - {k};
  }

  predicate NonNegative<K>(m: map<K, int>) { forall k | k in m :: m[k] >= 0 }

  lemma {:induction false} TotalNonNegative<K>(m: map<K, int>)
    requires NonNegative(m)
    ensures Total(m) >= 0
    decreases |m|
  {
    hide Pick;
    if m != map[] {
      TotalNonNegative(m - {Pick(m)});
    }
  }

  lemma TotalAtLeast<K>(m: map<K, int>, k: K)
    requires k in m && NonNegative(m)
    ensures m[k] <= Total(m)
  {
    hide Total;
    TotalRemove(m, k);
    TotalNonNegative(m - {k});
  }
}

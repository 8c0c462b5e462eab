/** Sums over the values of a finite map, independent of any order. */
module MapSums {

  ghost function SumMap<K, V>(m: map<K, V>, f: V -> real): real
    decreases |m|
  {
    if m == map[] then 0.0
    else
      var k :| k in m;
      f(m[k]) + SumMap(m - {k}, f)
  }

  /** Any key may be taken out first. */
  lemma {:induction false} SumMapTakes<K, V>(m: map<K, V>, k: K, f: V -> real)
    requires k in m
    ensures SumMap(m, f) == f(m[k]) + SumMap(m - {k}, f)
    decreases |m|
  {
    var j :| j in m && SumMap(m, f) == f(m[j]) + SumMap(m - {j}, f);
    if j != k {
      SumMapTakes(m - {j}, k, f);
      SumMapTakes(m - {k}, j, f);
      assert m - {j} - {k} == m - {k} - {j};
    }
  }

  lemma {:induction false} SumMapPuts<K, V>(m: map<K, V>, k: K, v: V, f: V -> real)
    ensures SumMap(m[k := v], f) == SumMap(m, f) + f(v) - if k in m then f(m[k]) else 0.0
  {
    SumMapTakes(m[k := v], k, f);
    assert m[k := v] - {k} == m - {k};
    if k in m {
      SumMapTakes(m, k, f);
    } else {
      assert m - {k} == m;
    }
  }

  lemma {:induction false} SumMapNonNegative<K, V>(m: map<K, V>, f: V -> real)
    requires forall k :: k in m ==> f(m[k]) >= 0.0
    ensures SumMap(m, f) >= 0.0
    decreases |m|
  {
    if m != map[] {
      var k :| k in m;
      SumMapTakes(m, k, f);
      SumMapNonNegative(m - {k}, f);
    }
  }

  /** Sums add up value by value. */
  lemma {:induction false} SumMapSplits<K, V>(m: map<K, V>, f: V -> real, g: V -> real, h: V -> real)
    requires forall v :: f(v) == g(v) + h(v)
    ensures SumMap(m, f) == SumMap(m, g) + SumMap(m, h)
    decreases |m|
  {
    if m != map[] {
      var k :| k in m;
      var rest := m - {k};
      SumMapTakes(m, k, f);
      SumMapTakes(m, k, g);
      SumMapTakes(m, k, h);
      SumMapSplits(rest, f, g, h);
    }
  }
}

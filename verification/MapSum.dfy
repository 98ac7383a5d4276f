/** Sums over the rows of a table. */
module MapSum {
  ghost function Total<K, V>(m: map<K, V>, w: V -> int): int
    decreases |m|
  {
    if m == map[] then 0 else
      var k :| k in m;
      w(m[k]) + Total(m - {k}, w)
  }

  lemma {:induction false} TotalWithout<K, V>(m: map<K, V>, w: V -> int, k: K)
    requires k in m
    ensures Total(m, w) == w(m[k]) + Total(m - {k}, w)
    decreases |m|
  {
    var j :| j in m && Total(m, w) == w(m[j]) + Total(m - {j}, w);
    if j != k {
      assert (m - {j}).Keys == m.Keys - {j} && (m - {k}).Keys == m.Keys - {k};
      TotalWithout(m - {j}, w, k);
      TotalWithout(m - {k}, w, j);
      assert m - {j} - {k} == m - {k} - {j};
    }
  }

  lemma TotalPut<K, V>(m: map<K, V>, w: V -> int, k: K, v: V)
    ensures Total(m[k := v], w) == Total(m, w) - (if k in m then w(m[k]) else 0) + w(v)
  {
    TotalWithout(m[k := v], w, k);
    assert m[k := v] - {k} == m - {k};
    if k in m { TotalWithout(m, w, k); } else { assert m - {k} == m; }
  }

  lemma {:induction false} TotalIsNatural<K, V>(m: map<K, V>, w: V -> int)
    requires forall k | k in m :: w(m[k]) >= 0
    ensures Total(m, w) >= 0
    decreases |m|
  {
    if m != map[] {
      var k :| k in m && Total(m, w) == w(m[k]) + Total(m - {k}, w);
      assert (m - {k}).Keys == m.Keys - {k};
      TotalIsNatural(m - {k}, w);
    }
  }
}

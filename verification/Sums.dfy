/** Totals over finite maps: what a reduce over a record's values adds up to, whatever its order. */
module Sums {

  ghost function Total<K>(m: map<K, int>): int
    decreases |m|
  {
    if m == map[] then 0
    else
      var k :| k in m;
      m[k] + Total(m - {k})
  }

  lemma {:induction false} TotalWithout<K>(m: map<K, int>, k: K)
    requires k in m
    ensures Total(m) == m[k] + Total(m - {k})
    decreases |m|
  {
    var j :| j in m && Total(m) == m[j] + Total(m - {j});
    if j != k {
      TotalWithout(m - {j}, k);
      TotalWithout(m - {k}, j);
      assert m - {j} - {k} == m - {k} - {j};
    }
  }

  lemma TotalUpdate<K>(m: map<K, int>, k: K, v: int)
    ensures Total(m[k := v]) == Total(m - {k}) + v
  {
    TotalWithout(m[k := v], k);
    assert m[k := v] - {k} == m - {k};
  }

  lemma TotalOfOne<K>(k: K, v: int)
    ensures Total(map[k := v]) == v
  {
    TotalWithout(map[k := v], k);
    assert map[k := v] - {k} == map[];
  }

  /** Leaving out entries that are not negative lowers the total, unless they are all zero. */
  lemma {:induction false} TotalOfSomeIff<K>(m: map<K, int>, part: map<K, int>)
    requires part.Keys <= m.Keys && (forall k :: k in part ==> part[k] == m[k]) && forall k :: k in m ==> m[k] >= 0
    ensures Total(part) <= Total(m)
    ensures Total(part) == Total(m) <==> forall k :: k in m && k !in part ==> m[k] == 0
    decreases |m|
  {
    if k :| k in m && k !in part {
      TotalWithout(m, k);
      TotalOfSomeIff(m - {k}, part);
    } else {
      assert part.Keys == m.Keys;
      assert part == m;
    }
  }
}

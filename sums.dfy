/** Sums over the values of a finite map: Python's `sum(d.values())`. */
module Sums {

  /** The sum of `m[k]` over the keys `ks`, independent of any iteration order. */
  ghost function SumOver<K>(m: map<K, int>, ks: set<K>): int
    requires ks <= m.Keys
    decreases ks
  {
    if ks == {} then 0
    else
      var k :| k in ks;
      m[k] + SumOver(m, ks - {k})
  }

  /** The sum of all values of `m`. */
  ghost function SumMap<K>(m: map<K, int>): int
  {
    SumOver(m, m.Keys)
  }

  /** Any key may be taken out first: the sum does not depend on the order. */
  lemma {:induction false} SumOverPick<K>(m: map<K, int>, ks: set<K>, k: K)
    requires ks <= m.Keys && k in ks
    ensures SumOver(m, ks) == m[k] + SumOver(m, ks - {k})
    decreases ks
  {
    var j :| j in ks && SumOver(m, ks) == m[j] + SumOver(m, ks - {j});
    if j != k {
      SumOverPick(m, ks - {j}, k);
      SumOverPick(m, ks - {k}, j);
      assert ks - {j} - {k} == ks - {k} - {j};
    }
  }

  /** The sum only reads the values under the keys it sums over. */
  lemma {:induction false} SumOverAgree<K>(m: map<K, int>, m': map<K, int>, ks: set<K>)
    requires ks <= m.Keys && ks <= m'.Keys
    requires forall k :: k in ks ==> m[k] == m'[k]
    ensures SumOver(m, ks) == SumOver(m', ks)
    decreases ks
  {
    if ks != {} {
      var k :| k in ks;
      SumOverPick(m, ks, k);
      SumOverPick(m', ks, k);
      SumOverAgree(m, m', ks - {k});
    }
  }

  /** Taking one key out of a map takes its value out of the sum. */
  lemma SumMapPick<K>(m: map<K, int>, k: K)
    requires k in m
    ensures SumMap(m) == m[k] + SumMap(m - {k})
  {
    SumOverPick(m, m.Keys, k);
    assert (m - {k}).Keys == m.Keys - {k};
    SumOverAgree(m, m - {k}, m.Keys - {k});
  }

  /** Adding `c` under one key (creating it at 0 if absent, as a Counter does)
      adds `c` to the sum. */
  lemma SumMapAdd<K>(m: map<K, int>, k: K, c: int)
    ensures SumMap(m[k := (if k in m then m[k] else 0) + c]) == SumMap(m) + c
  {
    var m' := m[k := (if k in m then m[k] else 0) + c];
    SumMapPick(m', k);
    assert m' - {k} == m - {k};
    if k in m {
      SumMapPick(m, k);
    } else {
      assert m - {k} == m;
    }
  }
}

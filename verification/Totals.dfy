// Sums over the entries of a map.
module Totals {

  ghost function Total<K, V>(m: map<K, V>, w: (K, V) -> int): int
    decreases |m|
  {
    if m == map[] then 0
    else
      var k :| k in m;
      w(k, m[k]) + Total(m - {k}, w)
  }

  // Any entry can be split off.
  lemma {:induction false} TotalWithout<K, V>(m: map<K, V>, k: K, w: (K, V) -> int)
    requires k in m
    ensures Total(m, w) == w(k, m[k]) + Total(m - {k}, w)
    decreases |m|
  {
    var first :| first in m && Total(m, w) == w(first, m[first]) + Total(m - {first}, w);
    if first != k {
      TotalWithout(m - {first}, k, w);
      TotalWithout(m - {k}, first, w);
      assert m - {first} - {k} == m - {k} - {first};
    }
  }

  // What an entry contributes, nothing if it is absent.
  ghost function Part<K, V>(m: map<K, V>, k: K, w: (K, V) -> int): int {
    if k in m then w(k, m[k]) else 0
  }

  lemma TotalUpdate<K, V>(m: map<K, V>, k: K, v: V, w: (K, V) -> int)
    ensures Total(m[k := v], w) == Total(m, w) - Part(m, k, w) + w(k, v)
  {
    TotalWithout(m[k := v], k, w);
    if k in m {
      TotalWithout(m, k, w);
      assert m[k := v] - {k} == m - {k};
    } else {
      assert m[k := v] - {k} == m;
    }
  }

  lemma TotalRemove<K, V>(m: map<K, V>, k: K, w: (K, V) -> int)
    ensures Total(m - {k}, w) == Total(m, w) - Part(m, k, w)
  {
    if k in m {
      TotalWithout(m, k, w);
    } else {
      assert m - {k} == m;
    }
  }

  lemma {:induction false} TotalNonNegative<K, V>(m: map<K, V>, w: (K, V) -> int)
    requires forall k <- m :: w(k, m[k]) >= 0
    ensures Total(m, w) >= 0
    decreases |m|
  {
    if m != map[] {
      var k :| k in m && Total(m, w) == w(k, m[k]) + Total(m - {k}, w);
      TotalNonNegative(m - {k}, w);
    }
  }

  lemma {:induction false} TotalZero<K, V>(m: map<K, V>, w: (K, V) -> int)
    requires forall k <- m :: w(k, m[k]) == 0
    ensures Total(m, w) == 0
    decreases |m|
  {
    if m != map[] {
      var k :| k in m && Total(m, w) == w(k, m[k]) + Total(m - {k}, w);
      TotalZero(m - {k}, w);
    }
  }

  // With non-negative entries no entry exceeds the total.
  lemma PartAtMostTotal<K, V>(m: map<K, V>, k: K, w: (K, V) -> int)
    requires forall j <- m :: w(j, m[j]) >= 0
    ensures Part(m, k, w) <= Total(m, w)
  {
    TotalRemove(m, k, w);
    TotalNonNegative(m - {k}, w);
  }

  // A total is positive only if some entry is.
  lemma {:induction false} PositiveTotalHasEntry<K, V>(m: map<K, V>, w: (K, V) -> int) returns (k: K)
    requires Total(m, w) > 0
    ensures k in m && w(k, m[k]) > 0
    decreases |m|
  {
    k :| k in m && Total(m, w) == w(k, m[k]) + Total(m - {k}, w);
    if w(k, m[k]) <= 0 {
      k := PositiveTotalHasEntry(m - {k}, w);
    }
  }
}

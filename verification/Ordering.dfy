// The order in which priced entries are visited: cheapest first, the older of two equals first.
// Source: libraries/chain/include/graphene/chain/market_object.hpp:142-155, 207-232.
module Ordering {
  import opened Arithmetic
  import opened Prices

  predicate Precedes(p: Price, i: nat, q: Price, j: nat) {
    Less(p, q) || (!Less(q, p) && i < j)
  }

  lemma ShiftFactors(x: nat, y: nat, z: nat)
    ensures x * y * z == x * z * y == z * x * y == y * z * x
  {
  }

  // Fractions compare transitively, strictly if either comparison is strict.
  lemma NotAboveTransitive(p: Price, q: Price, r: Price)
    requires p.quote > 0 && q.quote > 0 && r.quote > 0 && !Less(q, p) && !Less(r, q)
    ensures !Less(r, p)
    ensures Less(p, q) || Less(q, r) ==> Less(p, r)
  {
    var x := p.base * r.quote;
    var y := r.base * p.quote;
    MulMonotone(p.base * q.quote, q.base * p.quote, r.quote);
    MulMonotone(q.base * r.quote, r.base * q.quote, p.quote);
    ShiftFactors(p.base, q.quote, r.quote);
    ShiftFactors(q.base, p.quote, r.quote);
    ShiftFactors(r.base, q.quote, p.quote);
    assert x * q.quote <= q.base * p.quote * r.quote <= y * q.quote;
    CancelFactor(x, y, q.quote);
    if Less(p, q) {
      MulMonotone(p.base * q.quote + 1, q.base * p.quote, r.quote);
      assert (p.base * q.quote + 1) * r.quote == p.base * q.quote * r.quote + r.quote;
      assert x * q.quote < y * q.quote;
    } else if Less(q, r) {
      MulMonotone(q.base * r.quote + 1, r.base * q.quote, p.quote);
      assert (q.base * r.quote + 1) * p.quote == q.base * r.quote * p.quote + p.quote;
      assert x * q.quote < y * q.quote;
    }
  }

  lemma PrecedesTransitive(p: Price, i: nat, q: Price, j: nat, r: Price, k: nat)
    requires p.quote > 0 && q.quote > 0 && r.quote > 0
    requires Precedes(p, i, q, j) && Precedes(q, j, r, k)
    ensures Precedes(p, i, r, k)
  {
    NotAboveTransitive(p, q, r);
  }

  lemma PrecedesAsymmetric(p: Price, i: nat, q: Price, j: nat)
    requires Precedes(p, i, q, j)
    ensures !Precedes(q, j, p, i) && (i == j ==> p != q)
  {
  }

  // The entry an ordered index yields first.
  method First(keys: map<nat, Price>) returns (first: nat)
    requires keys != map[] && forall k <- keys :: keys[k].quote > 0
    ensures first in keys
    ensures forall k <- keys :: k != first ==> Precedes(keys[first], first, keys[k], k)
  {
    hide Precedes;
    var todo := keys.Keys;
    assert exists k :: k in keys;
    first :| first in keys;
    todo := todo - {first};
    while todo != {}
      invariant todo <= keys.Keys && first in keys && first !in todo
      invariant forall k <- keys :: k !in todo && k != first ==> Precedes(keys[first], first, keys[k], k)
      decreases todo
    {
      var next :| next in todo;
      todo := todo - {next};
      if Precedes(keys[next], next, keys[first], first) {
        forall k | k in keys && k !in todo && k != next
          ensures Precedes(keys[next], next, keys[k], k)
        {
          if k != first {
            PrecedesTransitive(keys[next], next, keys[first], first, keys[k], k);
          }
        }
        first := next;
      } else {
        PrecedesTotal(keys[next], next, keys[first], first);
      }
    }
  }

  lemma PrecedesTotal(p: Price, i: nat, q: Price, j: nat)
    requires i != j
    ensures Precedes(p, i, q, j) || Precedes(q, j, p, i)
  {
  }
}

// When a block can no longer be undone: enough witnesses have built on it.
// Source: libraries/chain/db_update.cpp:61-157.
module Irreversibility {
  import opened Arithmetic
  import opened Arrays
  import opened Config

  const THRESHOLD: nat := 7000

  // How many of the numbers reach x.
  function Reaching(s: seq<nat>, x: nat): nat {
    if s == [] then 0 else Reaching(s[..|s| - 1], x) + if s[|s| - 1] >= x then 1 else 0
  }

  lemma {:induction false} ReachingSplit(s: seq<nat>, t: seq<nat>, x: nat)
    ensures Reaching(s + t, x) == Reaching(s, x) + Reaching(t, x)
  {
    if t == [] {
      assert s + t == s;
    } else {
      assert (s + t)[..|s + t| - 1] == s + t[..|t| - 1];
      ReachingSplit(s, t[..|t| - 1], x);
    }
  }

  lemma {:induction false} AllReach(s: seq<nat>, x: nat)
    requires forall i :: 0 <= i < |s| ==> s[i] >= x
    ensures Reaching(s, x) == |s|
  {
    if s != [] {
      AllReach(s[..|s| - 1], x);
    }
  }

  lemma {:induction false} NoneReach(s: seq<nat>, x: nat)
    requires forall i :: 0 <= i < |s| ==> s[i] < x
    ensures Reaching(s, x) == 0
  {
    if s != [] {
      NoneReach(s[..|s| - 1], x);
    }
  }

  lemma {:induction false} AtMostAll(s: seq<nat>, x: nat)
    ensures Reaching(s, x) <= |s|
  {
    if s != [] {
      AtMostAll(s[..|s| - 1], x);
    }
  }

  lemma WithoutOne(t: seq<nat>, j: nat)
    requires j < |t|
    ensures multiset(t[..j] + t[j + 1..]) == multiset(t) - multiset{t[j]}
  {
    assert t == t[..j] + [t[j]] + t[j + 1..];
  }

  lemma ReachingWithoutOne(t: seq<nat>, j: nat, x: nat)
    requires j < |t|
    ensures Reaching(t, x) == Reaching(t[..j] + t[j + 1..], x) + if t[j] >= x then 1 else 0
  {
    assert t == t[..j] + [t[j]] + t[j + 1..];
    ReachingSplit(t[..j], t[j + 1..], x);
    ReachingSplit(t[..j], [t[j]], x);
    ReachingSplit(t[..j] + [t[j]], t[j + 1..], x);
    assert [t[j]][..0] == [];
  }

  // The count does not depend on the order.
  lemma {:induction false} ReachingPermuted(s: seq<nat>, t: seq<nat>, x: nat)
    requires multiset(s) == multiset(t)
    ensures Reaching(s, x) == Reaching(t, x)
    decreases |s|
  {
    if s == [] {
      assert |multiset(t)| == 0;
    } else {
      var last := |s| - 1;
      assert s[last] in multiset(t);
      var j :| 0 <= j < |t| && t[j] == s[last];
      WithoutOne(s, last);
      WithoutOne(t, j);
      assert s[..last] + s[last + 1..] == s[..last];
      ReachingPermuted(s[..last], t[..j] + t[j + 1..], x);
      ReachingWithoutOne(t, j, x);
    }
  }

  method LeastFrom(a: array<nat>, i: nat) returns (least: nat)
    requires i < a.Length
    ensures i <= least < a.Length && forall q :: i <= q < a.Length ==> a[least] <= a[q]
  {
    least := i;
    for j := i + 1 to a.Length
      invariant i <= least < a.Length
      invariant forall q :: i <= q < j ==> a[least] <= a[q]
    {
      if a[j] < a[least] {
        least := j;
      }
    }
  }

  // Puts at position k the element that sorting would put there.
  method SelectNth(a: array<nat>, k: nat)
    requires k < a.Length
    modifies a
    ensures multiset(a[..]) == multiset(old(a[..]))
    ensures forall i :: 0 <= i < k ==> a[i] <= a[k]
    ensures forall i :: k < i < a.Length ==> a[k] <= a[i]
  {
    for i := 0 to k + 1
      invariant multiset(a[..]) == multiset(old(a[..]))
      invariant forall p, q :: 0 <= p < i && p < q < a.Length ==> a[p] <= a[q]
    {
      var least := LeastFrom(a, i);
      SwapIsPermutation(a[..], i, least);
      Swap(a, i, least);
      assert forall q :: 0 <= q < a.Length ==> a[q] == a[..][q];
    }
  }

  // The largest number that at least `need` of the numbers reach.
  ghost predicate LargestReached(s: seq<nat>, need: nat, r: nat) {
    Reaching(s, r) >= need && forall x: nat :: x > r ==> Reaching(s, x) < need
  }

  lemma SelectedIsLargest(s: seq<nat>, t: seq<nat>, k: nat)
    requires multiset(s) == multiset(t) && k < |t|
    requires forall i :: 0 <= i < k ==> t[i] <= t[k]
    requires forall i :: k < i < |t| ==> t[k] <= t[i]
    ensures |s| == |t| && LargestReached(s, |s| - k, t[k])
  {
    assert |multiset(s)| == |s| && |multiset(t)| == |t|;
    assert t == t[..k] + t[k..];
    ReachingSplit(t[..k], t[k..], t[k]);
    AllReach(t[k..], t[k]);
    ReachingPermuted(s, t, t[k]);
    forall x: nat | x > t[k]
      ensures Reaching(s, x) < |s| - k
    {
      assert t == t[..k + 1] + t[k + 1..];
      ReachingSplit(t[..k + 1], t[k + 1..], x);
      NoneReach(t[..k + 1], x);
      AtMostAll(t[k + 1..], x);
      ReachingPermuted(s, t, x);
    }
  }

  // How many witnesses may lag behind.
  function Offset(n: nat): nat {
    (HUNDRED_PERCENT - THRESHOLD) * n / HUNDRED_PERCENT
  }

  lemma OffsetBelow(n: nat)
    requires n > 0
    ensures Offset(n) < n && HUNDRED_PERCENT * (n - Offset(n)) >= THRESHOLD * n
  {
    FloorBounds(HUNDRED_PERCENT - THRESHOLD, n, HUNDRED_PERCENT);
  }

  // It is the most that may lag with 70% of the witnesses still left.
  lemma OffsetIff(n: nat, x: nat)
    ensures x == Offset(n) <==> 10000 * (n - x) >= 7000 * n > 10000 * (n - x - 1)
  {
    FloorIff((HUNDRED_PERCENT - THRESHOLD) * n, HUNDRED_PERCENT, x);
  }

  function Numbers(active: seq<nat>, confirmed: map<nat, nat>): seq<nat>
    requires forall w <- active :: w in confirmed
  {
    seq(|active|, i requires 0 <= i < |active| => confirmed[active[i]])
  }

  // The count is of the scheduled witnesses whose own last confirmed block is no lower.
  lemma {:induction false} ReachingIsConfirming(active: seq<nat>, confirmed: map<nat, nat>, x: nat)
    requires forall w <- active :: w in confirmed
    ensures Reaching(Numbers(active, confirmed), x) == |Confirming(active, confirmed, x)|
  {
    if active != [] {
      var n := |active| - 1;
      assert active[n] in active && forall w <- active[..n] :: w in active;
      ReachingIsConfirming(active[..n], confirmed, x);
      assert Numbers(active, confirmed)[..n] == Numbers(active[..n], confirmed);
      assert Confirming(active, confirmed, x)
             == Confirming(active[..n], confirmed, x) + if confirmed[active[n]] >= x then {n} else {};
    }
  }

  // The positions in the schedule of those who have confirmed block x or a later one.
  ghost function Confirming(active: seq<nat>, confirmed: map<nat, nat>, x: nat): set<nat>
    requires forall w <- active :: w in confirmed
  {
    set i: nat | i < |active| && confirmed[active[i]] >= x
  }

  class ChainStatus {
    var headNum: nat
    var lastIrreversible: nat
    var active: seq<nat>
    var confirmed: map<nat, nat>

    // No witness has confirmed a block beyond the head, so none beyond it is irreversible.
    ghost predicate Valid()
      reads this
    {
      && |active| > 0 && (forall w <- active :: w in confirmed)
      && (forall w <- confirmed :: confirmed[w] <= headNum) && lastIrreversible <= headNum
    }

    ghost function Confirmations(): seq<nat>
      requires forall w <- active :: w in confirmed
      reads `active, `confirmed
    {
      Numbers(active, confirmed)
    }

    // The irreversible block number never falls; it rises to the largest number enough witnesses have confirmed.
    method UpdateLastIrreversible()
      requires Valid()
      modifies `lastIrreversible
      ensures Valid() && lastIrreversible >= old(lastIrreversible)
      ensures lastIrreversible > old(lastIrreversible) ==>
                LargestReached(Confirmations(), |active| - Offset(|active|), lastIrreversible)
      ensures lastIrreversible == old(lastIrreversible) ==>
                forall x: nat :: x > lastIrreversible ==> Reaching(Confirmations(), x) < |active| - Offset(|active|)
    {
      var n := |active|;
      var collected := Numbers(active, confirmed);
      var numbers := new nat[n](i requires 0 <= i < |collected| => collected[i]);
      assert numbers[..] == collected;
      OffsetBelow(n);
      SelectNth(numbers, Offset(n));
      SelectedIsLargest(collected, numbers[..], Offset(n));
      var r := numbers[Offset(n)];
      assert r in multiset(numbers[..]);
      assert r in collected;
      if r > lastIrreversible {
        lastIrreversible := r;
      }
    }

    // A block by a scheduled witness, who may have been voted out since the schedule was made.
    method ApplyBlock(w: nat)
      requires Valid()
      modifies this
      ensures Valid() && headNum == old(headNum) + 1 && active == old(active)
              && lastIrreversible >= old(lastIrreversible)
      ensures confirmed == old(confirmed)[w := headNum]
      ensures lastIrreversible > old(lastIrreversible) ==>
                LargestReached(Confirmations(), |active| - Offset(|active|), lastIrreversible)
      ensures lastIrreversible == old(lastIrreversible) ==>
                forall x: nat :: x > lastIrreversible ==> Reaching(Confirmations(), x) < |active| - Offset(|active|)
    {
      headNum := headNum + 1;
      confirmed := confirmed[w := headNum];
      UpdateLastIrreversible();
    }

    // Maintenance votes in another set of witnesses; new ones have confirmed nothing.
    method ReplaceActive(chosen: seq<nat>)
      requires Valid() && |chosen| > 0
      modifies this
      ensures Valid() && active == chosen && lastIrreversible == old(lastIrreversible) && headNum == old(headNum)
    {
      for i := 0 to |chosen|
        invariant Valid() && active == old(active) && headNum == old(headNum)
                  && lastIrreversible == old(lastIrreversible)
        invariant forall j :: 0 <= j < i ==> chosen[j] in confirmed
      {
        if chosen[i] !in confirmed {
          confirmed := confirmed[chosen[i] := 0];
        }
      }
      active := chosen;
    }
  }
}

// Who may produce when: the shuffled schedule and the arithmetic of slots.
// Source: libraries/chain/db_witness_schedule.cpp:34-119, libraries/chain/db_update.cpp:43-84.
module WitnessSchedule {
  import opened Arithmetic
  import opened Arrays

  // ---------- shuffling ----------

  const MULTIPLIER: bv64 := 2685821657736338717

  // The pseudo-random word for position i.
  function Scramble(nowHi: bv64, i: bv64): bv64 {
    var a := nowHi + i * MULTIPLIER;
    var b := a ^ (a >> 12);
    var c := b ^ (b << 25);
    var d := c ^ (c >> 27);
    d * MULTIPLIER
  }

  function Word(i: nat, nowHi: bv64): nat
    requires i < 0x1_0000_0000
  {
    Scramble(nowHi, i as bv64) as nat
  }

  function Remainder(k: nat, n: nat): (r: nat)
    requires n > 0
    ensures r < n
  {
    k % n
  }

  // The position that position i is exchanged with: one at or after it.
  function Partner(i: nat, n: nat, nowHi: bv64): (j: nat)
    requires i < n < 0x1_0000_0000
    ensures i <= j < n
  {
    i + Remainder(Word(i, nowHi), n - i)
  }

  // The first `steps` positions have been dealt with.
  function Shuffled(s: seq<nat>, steps: nat, nowHi: bv64): (r: seq<nat>)
    requires steps <= |s| < 0x1_0000_0000
    ensures |r| == |s|
  {
    if steps == 0 then s else Swapped(Shuffled(s, steps - 1, nowHi), steps - 1, Partner(steps - 1, |s|, nowHi))
  }

  // Each position in turn draws one of those not drawn yet; the first of them takes its place.
  function Drawn(left: seq<nat>, i: nat, nowHi: bv64): seq<nat>
    requires i + |left| < 0x1_0000_0000
    decreases |left|
  {
    if left == [] then []
    else
      var k := Word(i, nowHi) % |left|;
      [left[k]] + Drawn(left[k := left[0]][1..], i + 1, nowHi)
  }

  lemma ExchangeDraws(q: seq<nat>, i: nat, k: nat)
    requires i + k < |q|
    ensures var r, left := Swapped(q, i, i + k), q[i..];
            r[..i + 1] == q[..i] + [left[k]] && left[k := left[0]][1..] == r[i + 1..]
  {
  }

  lemma DrawOne(left: seq<nat>, i: nat, nowHi: bv64)
    requires left != [] && i + |left| < 0x1_0000_0000
    ensures var k := Remainder(Word(i, nowHi), |left|);
            Drawn(left, i, nowHi) == [left[k]] + Drawn(left[k := left[0]][1..], i + 1, nowHi)
  {
    hide Word;
  }

  // Exchanging in place draws: the positions dealt with hold what was drawn, the others what is left.
  lemma {:induction false} DrawnFrom(s: seq<nat>, steps: nat, nowHi: bv64)
    requires steps <= |s| < 0x1_0000_0000
    ensures var r := Shuffled(s, steps, nowHi); Drawn(s, 0, nowHi) == r[..steps] + Drawn(r[steps..], steps, nowHi)
  {
    hide Word, Swapped, Drawn, Remainder;
    if steps > 0 {
      DrawnFrom(s, steps - 1, nowHi);
      var q := Shuffled(s, steps - 1, nowHi);
      DrawOne(q[steps - 1..], steps - 1, nowHi);
      ExchangeDraws(q, steps - 1, Remainder(Word(steps - 1, nowHi), |s| - steps + 1));
    }
  }

  lemma ShuffledIsDrawn(s: seq<nat>, nowHi: bv64)
    requires |s| < 0x1_0000_0000
    ensures Shuffled(s, |s|, nowHi) == Drawn(s, 0, nowHi)
  {
    DrawnFrom(s, |s|, nowHi);
  }

  // The words of the first three positions one second after the epoch.
  lemma KnownWords()
    ensures Scramble(0x1_0000_0000, 0) == 4396774442519208864
    ensures Scramble(0x1_0000_0000, 1) == 16292610654323759860
    ensures Scramble(0x1_0000_0000, 2) == 8363531313377062728
  {
  }

  // Whatever the words are, no witness is lost or doubled.
  lemma {:induction false} ShuffleIsPermutation(s: seq<nat>, steps: nat, nowHi: bv64)
    requires steps <= |s| < 0x1_0000_0000
    ensures multiset(Shuffled(s, steps, nowHi)) == multiset(s)
  {
    hide Partner, Swapped;
    if steps > 0 {
      ShuffleIsPermutation(s, steps - 1, nowHi);
      SwapIsPermutation(Shuffled(s, steps - 1, nowHi), steps - 1, Partner(steps - 1, |s|, nowHi));
    }
  }

  method Shuffle(a: array<nat>, now: bv32)
    requires a.Length < 0x1_0000_0000
    modifies a
    ensures a[..] == Shuffled(old(a[..]), a.Length, (now as bv64) << 32)
    ensures multiset(a[..]) == multiset(old(a[..]))
  {
    hide Partner, Swapped;
    var nowHi := (now as bv64) << 32;
    for i := 0 to a.Length
      invariant a[..] == Shuffled(old(a[..]), i, nowHi)
    {
      Swap(a, i, Partner(i, a.Length, nowHi));
    }
    ShuffleIsPermutation(old(a[..]), a.Length, nowHi);
  }

  predicate Distinct(s: seq<nat>) {
    forall i, j :: 0 <= i < j < |s| ==> s[i] != s[j]
  }

  lemma {:induction false} DistinctIffOnce(s: seq<nat>)
    ensures Distinct(s) <==> forall w <- s :: multiset(s)[w] == 1
  {
    forall i, j | 0 <= i < j < |s| && s[i] == s[j]
      ensures multiset(s)[s[i]] >= 2
    {
      assert s == s[..j] + s[j..];
      assert s[i] in s[..j] && s[j] in s[j..];
    }
    if s != [] && Distinct(s) {
      DistinctIffOnce(s[..|s| - 1]);
      assert s == s[..|s| - 1] + [s[|s| - 1]];
    }
  }

  // A shuffled schedule names the same witnesses, each still once.
  lemma ShuffledDistinct(s: seq<nat>, t: seq<nat>)
    requires multiset(s) == multiset(t) && Distinct(s)
    ensures Distinct(t) && |s| == |t| && forall w :: w in s <==> w in t
  {
    DistinctIffOnce(s);
    DistinctIffOnce(t);
    assert |multiset(s)| == |s| && |multiset(t)| == |t|;
    forall w
      ensures w in s <==> w in t
    {
      assert w in s <==> w in multiset(s);
      assert w in t <==> w in multiset(t);
    }
  }

  // ---------- turns ----------

  // The witness of the slot `slot` steps after the absolute slot `aslot`.
  function Scheduled(schedule: seq<nat>, aslot: nat, slot: nat): nat
    requires |schedule| > 0
  {
    schedule[(aslot + slot) % |schedule|]
  }

  // The turns go through the schedule from its start, over and over.
  lemma ScheduledIs(schedule: seq<nat>, aslot: nat, slot: nat, round: nat, turn: nat)
    requires turn < |schedule| && aslot + slot == |schedule| * round + turn
    ensures Scheduled(schedule, aslot, slot) == schedule[turn]
  {
    QuotientIs(aslot + slot, round, turn, |schedule|);
  }

  lemma ModOfSum(x: nat, y: nat, n: nat)
    requires n > 0 && x < n && y < n
    ensures (x + y) % n == if x + y < n then x + y else x + y - n
  {
  }

  lemma ModShift(x: nat, k: nat, n: nat)
    requires n > 0 && k < n
    ensures (x + k) % n == (x % n + k) % n
  {
    var q := x / n;
    assert x == n * q + x % n;
    assert x + k == n * q + (x % n + k);
    ModMultiple(q, x % n + k, n);
  }

  // Among as many consecutive slots as there are witnesses, each has exactly one turn.
  lemma EachOnceInARound(schedule: seq<nat>, aslot: nat, w: nat) returns (turn: nat)
    requires Distinct(schedule) && w in schedule
    ensures turn < |schedule| && Scheduled(schedule, aslot, turn) == w
    ensures forall k :: 0 <= k < |schedule| && Scheduled(schedule, aslot, k) == w ==> k == turn
  {
    var n := |schedule|;
    var i :| 0 <= i < n && schedule[i] == w;
    var at := aslot % n;
    turn := if i >= at then i - at else i + n - at;
    ModShift(aslot, turn, n);
    ModOfSum(at, turn, n);
    forall k | 0 <= k < n && Scheduled(schedule, aslot, k) == w
      ensures k == turn
    {
      ModShift(aslot, k, n);
      ModOfSum(at, k, n);
    }
  }

  // ---------- slot times ----------

  // The head block's number, time and absolute slot; `skip` is set when the head block was a maintenance block.
  datatype Clock = Clock(headNum: nat, time: nat, aslot: nat, maintenance: bool)

  function SlotTime(c: Clock, interval: nat, skipSlots: nat, slot: nat): nat
    requires interval > 0
  {
    if slot == 0 then 0
    else if c.headNum == 0 then c.time + slot * interval
    else (c.time / interval) * interval + (slot + if c.maintenance then skipSlots else 0) * interval
  }

  function SlotAt(c: Clock, interval: nat, skipSlots: nat, when: nat): nat
    requires interval > 0
  {
    var first := SlotTime(c, interval, skipSlots, 1);
    if when < first then 0 else (when - first) / interval + 1
  }

  // Slots are counted from the genesis time until there is a block, and then from the last whole interval before
  // the head block's time; after a maintenance block some are skipped.
  lemma SlotTimeIs(c: Clock, interval: nat, skipSlots: nat, slot: nat)
    requires interval > 0 && slot > 0
    ensures var t := SlotTime(c, interval, skipSlots, slot);
            if c.headNum == 0 then t - c.time == slot * interval
            else
              var steps := if c.maintenance then slot + skipSlots else slot;
              t % interval == 0 && t - steps * interval <= c.time < t - steps * interval + interval
  {
    GridSteps(c.time, if c.maintenance then slot + skipSlots else slot, interval);
  }

  lemma GridSteps(time: nat, steps: nat, interval: nat)
    requires interval > 0
    ensures var t := (time / interval) * interval + steps * interval;
            t % interval == 0 && t - steps * interval <= time < t - steps * interval + interval
  {
    var base := time / interval;
    assert time == interval * base + time % interval;
    Distribute(base, steps, interval);
    QuotientIs((base + steps) * interval, base + steps, 0, interval);
  }

  lemma SlotTimeStep(c: Clock, interval: nat, skipSlots: nat, slot: nat)
    requires interval > 0 && slot >= 1
    ensures SlotTime(c, interval, skipSlots, slot) == SlotTime(c, interval, skipSlots, 1) + (slot - 1) * interval
  {
    var skip := if c.maintenance then skipSlots else 0;
    assert (slot + skip) * interval == (1 + skip) * interval + (slot - 1) * interval;
    assert slot * interval == 1 * interval + (slot - 1) * interval;
  }

  // Slots and times correspond: a slot's own time falls in it, and any other time falls in the slot that has begun.
  lemma SlotOfItsTime(c: Clock, interval: nat, skipSlots: nat, slot: nat)
    requires interval > 0 && slot >= 1
    ensures SlotAt(c, interval, skipSlots, SlotTime(c, interval, skipSlots, slot)) == slot
  {
    hide SlotTime;
    SlotTimeStep(c, interval, skipSlots, slot);
    DivExact(slot - 1, interval);
  }

  lemma SlotContainsTime(c: Clock, interval: nat, skipSlots: nat, when: nat)
    requires interval > 0
    ensures var slot := SlotAt(c, interval, skipSlots, when);
            && (slot == 0 <==> when < SlotTime(c, interval, skipSlots, 1))
            && (slot > 0 ==> SlotTime(c, interval, skipSlots, slot) <= when < SlotTime(c, interval, skipSlots,
              slot + 1))
  {
    hide SlotTime;
    var slot := SlotAt(c, interval, skipSlots, when);
    if slot > 0 {
      var late := when - SlotTime(c, interval, skipSlots, 1);
      SlotTimeStep(c, interval, skipSlots, slot);
      SlotTimeStep(c, interval, skipSlots, slot + 1);
      FloorBounds(late, 1, interval);
      assert late * 1 == late;
    }
  }

  // ---------- a block moves the clock ----------

  // The clock after a block; missed slots count, skipped maintenance slots do not.
  function AfterBlock(c: Clock, interval: nat, skipSlots: nat, when: nat, maintenance: bool): Clock
    requires interval > 0
  {
    Clock(c.headNum + 1, when, c.aslot + SlotAt(c, interval, skipSlots, when), maintenance)
  }

  // A block in slot n leaves the later slots where they were: slot k after it is slot n + k before it, with the
  // same witness, however many slots were missed. Its time is the same too, but for the slots a maintenance
  // block skips and, after the first block, for what the genesis time is off the grid.
  lemma SlotsCarryOver(c: Clock, interval: nat, skipSlots: nat, n: nat, k: nat, maintenance: bool, schedule: seq<nat>)
    requires interval > 0 && n >= 1 && k >= 1 && |schedule| > 0
    ensures var d := AfterBlock(c, interval, skipSlots, SlotTime(c, interval, skipSlots, n), maintenance);
            && Scheduled(schedule, d.aslot, k) == Scheduled(schedule, c.aslot, n + k)
            && SlotTime(d, interval, skipSlots, k)
               == SlotTime(c, interval, skipSlots, n + k) + (if maintenance then skipSlots * interval else 0)
                  - (if c.headNum == 0 then c.time % interval else 0)
  {
    hide SlotAt;
    SlotOfItsTime(c, interval, skipSlots, n);
    var when := SlotTime(c, interval, skipSlots, n);
    var skip := if c.maintenance then skipSlots else 0;
    var skip' := if maintenance then skipSlots else 0;
    assert c.aslot + n + k == c.aslot + (n + k);
    Distribute(k, skip', interval);
    if c.headNum == 0 {
      OnGrid(c.time, n, interval);
      Distribute(n, k, interval);
    } else {
      DivExact(c.time / interval, interval);
      var base := c.time / interval;
      Distribute(base, n + skip, interval);
      DivExact(base + n + skip, interval);
      Distribute(n + skip, k, interval);
    }
  }

  lemma OnGrid(t: nat, n: nat, interval: nat)
    requires interval > 0
    ensures ((t + n * interval) / interval) * interval == t + n * interval - t % interval
  {
    ModMultiple(n, t, interval);
    var x := t + n * interval;
    assert x == interval * (x / interval) + x % interval;
    assert x % interval == t % interval by { assert x == interval * n + t; }
  }
}

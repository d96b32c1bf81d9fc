// Balances that vest, by coin-seconds or linearly after a cliff.
// Source: libraries/chain/vesting_balance_object.cpp, libraries/chain/vesting_balance_evaluator.cpp:98-145.
module Vesting {
  import opened Arithmetic
  import opened Config

  // `earned` are the coin-seconds at `updated`.
  datatype Policy =
    | Linear(begin: nat, cliff: nat, duration: nat, beginBalance: nat)
    | CoinSeconds(vestingSeconds: nat, earned: nat, startClaim: nat, updated: nat)

  datatype Vested = Vested(balance: nat, policy: Policy)

  // ---------- coin-seconds ----------

  function Period(p: Policy): nat
    requires p.CoinSeconds?
  {
    if p.vestingSeconds == 0 then 1 else p.vestingSeconds
  }

  function Earned(v: Vested, now: nat): nat
    requires v.policy.CoinSeconds? && v.policy.updated <= now
  {
    Least(v.policy.earned + v.balance * (now - v.policy.updated), v.balance * Period(v.policy))
  }

  function Updated(v: Vested, now: nat): Vested
    requires v.policy.CoinSeconds? && v.policy.updated <= now
  {
    v.(policy := v.policy.(earned := Earned(v, now), updated := now))
  }

  // ---------- linear ----------

  function Portion(a: nat, num: nat, den: nat): nat
    requires den > 0
  {
    a * num / den
  }

  function LinearlyVested(p: Policy, now: nat): nat
    requires p.Linear?
  {
    if now <= p.begin then 0
    else if now - p.begin < p.duration then Portion(p.beginBalance, now - p.begin, p.duration)
    else p.beginBalance
  }

  // ---------- both ----------

  // The clock does not run backwards and, for a linear policy, nothing is withdrawn that has not vested.
  ghost predicate Valid(v: Vested, now: nat) {
    match v.policy
    case CoinSeconds(_, earned, _, updated) => updated <= now && earned <= v.balance * Period(v.policy)
    case Linear(_, _, _, beginBalance) =>
      v.balance <= beginBalance && beginBalance - v.balance <= LinearlyVested(v.policy, now)
  }

  function Allowed(v: Vested, now: nat): nat
    requires Valid(v, now)
  {
    match v.policy
    case CoinSeconds(_, _, startClaim, _) => if now <= startClaim then 0 else Earned(v, now) / Period(v.policy)
    case Linear(begin, cliff, _, beginBalance) =>
      if now <= begin || now - begin < cliff then 0
      else LinearlyVested(v.policy, now) - (beginBalance - v.balance)
  }

  function Deposited(v: Vested, now: nat, x: nat): Vested
    requires v.policy.CoinSeconds? ==> v.policy.updated <= now
  {
    match v.policy
    case CoinSeconds(_, _, _, _) => var u := Updated(v, now); u.(balance := u.balance + x)
    case Linear(_, _, _, _) => v.(balance := v.balance + x)
  }

  function DepositedVested(v: Vested, now: nat, x: nat): Vested
    requires v.policy.CoinSeconds? && v.policy.updated <= now
  {
    var u := Updated(v, now);
    Vested(u.balance + x, u.policy.(earned := u.policy.earned + x * Period(u.policy)))
  }

  function Withdrawn(v: Vested, now: nat, x: nat): Vested
    requires Valid(v, now) && x <= Allowed(v, now)
  {
    AllowedWithin(v, now, x);
    match v.policy
    case CoinSeconds(_, _, _, _) =>
      var u := Updated(v, now);
      Vested(u.balance - x, u.policy.(earned := u.policy.earned - x * Period(u.policy)))
    case Linear(_, _, _, _) => v.(balance := v.balance - x)
  }

  // What may be withdrawn is there, and is backed by coin-seconds: the asserts on withdrawal hold.
  lemma AllowedWithin(v: Vested, now: nat, x: nat)
    requires Valid(v, now) && x <= Allowed(v, now)
    ensures x <= v.balance
    ensures v.policy.CoinSeconds? ==> x * Period(v.policy) <= Earned(v, now)
  {
    match v.policy
    case CoinSeconds(_, _, startClaim, _) =>
      if now > startClaim {
        BackedByCoinSeconds(x, Period(v.policy), Earned(v, now), v.balance);
      }
    case Linear(begin, cliff, duration, beginBalance) =>
      LinearAtMost(v.policy, now);
  }

  // The whole quotient of the coin-seconds by the period is backed by them and by the balance.
  lemma BackedByCoinSeconds(x: nat, p: nat, e: nat, balance: nat)
    requires p > 0 && e <= balance * p && x <= e / p
    ensures x * p <= e && x <= balance
  {
    FloorBounds(e, 1, p);
    MulMonotone(x, e / p, p);
    CancelFactor(x, balance, p);
  }

  lemma LinearAtMost(p: Policy, now: nat)
    requires p.Linear?
    ensures LinearlyVested(p, now) <= p.beginBalance
  {
    if p.begin < now && now - p.begin < p.duration {
      FloorBounds(p.beginBalance, now - p.begin, p.duration);
      MulMonotone(now - p.begin, p.duration, p.beginBalance);
      CancelFactor(LinearlyVested(p, now), p.beginBalance, p.duration);
    }
  }

  lemma LinearGrows(p: Policy, t: nat, now: nat)
    requires p.Linear? && t <= now
    ensures LinearlyVested(p, t) <= LinearlyVested(p, now)
  {
    LinearAtMost(p, t);
    if p.begin < t && now - p.begin < p.duration {
      var x, y := p.beginBalance * (t - p.begin), p.beginBalance * (now - p.begin);
      MulMonotone(t - p.begin, now - p.begin, p.beginBalance);
      assert x <= y;
      FloorBounds(p.beginBalance, t - p.begin, p.duration);
      FloorBounds(p.beginBalance, now - p.begin, p.duration);
      assert (x / p.duration) * p.duration < (y / p.duration + 1) * p.duration;
      LessFactor(x / p.duration, y / p.duration + 1, p.duration);
    }
  }

  // ---------- in numbers ----------

  // A whole quotient, rounded down.
  predicate IsQuotient(x: nat, n: nat, d: nat) {
    x * d <= n < (x + 1) * d
  }

  // The coin-seconds grow by the balance each second, up to the balance held for the whole period, which is at
  // least a second.
  predicate IsEarned(e: nat, balance: nat, vestingSeconds: nat, earned: nat, elapsed: nat) {
    var cap := if vestingSeconds <= 1 then balance else balance * vestingSeconds;
    var grown := earned + balance * elapsed;
    if grown < cap then e == grown else e == cap
  }

  lemma EarnedIff(v: Vested, now: nat, e: nat)
    requires v.policy.CoinSeconds? && v.policy.updated <= now
    ensures e == Earned(v, now)
            <==> IsEarned(e, v.balance, v.policy.vestingSeconds, v.policy.earned, now - v.policy.updated)
  {
    if v.policy.vestingSeconds <= 1 {
      assert v.balance * 1 == v.balance;
    }
  }

  // What may be withdrawn: by coin-seconds, nothing up to the start of claims and then what the coin-seconds
  // buy, `earned` by now; linearly, nothing up to the beginning and before the cliff, and then the share of the
  // time passed less what was taken already.
  predicate IsAllowed(v: Vested, now: nat, earned: nat, x: nat) {
    match v.policy
    case CoinSeconds(vestingSeconds, _, startClaim, _) =>
      if now <= startClaim then x == 0
      else IsQuotient(x, earned, if vestingSeconds == 0 then 1 else vestingSeconds)
    case Linear(begin, cliff, duration, beginBalance) =>
      if now <= begin || now < begin + cliff then x == 0
      else if now >= begin + duration then x == v.balance
      else
        x + beginBalance >= v.balance
        && IsQuotient(x + beginBalance - v.balance, beginBalance * (now - begin), duration)
  }

  lemma AllowedIff(v: Vested, now: nat, earned: nat, x: nat)
    requires Valid(v, now)
    requires v.policy.CoinSeconds? ==>
               IsEarned(earned, v.balance, v.policy.vestingSeconds, v.policy.earned, now - v.policy.updated)
    ensures x == Allowed(v, now) <==> IsAllowed(v, now, earned, x)
  {
    match v.policy
    case CoinSeconds(_, _, startClaim, _) =>
      EarnedIff(v, now, earned);
      FloorIff(earned, Period(v.policy), x);
    case Linear(begin, cliff, duration, beginBalance) =>
      if begin < now && now - begin < duration && x + beginBalance >= v.balance {
        FloorIff(beginBalance * (now - begin), duration, x + beginBalance - v.balance);
      }
  }

  // The terms of the policy stay, and its coin-seconds are brought up to date.
  predicate SameTerms(p: Policy, q: Policy, now: nat) {
    match p
    case CoinSeconds(vestingSeconds, _, startClaim, _) =>
      q.CoinSeconds? && q.vestingSeconds == vestingSeconds && q.startClaim == startClaim && q.updated == now
    case Linear(_, _, _, _) => q == p
  }

  // A withdrawal takes its amount from the balance and a deposit adds its own, whatever the policy.
  lemma BalancesMove(v: Vested, now: nat, x: nat)
    requires Valid(v, now)
    ensures x <= Allowed(v, now) ==>
              var w := Withdrawn(v, now, x);
              w.balance == v.balance - x && SameTerms(v.policy, w.policy, now)
    ensures var d := Deposited(v, now, x);
            d.balance == v.balance + x && SameTerms(v.policy, d.policy, now)
    ensures v.policy.CoinSeconds? ==>
              var d := DepositedVested(v, now, x);
              d.balance == v.balance + x && SameTerms(v.policy, d.policy, now)
  {
    if x <= Allowed(v, now) {
      AllowedWithin(v, now, x);
    }
  }

  // ---------- every operation keeps it valid ----------

  lemma TimePasses(v: Vested, t: nat, now: nat)
    requires Valid(v, t) && t <= now
    ensures Valid(v, now) && (v.policy.CoinSeconds? ==> v.policy.updated <= now)
  {
    if v.policy.Linear? {
      LinearGrows(v.policy, t, now);
    }
  }

  lemma DepositValid(v: Vested, now: nat, x: nat)
    requires Valid(v, now) && v.policy.CoinSeconds?
    ensures Valid(Deposited(v, now, x), now) && Valid(DepositedVested(v, now, x), now)
  {
    var p := Period(v.policy);
    assert (v.balance + x) * p == v.balance * p + x * p;
  }

  // Withdrawing lowers the allowance by exactly what was withdrawn.
  lemma WithdrawValid(v: Vested, now: nat, x: nat)
    requires Valid(v, now) && x <= Allowed(v, now)
    ensures Valid(Withdrawn(v, now, x), now)
    ensures Allowed(Withdrawn(v, now, x), now) == Allowed(v, now) - x
  {
    AllowedWithin(v, now, x);
    var t := Withdrawn(v, now, x);
    if v.policy.CoinSeconds? {
      var p := Period(v.policy);
      var e := Earned(v, now);
      assert (v.balance - x) * p == v.balance * p - x * p;
      NoTimeNothingEarned(t);
      DivMinus(e, x, p);
    }
  }

  lemma NoTimeNothingEarned(v: Vested)
    requires v.policy.CoinSeconds? && v.policy.earned <= v.balance * Period(v.policy)
    ensures Earned(v, v.policy.updated) == v.policy.earned
  {
    assert v.balance * 0 == 0;
  }

  lemma DivMinus(e: nat, x: nat, p: nat)
    requires p > 0 && x * p <= e
    ensures (e - x * p) / p == e / p - x
  {
    var q := e / p;
    assert e == p * q + e % p;
    assert e - x * p == p * (q - x) + e % p;
    QuotientIs(e - x * p, q - x, e % p, p);
  }

  // A deposit that is already vested can be withdrawn at once.
  lemma VestedDepositAllowed(v: Vested, now: nat, x: nat)
    requires Valid(v, now) && v.policy.CoinSeconds? && now > v.policy.startClaim
    ensures Valid(DepositedVested(v, now, x), now) && Allowed(DepositedVested(v, now, x), now) == Allowed(v, now) + x
  {
    DepositValid(v, now, x);
    var t := DepositedVested(v, now, x);
    var p := Period(v.policy);
    NoTimeNothingEarned(t);
    DivMinus(Earned(v, now) + x * p, x, p);
  }

  const INT64_BOUND: int := 0x8000_0000_0000_0000
  const UINT128_SIZE: int := 0x1_0000_0000_0000_0000_0000_0000_0000_0000

  // A product in a signed 64-bit integer, wrapped around.
  function Wrapped(x: int): int {
    (x + INT64_BOUND) % (2 * INT64_BOUND) - INT64_BOUND
  }

  // The coin-seconds after a vested deposit as the code computes them: the product is taken in 64 bits and then
  // added to an unsigned 128-bit integer.
  function EarnedInCode(v: Vested, now: nat, x: nat): nat
    requires v.policy.CoinSeconds? && v.policy.updated <= now
  {
    (Earned(v, now) + Wrapped(x * Period(v.policy))) % UINT128_SIZE
  }

  // The code computes what the model does if and only if the product fits in 64 bits.
  lemma VestedDepositExactIff(v: Vested, now: nat, x: nat)
    requires Valid(v, now) && v.policy.CoinSeconds?
    requires v.balance <= MAX_SHARE_SUPPLY && x <= MAX_SHARE_SUPPLY && v.policy.vestingSeconds < 0x1_0000_0000
    ensures EarnedInCode(v, now, x) == DepositedVested(v, now, x).policy.earned <==> x * Period(v.policy) < INT64_BOUND
  {
    var p := Period(v.policy);
    ProductWithin(v.balance, p);
    ProductWithin(x, p);
    WrappedIs(x * p);
    AddedWithin(Earned(v, now), x * p, Wrapped(x * p));
  }

  lemma ProductWithin(x: nat, p: nat)
    requires x <= MAX_SHARE_SUPPLY && p <= 0x1_0000_0000
    ensures x * p <= MAX_SHARE_SUPPLY * 0x1_0000_0000
  {
    MulMonotone(x, MAX_SHARE_SUPPLY, p);
    MulMonotone(p, 0x1_0000_0000, MAX_SHARE_SUPPLY);
  }

  lemma WrappedIs(x: nat)
    ensures -INT64_BOUND <= Wrapped(x) < INT64_BOUND
    ensures x < INT64_BOUND ==> Wrapped(x) == x
    ensures x >= INT64_BOUND ==> Wrapped(x) < x
  {
  }

  lemma AddedWithin(e: nat, x: nat, w: int)
    requires e <= MAX_SHARE_SUPPLY * 0x1_0000_0000 && x <= MAX_SHARE_SUPPLY * 0x1_0000_0000
    requires -INT64_BOUND <= w <= x
    ensures (e + w) % UINT128_SIZE == e + x <==> w == x
  {
    if e + w >= 0 {
      assert (e + w) / UINT128_SIZE == 0;
    } else {
      assert (e + w) % UINT128_SIZE == e + w + UINT128_SIZE;
    }
  }

  // ---------- intermediate updates do not matter ----------

  // Updating in between changes neither what is earned nor what may be withdrawn later.
  lemma UpdateInvisible(v: Vested, t: nat, now: nat)
    requires Valid(v, t) && v.policy.CoinSeconds? && t <= now
    ensures Valid(Updated(v, t), now) && Valid(v, now)
    ensures Updated(Updated(v, t), now) == Updated(v, now)
    ensures Allowed(Updated(v, t), now) == Allowed(v, now)
  {
    var d1, d2 := t - v.policy.updated, now - t;
    assert v.balance * (d1 + d2) == v.balance * d1 + v.balance * d2;
  }

  // After a full period without change everything may be withdrawn.
  lemma FullPeriodFullBalance(v: Vested, now: nat)
    requires Valid(v, now) && v.policy.CoinSeconds? && now > v.policy.startClaim
             && now - v.policy.updated >= Period(v.policy)
    ensures Allowed(v, now) == v.balance
  {
    MulMonotone(Period(v.policy), now - v.policy.updated, v.balance);
    QuotientIs(v.balance * Period(v.policy), v.balance, 0, Period(v.policy));
  }

  lemma FullDurationFullBalance(v: Vested, now: nat)
    requires Valid(v, now) && v.policy.Linear?
    requires now > v.policy.begin && now - v.policy.begin >= v.policy.duration && now - v.policy.begin >= v.policy.cliff
    ensures Allowed(v, now) == v.balance
  {
  }

  // ---------- runs ----------

  datatype Event = Deposit(at: nat, amount: nat) | DepositVested(at: nat, amount: nat) | Withdraw(at: nat, amount: nat)

  // What a run leaves, what it withdrew, and its two allowances: coin-seconds held and amounts deposited as vested.
  datatype History = History(v: Vested, now: nat, withdrawn: nat, held: nat, vested: nat)

  function Happened(h: History, e: Event): History
    requires Valid(h.v, h.now) && h.v.policy.CoinSeconds? && h.now <= e.at
  {
    hide Valid, Earned, Allowed, Deposited, DepositedVested, Withdrawn;
    TimePasses(h.v, h.now, e.at);
    var held := h.held + h.v.balance * (e.at - h.now);
    match e
    case Deposit(at, x) => History(Deposited(h.v, at, x), at, h.withdrawn, held, h.vested)
    case DepositVested(at, x) => History(DepositedVested(h.v, at, x), at, h.withdrawn, held, h.vested + x)
    case Withdraw(at, x) =>
      if x <= Allowed(h.v, at) then History(Withdrawn(h.v, at, x), at, h.withdrawn + x, held, h.vested)
      else History(h.v, at, h.withdrawn, held, h.vested)
  }

  lemma HappenedValid(h: History, e: Event)
    requires Valid(h.v, h.now) && h.v.policy.CoinSeconds? && h.now <= e.at
    ensures var t := Happened(h, e);
            Valid(t.v, t.now) && t.v.policy.CoinSeconds? && Period(t.v.policy) == Period(h.v.policy)
  {
    TimePasses(h.v, h.now, e.at);
    match e
    case Deposit(at, x) => DepositValid(h.v, at, x);
    case DepositVested(at, x) => DepositValid(h.v, at, x);
    case Withdraw(at, x) => if x <= Allowed(h.v, at) { WithdrawValid(h.v, at, x); }
  }

  ghost predicate InOrder(now: nat, events: seq<Event>) {
    forall i :: 0 <= i < |events| ==> now <= events[i].at && forall j :: i < j < |events| ==>
      events[i].at <= events[j].at
  }

  function Run(h: History, events: seq<Event>): History
    requires Valid(h.v, h.now) && h.v.policy.CoinSeconds? && InOrder(h.now, events)
    decreases |events|
  {
    if events == [] then h
    else HappenedValid(h, events[0]); Run(Happened(h, events[0]), events[1..])
  }

  // The coin-seconds still available at `now`, whatever was updated last.
  function Standing(h: History): nat
    requires Valid(h.v, h.now) && h.v.policy.CoinSeconds?
  {
    h.withdrawn * Period(h.v.policy) + Earned(h.v, h.now)
  }

  function Budget(h: History, period: nat): nat {
    h.held + h.vested * period
  }

  lemma EarnedGrows(v: Vested, t: nat, now: nat)
    requires Valid(v, t) && v.policy.CoinSeconds? && t <= now
    ensures Earned(v, now) <= Earned(v, t) + v.balance * (now - t)
  {
    var d1, d2 := t - v.policy.updated, now - t;
    assert v.balance * (d1 + d2) == v.balance * d1 + v.balance * d2;
  }

  lemma WithinBudgetStep(h: History, e: Event)
    requires Valid(h.v, h.now) && h.v.policy.CoinSeconds? && h.now <= e.at
    ensures var t := Happened(h, e);
            var p := Period(h.v.policy);
            && Valid(t.v, t.now) && t.v.policy.CoinSeconds? && Period(t.v.policy) == p && t.now == e.at
            && Standing(t) - Budget(t, p) <= Standing(h) - Budget(h, p)
  {
    hide Valid, Earned, Deposited, DepositedVested, Withdrawn, Allowed, Period;
    HappenedValid(h, e);
    TimePasses(h.v, h.now, e.at);
    EarnedGrows(h.v, h.now, e.at);
    var p := Period(h.v.policy);
    EarnedAfter(h.v, e.at, e.amount);
    match e
    case Deposit(at, x) =>
    case DepositVested(at, x) =>
      assert (h.vested + x) * p == h.vested * p + x * p;
    case Withdraw(at, x) =>
      assert (h.withdrawn + x) * p == h.withdrawn * p + x * p;
  }

  // Right after an operation nothing more than the recorded coin-seconds is earned.
  lemma EarnedAfter(v: Vested, now: nat, x: nat)
    requires Valid(v, now) && v.policy.CoinSeconds?
    ensures Earned(Deposited(v, now, x), now) == Earned(v, now)
    ensures Earned(DepositedVested(v, now, x), now) == Earned(v, now) + x * Period(v.policy)
    ensures x <= Allowed(v, now) ==> Earned(Withdrawn(v, now, x), now) == Earned(v, now) - x * Period(v.policy)
  {
    DepositValid(v, now, x);
    NoTimeNothingEarned(Deposited(v, now, x));
    NoTimeNothingEarned(DepositedVested(v, now, x));
    if x <= Allowed(v, now) {
      WithdrawValid(v, now, x);
      NoTimeNothingEarned(Withdrawn(v, now, x));
    }
  }

  // Over any run, all that was withdrawn, times the period, is covered by the balance held over time,
  // what was deposited as vested, and what was earned before.
  lemma {:induction false} WithdrawalsCovered(h: History, events: seq<Event>)
    requires Valid(h.v, h.now) && h.v.policy.CoinSeconds? && InOrder(h.now, events)
    ensures var t := Run(h, events);
            var p := Period(h.v.policy);
            && Valid(t.v, t.now) && t.v.policy.CoinSeconds? && Period(t.v.policy) == p
            && (t.withdrawn - h.withdrawn) * p + Earned(t.v, t.now)
               <= Earned(h.v, h.now) + (t.held - h.held) + (t.vested - h.vested) * p
    decreases |events|
  {
    hide Valid, Earned, Happened, Period;
    var p := Period(h.v.policy);
    if events != [] {
      var m := Happened(h, events[0]);
      WithinBudgetStep(h, events[0]);
      WithdrawalsCovered(m, events[1..]);
      var t := Run(h, events);
      assert t == Run(m, events[1..]);
      assert (t.withdrawn - m.withdrawn) * p == t.withdrawn * p - m.withdrawn * p;
      assert (t.withdrawn - h.withdrawn) * p == t.withdrawn * p - h.withdrawn * p;
      assert (t.vested - m.vested) * p == t.vested * p - m.vested * p;
      assert (t.vested - h.vested) * p == t.vested * p - h.vested * p;
    }
  }

  // ---------- every unit goes in and out once ----------

  function AllDeposited(events: seq<Event>): nat {
    if events == [] then 0
    else (if events[0].Withdraw? then 0 else events[0].amount) + AllDeposited(events[1..])
  }

  lemma HappenedBalance(h: History, e: Event)
    requires Valid(h.v, h.now) && h.v.policy.CoinSeconds? && h.now <= e.at
    ensures var t := Happened(h, e);
            && t.now == e.at
            && t.v.balance + t.withdrawn == h.v.balance + h.withdrawn + if e.Withdraw? then 0 else e.amount
  {
    hide Valid, Earned, Deposited, DepositedVested, Withdrawn, Allowed;
    TimePasses(h.v, h.now, e.at);
    BalancesMove(h.v, e.at, e.amount);
  }

  // Over any run, what is left and what was withdrawn make up what was there and all that was deposited.
  lemma {:induction false} DepositsAreWithdrawnOnce(h: History, events: seq<Event>)
    requires Valid(h.v, h.now) && h.v.policy.CoinSeconds? && InOrder(h.now, events)
    ensures var t := Run(h, events);
            t.v.balance + (t.withdrawn - h.withdrawn) == h.v.balance + AllDeposited(events)
    decreases |events|
  {
    hide Valid, Happened;
    if events != [] {
      HappenedValid(h, events[0]);
      HappenedBalance(h, events[0]);
      DepositsAreWithdrawnOnce(Happened(h, events[0]), events[1..]);
    }
  }

  // ---------- the object as the node updates it ----------

  class VestingBalance {
    var balance: nat
    var policy: Policy

    ghost function V(): Vested
      reads this
    {
      Vested(balance, policy)
    }

    method UpdateCoinSeconds(now: nat)
      requires policy.CoinSeconds? && policy.updated <= now
      modifies `policy
      ensures V() == Updated(old(V()), now)
    {
      var delta := balance * (now - policy.updated);
      var cap := balance * Period(policy);
      policy := policy.(earned := if policy.earned + delta <= cap then policy.earned + delta else cap, updated := now);
    }

    method MakeDeposit(now: nat, amount: nat)
      requires Valid(V(), now)
      modifies this
      ensures V() == Deposited(old(V()), now, amount)
      ensures policy.CoinSeconds? ==> Valid(V(), now)
    {
      if policy.CoinSeconds? {
        DepositValid(V(), now, amount);
        UpdateCoinSeconds(now);
      }
      balance := balance + amount;
    }

    // A linear balance refuses.
    method MakeVestedDeposit(now: nat, amount: nat) returns (ok: bool)
      requires Valid(V(), now)
      modifies this
      ensures ok <==> old(policy).CoinSeconds?
      ensures if ok then V() == DepositedVested(old(V()), now, amount) && Valid(V(), now) else V() == old(V())
    {
      if policy.Linear? {
        return false;
      }
      DepositValid(V(), now, amount);
      UpdateCoinSeconds(now);
      policy := policy.(earned := policy.earned + amount * Period(policy));
      balance := balance + amount;
      ok := true;
    }

    method AllowedWithdrawal(now: nat) returns (x: nat)
      requires Valid(V(), now)
      ensures x == Allowed(V(), now) && x <= balance
    {
      AllowedWithin(V(), now, Allowed(V(), now));
      match policy
      case CoinSeconds(_, earned, startClaim, updated) =>
        if now <= startClaim {
          return 0;
        }
        var grown, cap := earned + balance * (now - updated), balance * Period(policy);
        x := (if grown <= cap then grown else cap) / Period(policy);
      case Linear(begin, cliff, duration, beginBalance) =>
        x := 0;
        if now > begin && now - begin >= cliff {
          var vested := beginBalance;
          if now - begin < duration {
            vested := beginBalance * (now - begin) / duration;
          }
          x := vested - (beginBalance - balance);
        }
    }

    method MakeWithdrawal(now: nat, amount: nat) returns (ok: bool)
      requires Valid(V(), now)
      modifies this
      ensures ok <==> amount <= Allowed(old(V()), now)
      ensures if ok then V() == Withdrawn(old(V()), now, amount) && Valid(V(), now) else V() == old(V())
    {
      var allowed := AllowedWithdrawal(now);
      if amount > allowed {
        return false;
      }
      AllowedWithin(V(), now, amount);
      WithdrawValid(V(), now, amount);
      if policy.CoinSeconds? {
        UpdateCoinSeconds(now);
        policy := policy.(earned := policy.earned - amount * Period(policy));
      }
      balance := balance - amount;
      ok := true;
    }
  }

  // A linear balance accepts deposits although its terms say it does not; the next look at the allowance
  // stays within its asserts exactly if no more was put in than had been taken out.
  lemma LinearDepositValidIff(v: Vested, now: nat, x: nat)
    requires Valid(v, now) && v.policy.Linear?
    ensures Valid(Deposited(v, now, x), now) <==> x <= v.policy.beginBalance - v.balance
  {
    LinearAtMost(v.policy, now);
  }
}

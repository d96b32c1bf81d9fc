// Fees, budgets and pay: what moves core at maintenance, against its recorded supply.
// Source: libraries/chain/db_maint.cpp:235-276, 439-584, 644-722, libraries/chain/account_object.cpp:32-111,
// libraries/chain/worker_evaluator.cpp:106-126, libraries/chain/db_balance.cpp:81-180,
// libraries/chain/db_update.cpp:102-122.
module Maintenance {
  import opened Arithmetic
  import opened Config
  import opened Totals

  const CYCLE_RATE: nat := 17
  const CYCLE_SCALE: nat := 0x1_0000_0000
  const SECONDS_PER_DAY: nat := 86400
  const CHAIN_ACCOUNTS: nat := 5
  const NULL_ACCOUNT: nat := 3

  // ---------- shares of an amount ----------

  function CutFee(a: nat, percent: nat): nat {
    if a == 0 || percent == 0 then 0
    else if percent == HUNDRED_PERCENT then a
    else a * percent / HUNDRED_PERCENT
  }

  lemma CutFeeAtMost(a: nat, percent: nat)
    requires percent <= HUNDRED_PERCENT
    ensures CutFee(a, percent) * HUNDRED_PERCENT <= a * percent && CutFee(a, percent) <= a
  {
    if a > 0 && percent > 0 {
      FloorBounds(a, percent, HUNDRED_PERCENT);
      MulMonotone(percent, HUNDRED_PERCENT, a);
      CancelFactor(a * percent / HUNDRED_PERCENT, a, HUNDRED_PERCENT);
    }
  }

  // Two cuts of one amount fit into it if their percentages do.
  lemma TwoCutsFit(a: nat, p: nat, q: nat)
    requires p + q <= HUNDRED_PERCENT
    ensures CutFee(a, p) + CutFee(a, q) <= a
  {
    CutFeeAtMost(a, p);
    CutFeeAtMost(a, q);
    Distribute(p, q, a);
    MulMonotone(p + q, HUNDRED_PERCENT, a);
    CancelFactor(CutFee(a, p) + CutFee(a, q), a, HUNDRED_PERCENT);
  }

  // The share of an amount in whole units, rounded down.
  predicate IsCut(x: nat, a: nat, percent: nat) {
    x * HUNDRED_PERCENT <= a * percent < (x + 1) * HUNDRED_PERCENT
  }

  lemma CutFeeIff(a: nat, percent: nat, x: nat)
    ensures x == CutFee(a, percent) <==> IsCut(x, a, percent)
  {
    CutIsShare(a, percent);
    FloorIff(a * percent, HUNDRED_PERCENT, x);
  }

  // ---------- the budget ----------

  // The share of the reserve that may be spent after `elapsed` seconds, rounded up.
  function TotalBudget(reserve: nat, elapsed: nat): nat {
    if elapsed == 0 then 0
    else
      var share := (reserve * elapsed * CYCLE_RATE + (CYCLE_SCALE - 1)) / CYCLE_SCALE;
      if share < reserve then share else reserve
  }

  // The budget stays within the reserve, and no part of the reserve is out of reach.
  lemma BudgetWithinReserve(reserve: nat, elapsed: nat)
    ensures TotalBudget(reserve, elapsed) <= reserve
    ensures reserve > 0 && elapsed > 0 ==> TotalBudget(reserve, elapsed) > 0
  {
    if reserve > 0 && elapsed > 0 {
      MulAtLeast(reserve, elapsed);
      RoundedUp(reserve * elapsed * CYCLE_RATE, CYCLE_SCALE);
    }
  }

  lemma RoundedUp(x: nat, d: nat)
    requires x > 0 && d > 0
    ensures (x + (d - 1)) / d >= 1
  {
  }

  // The smallest number of whole units that is no less than 17 / 2^32 of the reserve for each second, or all of
  // the reserve.
  predicate IsBudget(x: nat, reserve: nat, elapsed: nat) {
    && x <= reserve
    && (x > 0 ==> (x - 1) * 0x1_0000_0000 < reserve * elapsed * 17)
    && (x < reserve ==> reserve * elapsed * 17 <= x * 0x1_0000_0000)
  }

  lemma TotalBudgetIff(reserve: nat, elapsed: nat, x: nat)
    ensures x == TotalBudget(reserve, elapsed) <==> IsBudget(x, reserve, elapsed)
  {
    var n := reserve * elapsed * CYCLE_RATE;
    var share := (n + (CYCLE_SCALE - 1)) / CYCLE_SCALE;
    FloorBounds(n + (CYCLE_SCALE - 1), 1, CYCLE_SCALE);
    assert elapsed == 0 ==> n == 0;
    if x > 0 && (x - 1) * CYCLE_SCALE < n {
      LessFactor(x - 1, share, CYCLE_SCALE);
    }
    if n <= x * CYCLE_SCALE && share > 0 {
      LessFactor(share - 1, x, CYCLE_SCALE);
    }
  }

  // ---------- workers ----------

  datatype WorkerKind = Refund | VestingWorker(account: nat) | Burn

  datatype Worker = Worker(kind: WorkerKind, dailyPay: nat)

  function Requested(w: Worker, elapsed: nat): nat {
    if elapsed == SECONDS_PER_DAY then w.dailyPay else w.dailyPay * elapsed / SECONDS_PER_DAY
  }

  function Asked(workers: seq<Worker>, elapsed: nat): nat {
    if workers == [] then 0 else Asked(workers[..|workers| - 1], elapsed) + Requested(workers[|workers| - 1], elapsed)
  }

  // What a worker asks for: its daily pay for each day, in whole units.
  lemma RequestedIff(w: Worker, elapsed: nat, x: nat)
    ensures x == Requested(w, elapsed) <==>
            x * SECONDS_PER_DAY <= w.dailyPay * elapsed < (x + 1) * SECONDS_PER_DAY
  {
    FloorIff(w.dailyPay * elapsed, SECONDS_PER_DAY, x);
    DivExact(w.dailyPay, SECONDS_PER_DAY);
  }

  // ---------- the core asset ----------

  datatype FeeSplit = FeeSplit(network: nat, lifetime: nat, referrerRewards: nat, lifetimeReferrer: nat, referrer: nat,
                               registrar: nat)

  ghost predicate ValidSplit(f: FeeSplit) {
    f.network + f.lifetime <= HUNDRED_PERCENT && f.referrerRewards <= HUNDRED_PERCENT
  }

  function At(m: map<nat, nat>, k: nat): nat {
    if k in m then m[k] else 0
  }

  ghost function Sum(m: map<nat, nat>): int {
    Total(m, (k: nat, x: nat) => x)
  }

  lemma SumUpdate(m: map<nat, nat>, k: nat, x: nat)
    ensures Sum(m[k := x]) == Sum(m) - At(m, k) + x
  {
    TotalUpdate(m, k, x, (k: nat, x: nat) => x);
  }

  // ---------- who is paid what ----------

  // Supply, vesting balances and account balances of core.
  datatype Core = Core(supply: int, vesting: map<nat, nat>, balances: map<nat, nat>)

  function Credited(m: map<nat, nat>, a: nat, x: nat): map<nat, nat> {
    if x == 0 then m else m[a := At(m, a) + x]
  }

  // What is held beyond the supply.
  ghost function Excess(c: Core): int {
    Sum(c.vesting) + Sum(c.balances) - c.supply
  }

  lemma CreditedSum(m: map<nat, nat>, a: nat, x: nat)
    ensures Sum(Credited(m, a, x)) == Sum(m) + x
  {
    SumUpdate(m, a, At(m, a) + x);
  }

  // Cashback vests, except that of the chain's own accounts, which goes back to the reserve.
  function Cashback(c: Core, a: nat, x: nat): Core {
    if x == 0 then c
    else if a < CHAIN_ACCOUNTS then c.(supply := c.supply - x)
    else c.(vesting := Credited(c.vesting, a, x))
  }

  lemma CashbackEffect(c: Core, a: nat, x: nat)
    ensures var d := Cashback(c, a, x); Excess(d) == Excess(c) + x && c.supply - x <= d.supply <= c.supply
  {
    CreditedSum(c.vesting, a, x);
  }

  // What the network does not keep goes to the lifetime referrer, the referrer and the registrar.
  function FeesPaid(c: Core, total: nat, f: FeeSplit): Core
    requires ValidSplit(f)
  {
    TwoCutsFit(total, f.network, f.lifetime);
    var referral := total - CutFee(total, f.network) - CutFee(total, f.lifetime);
    CutFeeAtMost(referral, f.referrerRewards);
    var cut := CutFee(referral, f.referrerRewards);
    Cashback(Cashback(Cashback(c, f.lifetimeReferrer, CutFee(total, f.lifetime)), f.referrer, cut), f.registrar,
      referral - cut)
  }

  // Nothing of a fee is lost in the rounding.
  lemma FeesPaidEffect(c: Core, total: nat, f: FeeSplit)
    requires ValidSplit(f)
    ensures var d := FeesPaid(c, total, f);
            Excess(d) + CutFee(total, f.network) == Excess(c) + total && d.supply <= c.supply
  {
    hide Cashback, Excess, CutFee;
    TwoCutsFit(total, f.network, f.lifetime);
    var referral := total - CutFee(total, f.network) - CutFee(total, f.lifetime);
    CutFeeAtMost(referral, f.referrerRewards);
    var cut := CutFee(referral, f.referrerRewards);
    var d := Cashback(c, f.lifetimeReferrer, CutFee(total, f.lifetime));
    CashbackEffect(c, f.lifetimeReferrer, CutFee(total, f.lifetime));
    CashbackEffect(d, f.referrer, cut);
    CashbackEffect(Cashback(d, f.referrer, cut), f.registrar, referral - cut);
  }

  function WorkerPaid(c: Core, w: Worker, pay: nat): Core {
    match w.kind
    case Refund => c.(supply := c.supply - pay)
    case VestingWorker(a) => c.(vesting := Credited(c.vesting, a, pay))
    case Burn => c.(balances := Credited(c.balances, NULL_ACCOUNT, pay))
  }

  // Workers are paid in order as far as the budget goes; what is left is the second result.
  function WorkersPaid(c: Core, workers: seq<Worker>, budget: nat, elapsed: nat): (Core, nat) {
    if workers == [] then (c, budget)
    else
      var r := WorkersPaid(c, workers[..|workers| - 1], budget, elapsed);
      var pay := Least(r.1, Requested(workers[|workers| - 1], elapsed));
      (if r.1 == 0 then r.0 else WorkerPaid(r.0, workers[|workers| - 1], pay), r.1 - pay)
  }

  lemma {:induction false} WorkersPaidEffect(c: Core, workers: seq<Worker>, budget: nat, elapsed: nat)
    ensures var r := WorkersPaid(c, workers, budget, elapsed);
            && r.1 == (if Asked(workers, elapsed) <= budget then budget - Asked(workers, elapsed) else 0)
            && Excess(r.0) == Excess(c) + (budget - r.1)
            && c.supply - (budget - r.1) <= r.0.supply <= c.supply
  {
    hide Requested, Sum;
    if workers != [] {
      var last := workers[|workers| - 1];
      var r := WorkersPaid(c, workers[..|workers| - 1], budget, elapsed);
      WorkersPaidEffect(c, workers[..|workers| - 1], budget, elapsed);
      var pay := Least(r.1, Requested(last, elapsed));
      CreditedSum(r.0.balances, NULL_ACCOUNT, pay);
      if last.kind.VestingWorker? {
        CreditedSum(r.0.vesting, last.kind.account, pay);
      }
    }
  }

  lemma {:induction false} NothingLeftToPay(c: Core, workers: seq<Worker>, i: nat, budget: nat, elapsed: nat)
    requires i <= |workers| && WorkersPaid(c, workers[..i], budget, elapsed).1 == 0
    ensures WorkersPaid(c, workers, budget, elapsed) == WorkersPaid(c, workers[..i], budget, elapsed)
    decreases |workers| - i
  {
    hide Requested;
    if i == |workers| {
      assert workers[..i] == workers;
    } else {
      assert workers[..i + 1][..i] == workers[..i];
      NothingLeftToPay(c, workers, i + 1, budget, elapsed);
    }
  }

  // ---------- each account ----------

  lemma CashbackPays(c: Core, a: nat, x: nat)
    ensures var d := Cashback(c, a, x);
            && d.balances == c.balances
            && d.supply == c.supply - (if a < CHAIN_ACCOUNTS then x else 0)
            && forall b: nat ::
                 At(d.vesting, b) == At(c.vesting, b) + if b == a && a >= CHAIN_ACCOUNTS then x else 0
  {
  }

  // What an account is due of a fee, by the parts it plays.
  function Due(f: FeeSplit, lifetime: nat, referrer: nat, registrar: nat, a: nat): nat {
    (if a == f.lifetimeReferrer then lifetime else 0) + (if a == f.referrer then referrer else 0)
    + (if a == f.registrar then registrar else 0)
  }

  // The network's and the lifetime referrer's percentages are taken of the whole fee, the referrer's of the
  // rest, and the registrar has what is left; the first five accounts' parts leave the supply instead.
  lemma FeesArePaid(c: Core, total: nat, f: FeeSplit, network: nat, lifetime: nat, referrer: nat)
    requires ValidSplit(f) && IsCut(network, total, f.network) && IsCut(lifetime, total, f.lifetime)
    requires network + lifetime <= total && IsCut(referrer, total - network - lifetime, f.referrerRewards)
    ensures referrer <= total - network - lifetime
    ensures var d := FeesPaid(c, total, f);
            var registrar := total - network - lifetime - referrer;
            && d.balances == c.balances
            && (forall a: nat :: a >= CHAIN_ACCOUNTS ==>
                                   At(d.vesting, a) == At(c.vesting, a) + Due(f, lifetime, referrer, registrar, a))
            && (forall a: nat :: a < CHAIN_ACCOUNTS ==> At(d.vesting, a) == At(c.vesting, a))
            && d.supply == c.supply - (if f.lifetimeReferrer < CHAIN_ACCOUNTS then lifetime else 0)
                           - (if f.referrer < CHAIN_ACCOUNTS then referrer else 0)
                           - (if f.registrar < CHAIN_ACCOUNTS then registrar else 0)
  {
    hide CutFee, Cashback, IsCut, At;
    CutFeeIff(total, f.network, network);
    CutFeeIff(total, f.lifetime, lifetime);
    var referral := total - network - lifetime;
    CutFeeIff(referral, f.referrerRewards, referrer);
    CutFeeAtMost(referral, f.referrerRewards);
    var c1 := Cashback(c, f.lifetimeReferrer, lifetime);
    CashbackPays(c, f.lifetimeReferrer, lifetime);
    CashbackPays(c1, f.referrer, referrer);
    CashbackPays(Cashback(c1, f.referrer, referrer), f.registrar, referral - referrer);
  }

  // What the budget leaves for the i-th worker, at most what it asks for.
  function PayOf(workers: seq<Worker>, i: nat, budget: nat, elapsed: nat): nat
    requires i < |workers|
  {
    var before := Asked(workers[..i], elapsed);
    if before >= budget then 0 else Least(budget - before, Requested(workers[i], elapsed))
  }

  // The pay of the workers of one kind among the first n.
  function PayOfKind(workers: seq<Worker>, n: nat, kind: WorkerKind, budget: nat, elapsed: nat): nat
    requires n <= |workers|
  {
    if n == 0 then 0
    else
      PayOfKind(workers, n - 1, kind, budget, elapsed)
      + if workers[n - 1].kind == kind then PayOf(workers, n - 1, budget, elapsed) else 0
  }

  lemma {:induction false} PayOfKindPrefix(workers: seq<Worker>, m: nat, n: nat, kind: WorkerKind, budget: nat,
                                           elapsed: nat)
    requires n <= m <= |workers|
    ensures PayOfKind(workers[..m], n, kind, budget, elapsed) == PayOfKind(workers, n, kind, budget, elapsed)
  {
    hide PayOf;
    if n > 0 {
      PayOfKindPrefix(workers, m, n - 1, kind, budget, elapsed);
      PayOfPrefix(workers, m, n - 1, budget, elapsed);
    }
  }

  lemma PayOfPrefix(workers: seq<Worker>, m: nat, i: nat, budget: nat, elapsed: nat)
    requires i < m <= |workers|
    ensures PayOf(workers[..m], i, budget, elapsed) == PayOf(workers, i, budget, elapsed)
  {
    assert workers[..m][..i] == workers[..i];
  }

  lemma WorkerPays(c: Core, w: Worker, pay: nat, a: nat)
    ensures var d := WorkerPaid(c, w, pay);
            && At(d.vesting, a) == At(c.vesting, a) + (if w.kind == VestingWorker(a) then pay else 0)
            && At(d.balances, a) == At(c.balances, a) + (if w.kind.Burn? && a == NULL_ACCOUNT then pay else 0)
            && d.supply == c.supply - if w.kind.Refund? then pay else 0
  {
  }

  // Every account's vesting balance gains the pay of its own workers, in the order of the workers as far as the
  // budget goes; the null account gains that of the burning workers, and the supply loses that of the others.
  lemma {:induction false} WorkersArePaid(c: Core, workers: seq<Worker>, budget: nat, elapsed: nat, a: nat)
    ensures var d := WorkersPaid(c, workers, budget, elapsed).0;
            && At(d.vesting, a)
               == At(c.vesting, a) + PayOfKind(workers, |workers|, VestingWorker(a), budget, elapsed)
            && At(d.balances, a)
               == At(c.balances, a)
                  + (if a == NULL_ACCOUNT then PayOfKind(workers, |workers|, Burn, budget, elapsed) else 0)
            && d.supply == c.supply - PayOfKind(workers, |workers|, Refund, budget, elapsed)
  {
    hide Requested, WorkerPaid, At;
    if workers != [] {
      var n := |workers| - 1;
      var r := WorkersPaid(c, workers[..n], budget, elapsed);
      WorkersPaidEffect(c, workers[..n], budget, elapsed);
      WorkersArePaid(c, workers[..n], budget, elapsed, a);
      PayOfKindPrefix(workers, n, n, VestingWorker(a), budget, elapsed);
      PayOfKindPrefix(workers, n, n, Burn, budget, elapsed);
      PayOfKindPrefix(workers, n, n, Refund, budget, elapsed);
      var pay := Least(r.1, Requested(workers[n], elapsed));
      assert pay == PayOf(workers, n, budget, elapsed);
      WorkerPays(r.0, workers[n], pay, a);
    }
  }

  class CoreAsset {
    var supply: int
    var maxSupply: nat
    var accumulatedFees: nat
    var witnessBudget: nat
    var lastBudgetTime: nat
    var balances: map<nat, nat>
    var vesting: map<nat, nat>
    var pendingFees: map<nat, nat>
    var pendingVestedFees: map<nat, nat>
    var buybackFees: map<nat, nat>

    ghost function C(): Core
      reads this
    {
      Core(supply, vesting, balances)
    }

    // Everything that holds core, less the supply.
    ghost function Surplus(): int
      reads this
    {
      Excess(C()) + Sum(pendingFees) + Sum(pendingVestedFees) + Sum(buybackFees) + accumulatedFees + witnessBudget
    }

    ghost predicate Valid()
      reads this
    {
      supply <= maxSupply
    }

    // ---------- fees ----------

    method DepositCashback(a: nat, amount: nat)
      modifies `supply, `vesting
      ensures C() == Cashback(old(C()), a, amount)
    {
      if amount == 0 {
        return;
      }
      if a < CHAIN_ACCOUNTS {
        supply := supply - amount;
        return;
      }
      vesting := vesting[a := (if a in vesting then vesting[a] else 0) + amount];
    }

    method PayOutFees(total: nat, f: FeeSplit)
      requires ValidSplit(f)
      modifies `supply, `vesting, `accumulatedFees
      ensures C() == FeesPaid(old(C()), total, f)
      ensures accumulatedFees == old(accumulatedFees) + CutFee(total, f.network)
    {
      hide Cashback, CutFee;
      var networkCut, lifetimeCut := CutFee(total, f.network), CutFee(total, f.lifetime);
      TwoCutsFit(total, f.network, f.lifetime);
      var referral := total - networkCut - lifetimeCut;
      accumulatedFees := accumulatedFees + networkCut;
      var referrerCut := CutFee(referral, f.referrerRewards);
      CutFeeAtMost(referral, f.referrerRewards);
      DepositCashback(f.lifetimeReferrer, lifetimeCut);
      DepositCashback(f.referrer, referrerCut);
      DepositCashback(f.registrar, referral - referrerCut);
    }

    // The account's pending fees are paid out, those that must vest first.
    method ProcessFees(a: nat, f: FeeSplit)
      requires ValidSplit(f) && Valid()
      modifies this
      ensures Valid() && Surplus() == old(Surplus())
      ensures At(pendingFees, a) == 0 && At(pendingVestedFees, a) == 0
      ensures C() == FeesPaid(FeesPaid(old(C()), At(old(pendingFees), a), f), At(old(pendingVestedFees), a), f)
      ensures forall b :: b != a ==>
                At(pendingFees, b) == At(old(pendingFees), b)
                && At(pendingVestedFees, b) == At(old(pendingVestedFees), b)
      ensures buybackFees == old(buybackFees) && witnessBudget == old(witnessBudget)
              && maxSupply == old(maxSupply) && lastBudgetTime == old(lastBudgetTime)
    {
      hide FeesPaid, Excess, Sum, CutFee;
      var fees, vested :=
        if a in pendingFees then pendingFees[a] else 0, if a in pendingVestedFees then pendingVestedFees[a] else 0;
      NoFees(C(), f);
      if fees > 0 || vested > 0 {
        FeesPaidEffect(C(), fees, f);
        PayOutFees(fees, f);
        FeesPaidEffect(C(), vested, f);
        PayOutFees(vested, f);
        SumUpdate(pendingFees, a, 0);
        SumUpdate(pendingVestedFees, a, 0);
        pendingFees := pendingFees[a := 0];
        pendingVestedFees := pendingVestedFees[a := 0];
      }
    }

    method Deposit(a: nat, amount: nat)
      modifies `balances
      ensures balances == Credited(old(balances), a, amount)
    {
      if amount > 0 {
        balances := balances[a := (if a in balances then balances[a] else 0) + amount];
      }
    }

    // A fee accumulator is shared out to the buyback account and the issuer; the rest, and rounding, leaves the supply.
    method SplitBuybackFees(fba: nat, configured: bool, buyback: nat, issuer: nat, buybackPercent: nat,
                            issuerPercent: nat)
      requires Valid() && buybackPercent + issuerPercent <= HUNDRED_PERCENT
      modifies this
      ensures Valid() && Surplus() == old(Surplus()) && At(buybackFees, fba) == 0
      ensures forall b :: b != fba ==> At(buybackFees, b) == At(old(buybackFees), b)
      ensures var all := At(old(buybackFees), fba);
              var x, y :=
                if configured then CutFee(all, buybackPercent) else 0,
                if configured then CutFee(all, issuerPercent) else 0;
              && supply == old(supply) - (all - x - y)
              && balances == Credited(Credited(old(balances), buyback, x), issuer, y)
      ensures maxSupply == old(maxSupply) && vesting == old(vesting) && accumulatedFees == old(accumulatedFees)
              && witnessBudget == old(witnessBudget) && pendingFees == old(pendingFees)
                && pendingVestedFees == old(pendingVestedFees)
    {
      hide Sum;
      var all := if fba in buybackFees then buybackFees[fba] else 0;
      if all == 0 {
        return;
      }
      if !configured {
        supply := supply - all;
      } else {
        var buybackAmount, issuerAmount := all * buybackPercent / HUNDRED_PERCENT,
          all * issuerPercent / HUNDRED_PERCENT;
        CutIsShare(all, buybackPercent);
        CutIsShare(all, issuerPercent);
        TwoCutsFit(all, buybackPercent, issuerPercent);
        supply := supply - (all - (buybackAmount + issuerAmount));
        CreditedSum(balances, buyback, buybackAmount);
        Deposit(buyback, buybackAmount);
        CreditedSum(balances, issuer, issuerAmount);
        Deposit(issuer, issuerAmount);
      }
      SumUpdate(buybackFees, fba, 0);
      buybackFees := buybackFees[fba := 0];
    }

    // ---------- pay ----------

    // A block's witness is paid from the budget set aside.
    method PayWitness(w: nat, perBlock: nat)
      requires Valid()
      modifies `witnessBudget, `vesting
      ensures Valid() && Surplus() == old(Surplus())
      ensures witnessBudget == old(witnessBudget) - Least(perBlock, old(witnessBudget))
      ensures vesting == Credited(old(vesting), w, Least(perBlock, old(witnessBudget)))
    {
      hide Sum;
      var pay := if perBlock <= witnessBudget then perBlock else witnessBudget;
      witnessBudget := witnessBudget - pay;
      CreditedSum(vesting, w, pay);
      if pay > 0 {
        vesting := vesting[w := (if w in vesting then vesting[w] else 0) + pay];
      }
    }

    method PayWorker(w: Worker, pay: nat)
      modifies `supply, `vesting, `balances
      ensures C() == WorkerPaid(old(C()), w, pay)
    {
      match w.kind
      case Refund =>
        supply := supply - pay;
      case VestingWorker(a) =>
        vesting := Credited(vesting, a, pay);
      case Burn =>
        Deposit(NULL_ACCOUNT, pay);
    }

    method PayWorkers(workers: seq<Worker>, budget: nat, elapsed: nat) returns (left: nat)
      modifies `supply, `vesting, `balances
      ensures (C(), left) == WorkersPaid(old(C()), workers, budget, elapsed)
    {
      hide WorkerPaid, Requested;
      left := budget;
      var i := 0;
      while i < |workers| && left > 0
        invariant i <= |workers|
        invariant (C(), left) == WorkersPaid(old(C()), workers[..i], budget, elapsed)
      {
        var requested := Requested(workers[i], elapsed);
        var pay := if left <= requested then left else requested;
        assert workers[..i + 1][..i] == workers[..i];
        PayWorker(workers[i], pay);
        left := left - pay;
        i := i + 1;
      }
      if left == 0 {
        NothingLeftToPay(old(C()), workers, i, budget, elapsed);
      }
      assert workers[..|workers|] == workers;
    }

    // The budget of one maintenance interval: what was collected goes back to the reserve, a share of the
    // reserve is set aside for witnesses and paid to workers, and the rest stays in the reserve.
    method ProcessBudget(now: nat, timeToMaintenance: nat, interval: nat, witnessPay: nat, workerPayPerDay: nat,
                         workers: seq<Worker>)
      returns (budget: nat)
      requires Valid() && timeToMaintenance > 0 && interval > 0
      modifies this
      ensures Valid() && Surplus() == old(Surplus())
      ensures var reserve := old(maxSupply - supply + accumulatedFees + witnessBudget);
              && reserve >= 0
              && budget == TotalBudget(
                   reserve,
                   if old(lastBudgetTime) == 0 || now <= old(lastBudgetTime) then 0 else now - old(lastBudgetTime))
              && witnessBudget == Least(witnessPay * ((timeToMaintenance + interval - 1) / interval), budget)
              && reserve - budget <= maxSupply - supply <= reserve - witnessBudget
              && var forWorkers := Least(workerPayPerDay * timeToMaintenance / SECONDS_PER_DAY, budget - witnessBudget);
                 var paid := WorkersPaid(old(C()), workers, forWorkers,
                                         if now >= old(lastBudgetTime) then now - old(lastBudgetTime) else 0);
                 && vesting == paid.0.vesting && balances == paid.0.balances
                 && supply == paid.0.supply + witnessBudget + forWorkers - paid.1
                              - old(accumulatedFees) - old(witnessBudget)
      ensures accumulatedFees == 0 && lastBudgetTime == now && maxSupply == old(maxSupply)
      ensures pendingFees == old(pendingFees) && pendingVestedFees == old(pendingVestedFees)
              && buybackFees == old(buybackFees)
    {
      hide Sum, TotalBudget, WorkersPaid;
      var reserve := maxSupply - supply + accumulatedFees + witnessBudget;
      var elapsed := if lastBudgetTime == 0 || now <= lastBudgetTime then 0 else now - lastBudgetTime;
      budget := TotalBudget(reserve, elapsed);
      BudgetWithinReserve(reserve, elapsed);
      var available := budget;
      var blocks := (timeToMaintenance + interval - 1) / interval;
      var forWitnesses := Least(witnessPay * blocks, available);
      available := available - forWitnesses;
      var forWorkers := Least(workerPayPerDay * timeToMaintenance / SECONDS_PER_DAY, available);
      var since := if now >= lastBudgetTime then now - lastBudgetTime else 0;
      WorkersPaidEffect(C(), workers, forWorkers, since);
      var left := PayWorkers(workers, forWorkers, since);
      supply := supply + forWitnesses + forWorkers - left - accumulatedFees - witnessBudget;
      accumulatedFees := 0;
      witnessBudget := forWitnesses;
      lastBudgetTime := now;
    }
  }

  lemma NoFees(c: Core, f: FeeSplit)
    requires ValidSplit(f)
    ensures FeesPaid(c, 0, f) == c
  {
    CutFeeAtMost(0, f.network);
  }

  lemma CutIsShare(a: nat, percent: nat)
    ensures CutFee(a, percent) == a * percent / HUNDRED_PERCENT
  {
    DivExact(a, HUNDRED_PERCENT);
  }
}

// A burn applied account by account behind a cursor, and earlier to an account that transfers first.
// Source: libraries/chain/deflation_evaluator.cpp:35-216, libraries/chain/transfer_evaluator.cpp:32-156,
// libraries/chain/db_deflation.cpp:89-114.
module Deflation {
  import opened Arithmetic
  import opened Options
  import opened Totals

  const RATE_SCALE: nat := 100_000_000
  const START_MARKER: nat := 8

  // `cleared`: charged ahead of the cursor, the amount is kept in `frozen` until the cursor comes by.
  datatype Record = Record(lastRound: nat, frozen: nat, cleared: bool)

  datatype Round = Round(rate: nat, lastAccount: nat, cursor: nat, closed: bool, total: nat)

  // For the specification only: who was charged in which round.
  datatype Charge = Charge(round: nat, account: nat, amount: nat)

  // Accounts are 0 .. nextAccount - 1; the rounds' ids are their positions.
  datatype Ledger = Ledger(
    balances: map<nat, nat>, records: map<nat, Record>, rounds: seq<Round>, nextAccount: nat, charges: seq<Charge>)

  function BalanceOf(l: Ledger, a: nat): nat {
    if a in l.balances then l.balances[a] else 0
  }

  predicate Running(l: Ledger) {
    |l.rounds| > 0 && !l.rounds[|l.rounds| - 1].closed
  }

  function Current(l: Ledger): nat
    requires Running(l)
  {
    |l.rounds| - 1
  }

  // The running round has not reached the account in any way.
  predicate Due(l: Ledger, a: nat) {
    Running(l) && (a !in l.records || (l.records[a].lastRound < Current(l) && !l.records[a].cleared))
  }

  function Share(balance: nat, rate: nat): nat {
    balance * rate / RATE_SCALE
  }

  function Owed(l: Ledger, a: nat): nat {
    if Due(l, a) then Share(BalanceOf(l, a), l.rounds[Current(l)].rate) else 0
  }

  // ---------- operations ----------

  // Freezes what the account owes, before any balance moves.
  function ChargeEarly(l: Ledger, a: nat): Ledger {
    if !Due(l, a) then l
    else
      var owed := Owed(l, a);
      var last := if a in l.records then l.records[a].lastRound else 0;
      l.(records := l.records[a := Record(last, owed, true)], charges := l.charges + [Charge(Current(l), a, owed)])
  }

  function Transferred(l: Ledger, from: nat, to: nat, amount: nat): Option<Ledger> {
    if from == to || amount == 0 || from >= l.nextAccount || to >= l.nextAccount then None
    else if BalanceOf(l, from) < amount + Owed(l, from) then None
    else
      var first := ChargeEarly(l, from);
      var second := ChargeEarly(first, to);
      var paid := l.balances[from := BalanceOf(l, from) - amount - Owed(l, from)];
      var left := BalanceOf(l, to) + amount - Owed(first, to);
      if left < 0 then None else Some(second.(balances := paid[to := left]))
  }

  function RoundOpened(l: Ledger, rate: nat, intervalPassed: bool): Option<Ledger> {
    if rate == 0 || rate >= RATE_SCALE || Running(l) || (|l.rounds| > 0 && !intervalPassed)
      || l.nextAccount <= START_MARKER then None
    else
      var rounds := if l.rounds == [] then [Round(0, START_MARKER, START_MARKER, true, 0)] else l.rounds;
      Some(l.(rounds := rounds + [Round(rate, l.nextAccount - 1, START_MARKER, false, 0)]))
  }

  // The cursor reaches an account: what was frozen goes to the round, or what it owes now.
  function AccountReached(l: Ledger, round: nat, a: nat): Option<Ledger> {
    if round >= |l.rounds| || l.rounds[round].closed || a != l.rounds[round].cursor then None
    else if a in l.records && l.records[a].lastRound >= round then None
    else
      var r := l.rounds[round];
      var early := a in l.records && l.records[a].cleared;
      var frozen := if a in l.records then l.records[a].frozen else 0;
      var owed := if early then 0 else Share(BalanceOf(l, a), r.rate);
      if owed > BalanceOf(l, a) then None
      else
        Some(Ledger(
          if owed > 0 then l.balances[a := BalanceOf(l, a) - owed] else l.balances,
          l.records[a := Record(round, 0, false)],
          l.rounds[round := r.(cursor := a + 1, total := r.total + owed + frozen, closed := a == r.lastAccount)],
          l.nextAccount,
          if early then l.charges else l.charges + [Charge(round, a, owed)]))
  }

  datatype Op = Transfer(from: nat, to: nat, amount: nat) | OpenRound(rate: nat, intervalPassed: bool)
    | Reach(round: nat, account: nat) | Register

  function Applied(l: Ledger, op: Op): Option<Ledger> {
    match op
    case Transfer(from, to, amount) => Transferred(l, from, to, amount)
    case OpenRound(rate, intervalPassed) => RoundOpened(l, rate, intervalPassed)
    case Reach(round, account) => AccountReached(l, round, account)
    case Register => Some(l.(nextAccount := l.nextAccount + 1))
  }

  // A failed operation changes nothing.
  function Step(l: Ledger, op: Op): Ledger {
    match Applied(l, op)
    case None => l
    case Some(t) => t
  }

  function Run(l: Ledger, ops: seq<Op>): Ledger {
    if ops == [] then l else Step(Run(l, ops[..|ops| - 1]), ops[|ops| - 1])
  }

  // ---------- conservation ----------

  ghost function Held(l: Ledger): int {
    Total(l.balances, (k: nat, x: nat) => x) + Total(l.records, (k: nat, r: Record) => r.frozen) + Collected(l.rounds)
  }

  ghost function Collected(rounds: seq<Round>): int {
    if rounds == [] then 0 else Collected(rounds[..|rounds| - 1]) + rounds[|rounds| - 1].total
  }

  lemma {:induction false} CollectedUpdate(rounds: seq<Round>, i: nat, r: Round)
    requires i < |rounds|
    ensures Collected(rounds[i := r]) == Collected(rounds) - rounds[i].total + r.total
  {
    var n := |rounds| - 1;
    if i < n {
      CollectedUpdate(rounds[..n], i, r);
      assert rounds[i := r][..n] == rounds[..n][i := r];
    } else {
      assert rounds[i := r][..n] == rounds[..n];
    }
  }

  lemma CollectedPush(rounds: seq<Round>, r: Round)
    ensures Collected(rounds + [r]) == Collected(rounds) + r.total
  {
    assert (rounds + [r])[..|rounds|] == rounds;
  }

  lemma SetBalance(l: Ledger, a: nat, x: nat)
    ensures Held(l.(balances := l.balances[a := x])) == Held(l) - BalanceOf(l, a) + x
  {
    TotalUpdate(l.balances, a, x, (k: nat, x: nat) => x);
  }

  lemma SetRecord(l: Ledger, a: nat, r: Record)
    ensures Held(l.(records := l.records[a := r]))
            == Held(l) - (if a in l.records then l.records[a].frozen else 0) + r.frozen
  {
    TotalUpdate(l.records, a, r, (k: nat, r: Record) => r.frozen);
  }

  lemma ShareAtMost(balance: nat, rate: nat)
    requires rate <= RATE_SCALE
    ensures Share(balance, rate) <= balance
  {
    assert balance * rate <= balance * RATE_SCALE;
  }

  // ---------- what holds in every reachable ledger ----------

  function Count(charges: seq<Charge>, round: nat, a: nat): nat {
    if charges == [] then 0
    else
      var last := charges[|charges| - 1];
      Count(charges[..|charges| - 1], round, a) + if last.round == round && last.account == a then 1 else 0
  }

  lemma CountPush(charges: seq<Charge>, c: Charge, round: nat, a: nat)
    ensures Count(charges + [c], round, a)
            == Count(charges, round, a) + if c.round == round && c.account == a then 1 else 0
  {
    assert (charges + [c])[..|charges|] == charges;
  }

  lemma {:induction false} CountNone(charges: seq<Charge>, round: nat, a: nat)
    requires forall i :: 0 <= i < |charges| ==> charges[i].round < round
    ensures Count(charges, round, a) == 0
  {
    if charges != [] {
      CountNone(charges[..|charges| - 1], round, a);
    }
  }

  predicate Passed(r: Round, a: nat) {
    START_MARKER <= a < r.cursor
  }

  ghost predicate RecordsSound(l: Ledger) {
    && (forall a <- l.records ::
          l.records[a].lastRound < |l.rounds| && (!l.records[a].cleared ==> l.records[a].frozen == 0))
    && (Running(l) ==> forall a ::
          if Passed(l.rounds[Current(l)], a)
          then a in l.records && l.records[a].lastRound == Current(l) && !l.records[a].cleared
          else a in l.records ==> l.records[a].lastRound < Current(l))
  }

  ghost predicate RoundsSound(l: Ledger) {
    && (forall i :: 0 <= i < |l.rounds| ==> l.rounds[i].rate < RATE_SCALE)
    && (forall i :: 0 <= i < |l.rounds| - 1 ==> l.rounds[i].closed)
    && (Running(l) ==>
         Current(l) > 0
         && START_MARKER <= l.rounds[Current(l)].cursor <= l.rounds[Current(l)].lastAccount < l.nextAccount)
  }

  ghost predicate ChargesSound(l: Ledger) {
    && (forall i :: 0 <= i < |l.charges| ==> l.charges[i].round < |l.rounds|)
    && (forall round: nat, a: nat :: Count(l.charges, round, a) <= 1)
    && (forall a: nat :: Due(l, a) ==> Count(l.charges, Current(l), a) == 0)
  }

  ghost predicate Inv(l: Ledger) {
    RecordsSound(l) && RoundsSound(l) && ChargesSound(l)
  }

  // Charging early adds as much to what is frozen as the account owes, and the account is due no more.
  lemma ChargeEarlyKeeps(l: Ledger, a: nat)
    requires Inv(l)
    ensures Inv(ChargeEarly(l, a)) && !Due(ChargeEarly(l, a), a)
    ensures Held(ChargeEarly(l, a)) == Held(l) + Owed(l, a)
    ensures Owed(l, a) <= BalanceOf(l, a)
    ensures forall b :: b != a ==> (Due(ChargeEarly(l, a), b) <==> Due(l, b))
  {
    hide Count, Share, Held;
    var t := ChargeEarly(l, a);
    if Due(l, a) {
      ShareAtMost(BalanceOf(l, a), l.rounds[Current(l)].rate);
      var c := Charge(Current(l), a, Owed(l, a));
      forall round: nat, b: nat
        ensures Count(t.charges, round, b) <= 1
        ensures Due(t, b) && round == Current(l) ==> Count(t.charges, round, b) == 0
      {
        CountPush(l.charges, c, round, b);
      }
      SetRecord(l, a, t.records[a]);
      HeldIgnoresCharges(l.(records := t.records), t.charges);
    }
  }

  lemma HeldIgnoresCharges(l: Ledger, charges: seq<Charge>)
    ensures Held(l.(charges := charges)) == Held(l)
  {
  }

  // A transfer conserves core: what the two accounts owe is frozen, not lost.
  lemma TransferKeeps(l: Ledger, from: nat, to: nat, amount: nat)
    requires Inv(l) && Transferred(l, from, to, amount).Some?
    ensures var t := Transferred(l, from, to, amount).value; Inv(t) && Held(t) == Held(l)
  {
    hide Count, Share, Held, Due, Owed, ChargesSound, RecordsSound;
    var first := ChargeEarly(l, from);
    var second := ChargeEarly(first, to);
    ChargeEarlyKeeps(l, from);
    ChargeEarlyKeeps(first, to);
    ChargeEarlyFrame(l, from);
    ChargeEarlyFrame(first, to);
    var x := BalanceOf(l, from) - amount - Owed(l, from);
    SetBalance(second, from, x);
    var paid := second.(balances := second.balances[from := x]);
    SetBalance(paid, to, BalanceOf(l, to) + amount - Owed(first, to));
    BalancesKeepInv(second, Transferred(l, from, to, amount).value);
  }

  lemma ChargeEarlyFrame(l: Ledger, a: nat)
    ensures var t := ChargeEarly(l, a); t == l.(records := t.records, charges := t.charges)
  {
  }

  lemma BalancesKeepInv(l: Ledger, t: Ledger)
    requires Inv(l) && t == l.(balances := t.balances)
    ensures Inv(t)
  {
    hide Count;
  }

  // The recipient can always bear what it owes.
  lemma TransferSucceedsIff(l: Ledger, from: nat, to: nat, amount: nat)
    requires Inv(l)
    ensures Transferred(l, from, to, amount).Some? <==>
            from != to && amount > 0 && from < l.nextAccount && to < l.nextAccount
              && BalanceOf(l, from) >= amount + Owed(l, from)
  {
    hide Count, Held, Owed;
    ChargeEarlyKeeps(l, from);
    ChargeEarlyFrame(l, from);
    ChargeEarlyKeeps(ChargeEarly(l, from), to);
  }

  lemma OpenKeeps(l: Ledger, rate: nat, intervalPassed: bool)
    requires Inv(l) && RoundOpened(l, rate, intervalPassed).Some?
    ensures var t := RoundOpened(l, rate, intervalPassed).value;
            Inv(t) && Held(t) == Held(l) && Running(t) && forall a: nat :: Count(t.charges, Current(t), a) == 0
  {
    hide Count;
    var t := RoundOpened(l, rate, intervalPassed).value;
    if l.rounds == [] {
      CollectedPush([], Round(0, START_MARKER, START_MARKER, true, 0));
    }
    CollectedPush(t.rounds[..|t.rounds| - 1], t.rounds[|t.rounds| - 1]);
    assert t.rounds[..|t.rounds| - 1] + [t.rounds[|t.rounds| - 1]] == t.rounds;
    forall a: nat
      ensures Count(t.charges, Current(t), a) == 0
    {
      CountNone(t.charges, Current(t), a);
    }
  }

  lemma ReachKeeps(l: Ledger, round: nat, a: nat)
    requires Inv(l) && AccountReached(l, round, a).Some?
    ensures var t := AccountReached(l, round, a).value; Inv(t) && Held(t) == Held(l)
  {
    hide Count, Share, Held;
    var t := AccountReached(l, round, a).value;
    ReachHeld(l, round, a);
    forall r: nat, b: nat
      ensures Count(t.charges, r, b) <= 1
      ensures Due(t, b) && r == Current(t) ==> Count(t.charges, r, b) == 0
    {
      if t.charges != l.charges {
        CountPush(l.charges, t.charges[|l.charges|], r, b);
      }
    }
  }

  lemma ReachHeld(l: Ledger, round: nat, a: nat)
    requires Inv(l) && AccountReached(l, round, a).Some?
    ensures Held(AccountReached(l, round, a).value) == Held(l)
  {
    hide Count, Share, RecordsSound, RoundsSound, ChargesSound;
    var t := AccountReached(l, round, a).value;
    if t.balances != l.balances {
      TotalUpdate(l.balances, a, t.balances[a], (k: nat, x: nat) => x);
    }
    TotalUpdate(l.records, a, Record(round, 0, false), (k: nat, r: Record) => r.frozen);
    CollectedUpdate(l.rounds, round, t.rounds[round]);
  }

  lemma StepKeeps(l: Ledger, op: Op)
    requires Inv(l)
    ensures Inv(Step(l, op)) && Held(Step(l, op)) == Held(l)
  {
    hide Transferred, RoundOpened, AccountReached, Count;
    if Applied(l, op).Some? {
      match op
      case Transfer(from, to, amount) => TransferKeeps(l, from, to, amount);
      case OpenRound(rate, intervalPassed) => OpenKeeps(l, rate, intervalPassed);
      case Reach(round, account) => ReachKeeps(l, round, account);
      case Register =>
    }
  }

  // Over any run core is conserved, and no account is ever charged twice in one round.
  lemma {:induction false} RunKeeps(l: Ledger, ops: seq<Op>)
    requires Inv(l)
    ensures Inv(Run(l, ops)) && Held(Run(l, ops)) == Held(l)
    ensures forall round: nat, a: nat :: Count(Run(l, ops).charges, round, a) <= 1
    decreases |ops|
  {
    hide Step, Held, RecordsSound, RoundsSound;
    if ops != [] {
      RunKeeps(l, ops[..|ops| - 1]);
      StepKeeps(Run(l, ops[..|ops| - 1]), ops[|ops| - 1]);
    }
  }

  // ---------- one round from opening to close ----------

  predicate Flagged(l: Ledger, a: nat) {
    a in l.records && l.records[a].cleared
  }

  // How often the round opened in `l0` has charged an account by the time the ledger is `l`.
  ghost predicate SinceOpened(l0: Ledger, l: Ledger)
    requires |l0.rounds| > 0
  {
    && |l.rounds| >= |l0.rounds|
    && (|l.rounds| == |l0.rounds| ==>
          var r := |l0.rounds| - 1;
          && l.rounds[r].lastAccount == l0.rounds[r].lastAccount
          && (l.rounds[r].closed ==> l.rounds[r].cursor == l.rounds[r].lastAccount + 1)
          && forall a: nat ::
               && (Flagged(l0, a) && !Passed(l.rounds[r], a) ==> Flagged(l, a))
               && Count(l.charges, r, a)
                  == if Flagged(l0, a) then 0 else if Passed(l.rounds[r], a) || Flagged(l, a) then 1 else 0)
  }

  lemma SinceChargeEarly(l0: Ledger, l: Ledger, a: nat)
    requires |l0.rounds| > 0 && Inv(l) && SinceOpened(l0, l)
    ensures SinceOpened(l0, ChargeEarly(l, a))
  {
    hide Count, Share;
    if Due(l, a) && |l.rounds| == |l0.rounds| {
      var t := ChargeEarly(l, a);
      forall b: nat
        ensures Count(t.charges, Current(l), b) == Count(l.charges, Current(l), b) + if b == a then 1 else 0
      {
        CountPush(l.charges, Charge(Current(l), a, Owed(l, a)), Current(l), b);
      }
    }
  }

  lemma SinceReach(l0: Ledger, l: Ledger, round: nat, a: nat)
    requires |l0.rounds| > 0 && Inv(l) && SinceOpened(l0, l) && AccountReached(l, round, a).Some?
    ensures SinceOpened(l0, AccountReached(l, round, a).value)
  {
    hide Count, Share;
    var t := AccountReached(l, round, a).value;
    if |l.rounds| == |l0.rounds| {
      assert round == |l.rounds| - 1;
      if t.charges != l.charges {
        forall b: nat
          ensures Count(t.charges, round, b) == Count(l.charges, round, b) + if b == a then 1 else 0
        {
          CountPush(l.charges, t.charges[|l.charges|], round, b);
        }
      }
    }
  }

  lemma SinceStep(l0: Ledger, l: Ledger, op: Op)
    requires |l0.rounds| > 0 && Inv(l) && SinceOpened(l0, l)
    ensures SinceOpened(l0, Step(l, op))
  {
    hide Count, Inv, ChargeEarly, AccountReached, Owed;
    if Applied(l, op).Some? {
      match op
      case Transfer(from, to, amount) =>
        ChargeEarlyKeeps(l, from);
        SinceChargeEarly(l0, l, from);
        SinceChargeEarly(l0, ChargeEarly(l, from), to);
      case OpenRound(rate, intervalPassed) =>
      case Reach(round, account) =>
        SinceReach(l0, l, round, account);
      case Register =>
    }
  }

  lemma {:induction false} SinceRun(l0: Ledger, ops: seq<Op>)
    requires |l0.rounds| > 0 && Inv(l0) && SinceOpened(l0, l0)
    ensures SinceOpened(l0, Run(l0, ops))
    decreases |ops|
  {
    hide Step, SinceOpened, Inv, Count;
    if ops != [] {
      SinceRun(l0, ops[..|ops| - 1]);
      RunKeeps(l0, ops[..|ops| - 1]);
      SinceStep(l0, Run(l0, ops[..|ops| - 1]), ops[|ops| - 1]);
    }
  }

  lemma SinceStart(l: Ledger, rate: nat, intervalPassed: bool)
    requires Inv(l) && RoundOpened(l, rate, intervalPassed).Some?
    ensures var l0 := RoundOpened(l, rate, intervalPassed).value;
            Inv(l0) && |l0.rounds| > 0 && SinceOpened(l0, l0) && l0.records == l.records
  {
    hide Count, Inv, Held;
    OpenKeeps(l, rate, intervalPassed);
    var l0 := RoundOpened(l, rate, intervalPassed).value;
    var k := |l0.rounds| - 1;
    forall a: nat
      ensures Count(l0.charges, k, a) == 0
    {
      assert Count(l0.charges, Current(l0), a) == 0;
    }
  }

  // When a round has closed, every account from the start marker to the last one was charged exactly once
  // in it if and only if it carried no flag from before the round; with a flag it was not charged at all.
  lemma ChargedOnceIffUnflagged(l: Ledger, rate: nat, intervalPassed: bool, ops: seq<Op>, a: nat)
    requires Inv(l) && RoundOpened(l, rate, intervalPassed).Some?
    requires var l0 := RoundOpened(l, rate, intervalPassed).value;
             var t := Run(l0, ops);
             |t.rounds| == |l0.rounds| && t.rounds[|t.rounds| - 1].closed
             && START_MARKER <= a <= l0.rounds[|l0.rounds| - 1].lastAccount
    ensures var t := Run(RoundOpened(l, rate, intervalPassed).value, ops);
            Count(t.charges, |t.rounds| - 1, a) == if Flagged(l, a) then 0 else 1
  {
    hide Count, Run, Inv;
    SinceStart(l, rate, intervalPassed);
    SinceRun(RoundOpened(l, rate, intervalPassed).value, ops);
  }

  // A flag outside the range of the round outlives the round: an account registered too late, or below the
  // start marker, that is charged early goes unpaid into the next round.
  lemma LateFlagStays(l: Ledger, rate: nat, intervalPassed: bool, ops: seq<Op>, a: nat)
    requires Inv(l) && RoundOpened(l, rate, intervalPassed).Some?
    requires var l0 := RoundOpened(l, rate, intervalPassed).value;
             var t := Run(l0, ops);
             |t.rounds| == |l0.rounds| && t.rounds[|t.rounds| - 1].closed
             && !(START_MARKER <= a <= l0.rounds[|l0.rounds| - 1].lastAccount)
    ensures var t := Run(RoundOpened(l, rate, intervalPassed).value, ops);
            Flagged(t, a) <==> Flagged(l, a) || Count(t.charges, |t.rounds| - 1, a) > 0
  {
    hide Count, Run, Inv;
    SinceStart(l, rate, intervalPassed);
    SinceRun(RoundOpened(l, rate, intervalPassed).value, ops);
  }

  // ---------- what every account pays ----------

  // The share in whole units, rounded down.
  predicate IsShare(x: nat, balance: nat, rate: nat) {
    x * RATE_SCALE <= balance * rate < (x + 1) * RATE_SCALE
  }

  lemma ShareIff(balance: nat, rate: nat, x: nat)
    ensures x == Share(balance, rate) <==> IsShare(x, balance, rate)
  {
    FloorIff(balance * rate, RATE_SCALE, x);
  }

  // What the running round takes from the account if it has neither passed it nor charged it early.
  predicate IsCharge(l: Ledger, a: nat, x: nat) {
    if |l.rounds| > 0 && !l.rounds[|l.rounds| - 1].closed
       && (a !in l.records || (l.records[a].lastRound < |l.rounds| - 1 && !l.records[a].cleared))
    then IsShare(x, BalanceOf(l, a), l.rounds[|l.rounds| - 1].rate)
    else x == 0
  }

  lemma OwedIff(l: Ledger, a: nat, x: nat)
    ensures x == Owed(l, a) <==> IsCharge(l, a, x)
  {
    hide Share, IsShare;
    if Due(l, a) {
      ShareIff(BalanceOf(l, a), l.rounds[Current(l)].rate, x);
    }
  }

  // An account charged early is charged the floor of its balance's share at that moment, and that is what is
  // frozen; the others, and all balances, stay as they are.
  lemma EarlyChargeIs(l: Ledger, a: nat, x: nat)
    requires Running(l) && IsCharge(l, a, x)
    ensures var t := ChargeEarly(l, a);
            && t.balances == l.balances && t.rounds == l.rounds && t.nextAccount == l.nextAccount
            && (forall b :: b != a && b in t.records ==> b in l.records && t.records[b] == l.records[b])
            && (forall b <- l.records :: b in t.records)
            && if a !in l.records || (l.records[a].lastRound < |l.rounds| - 1 && !l.records[a].cleared)
               then a in t.records && t.records[a].cleared && t.records[a].frozen == x
                    && t.charges == l.charges + [Charge(|l.rounds| - 1, a, x)]
               else t == l
  {
    hide Share, IsShare;
    OwedIff(l, a, x);
  }

  // A transfer takes the amount and its own charge from the sender, gives the amount less its charge to the
  // recipient, and moves no other balance.
  lemma TransferPays(l: Ledger, from: nat, to: nat, amount: nat, x: nat, y: nat)
    requires Inv(l) && IsCharge(l, from, x) && IsCharge(l, to, y)
    ensures Transferred(l, from, to, amount).Some? <==>
            from != to && amount > 0 && from < l.nextAccount && to < l.nextAccount && BalanceOf(l, from) >= amount + x
    ensures Transferred(l, from, to, amount).Some? ==>
              var t := Transferred(l, from, to, amount).value;
              && BalanceOf(t, from) == BalanceOf(l, from) - amount - x
              && BalanceOf(t, to) == BalanceOf(l, to) + amount - y
              && (forall b :: b != from && b != to ==> BalanceOf(t, b) == BalanceOf(l, b))
              && Charged(t.charges, from) == Charged(l.charges, from) + x
              && Charged(t.charges, to) == Charged(l.charges, to) + y
              && (forall b :: b != from && b != to ==> Charged(t.charges, b) == Charged(l.charges, b))
  {
    hide Inv, Share, IsCharge, Charged;
    OwedIff(l, from, x);
    OwedIff(l, to, y);
    TransferSucceedsIff(l, from, to, amount);
    if Transferred(l, from, to, amount).Some? {
      ChargeEarlyFrame(l, from);
      ChargeEarlyKeeps(l, from);
      var first := ChargeEarly(l, from);
      assert Owed(first, to) == y;
      forall b: nat
        ensures Charged(first.charges, b) == Charged(l.charges, b) + if b == from then x else 0
        ensures Charged(ChargeEarly(first, to).charges, b) == Charged(first.charges, b) + if b == to then y else 0
      {
        EarlyCharged(l, from, b);
        EarlyCharged(first, to, b);
      }
    }
  }

  // All that an account was ever charged.
  function Charged(charges: seq<Charge>, a: nat): nat {
    if charges == [] then 0
    else
      var last := charges[|charges| - 1];
      Charged(charges[..|charges| - 1], a) + if last.account == a then last.amount else 0
  }

  lemma ChargedPush(charges: seq<Charge>, c: Charge, a: nat)
    ensures Charged(charges + [c], a) == Charged(charges, a) + if c.account == a then c.amount else 0
  {
    assert (charges + [c])[..|charges|] == charges;
  }

  lemma EarlyCharged(l: Ledger, a: nat, b: nat)
    ensures Charged(ChargeEarly(l, a).charges, b) == Charged(l.charges, b) + if b == a then Owed(l, a) else 0
  {
    hide Share, Charged;
    if Due(l, a) {
      ChargedPush(l.charges, Charge(Current(l), a, Owed(l, a)), b);
    }
  }

  // The cursor charges an account that carries no flag the floor of its balance's share at that moment; from
  // one that does, the round collects what was frozen and takes nothing more.
  lemma ReachPays(l: Ledger, round: nat, a: nat, x: nat)
    requires Inv(l) && round < |l.rounds|
    requires if Flagged(l, a) then x == 0 else IsShare(x, BalanceOf(l, a), l.rounds[round].rate)
    ensures AccountReached(l, round, a).Some? <==> !l.rounds[round].closed && a == l.rounds[round].cursor
    ensures AccountReached(l, round, a).Some? ==>
              var t := AccountReached(l, round, a).value;
              && BalanceOf(t, a) == BalanceOf(l, a) - x
              && (forall b :: b != a ==> BalanceOf(t, b) == BalanceOf(l, b))
              && t.charges == (if Flagged(l, a) then l.charges else l.charges + [Charge(round, a, x)])
              && t.rounds[round].total
                 == l.rounds[round].total + (if Flagged(l, a) then l.records[a].frozen else x)
  {
    hide ChargesSound, Share, IsShare;
    ShareIff(BalanceOf(l, a), l.rounds[round].rate, x);
    ShareAtMost(BalanceOf(l, a), l.rounds[round].rate);
    if !l.rounds[round].closed {
      assert Running(l) && round == Current(l);
    }
  }

  // What an operation moves to or from an account, charges apart.
  function Moved(l: Ledger, op: Op, a: nat): int {
    match op
    case Transfer(from, to, amount) =>
      if Transferred(l, from, to, amount).None? then 0
      else if a == from then -(amount as int)
      else if a == to then amount
      else 0
    case _ => 0
  }

  function MovedInAll(l: Ledger, ops: seq<Op>, a: nat): int {
    if ops == [] then 0
    else
      var before := ops[..|ops| - 1];
      MovedInAll(l, before, a) + Moved(Run(l, before), ops[|ops| - 1], a)
  }

  lemma StepBalance(l: Ledger, op: Op, a: nat)
    requires Inv(l)
    ensures BalanceOf(Step(l, op), a)
            == BalanceOf(l, a) + Moved(l, op, a) - (Charged(Step(l, op).charges, a) - Charged(l.charges, a))
  {
    hide Inv, Transferred, AccountReached, Share, IsShare, Charged, IsCharge, Owed;
    match op
    case Transfer(from, to, amount) =>
      OwedIff(l, from, Owed(l, from));
      OwedIff(l, to, Owed(l, to));
      TransferPays(l, from, to, amount, Owed(l, from), Owed(l, to));
    case Reach(round, b) =>
      if AccountReached(l, round, b).Some? {
        ReachRound(l, round, b);
        var x := if Flagged(l, b) then 0 else Share(BalanceOf(l, b), l.rounds[round].rate);
        ShareIff(BalanceOf(l, b), l.rounds[round].rate, x);
        ReachPays(l, round, b, x);
        ChargedPush(l.charges, Charge(round, b, x), a);
      }
    case _ =>
  }

  lemma ReachRound(l: Ledger, round: nat, a: nat)
    requires AccountReached(l, round, a).Some?
    ensures round < |l.rounds|
  {
  }

  // Over any run every account ends with what it had, and was sent less what it sent, less what it was charged.
  lemma {:induction false} EveryBalance(l: Ledger, ops: seq<Op>, a: nat)
    requires Inv(l)
    ensures var t := Run(l, ops);
            BalanceOf(t, a) == BalanceOf(l, a) + MovedInAll(l, ops, a) - (Charged(t.charges, a) - Charged(l.charges, a))
    decreases |ops|
  {
    hide Inv, Step, Moved, Charged, BalanceOf;
    if ops != [] {
      var before := ops[..|ops| - 1];
      EveryBalance(l, before, a);
      RunKeeps(l, before);
      StepBalance(Run(l, before), ops[|ops| - 1], a);
    }
  }

  predicate NoTransferOf(ops: seq<Op>, a: nat) {
    forall op <- ops :: op.Transfer? ==> op.from != a && op.to != a
  }

  // An account that no transfer touches has its opening balance until the cursor passes it, and then that
  // balance less the round's share of it.
  ghost predicate Untouched(l0: Ledger, l: Ledger, a: nat, x: nat)
    requires |l0.rounds| > 0
  {
    && |l.rounds| >= |l0.rounds|
    && (|l.rounds| == |l0.rounds| ==>
          var r := |l0.rounds| - 1;
          && l.rounds[r].rate == l0.rounds[r].rate && l.rounds[r].lastAccount == l0.rounds[r].lastAccount
          && (l.rounds[r].closed ==> l.rounds[r].cursor == l.rounds[r].lastAccount + 1)
          && (!Passed(l.rounds[r], a) ==> (Flagged(l, a) <==> Flagged(l0, a)))
          && BalanceOf(l, a) == BalanceOf(l0, a) - if Passed(l.rounds[r], a) && !Flagged(l0, a) then x else 0)
  }

  lemma ReachIsLast(l: Ledger, round: nat, a: nat)
    requires Inv(l) && AccountReached(l, round, a).Some?
    ensures round == |l.rounds| - 1 && a == l.rounds[round].cursor && a >= START_MARKER
  {
    hide ChargesSound, RecordsSound, Share;
  }

  lemma UntouchedReach(l0: Ledger, l: Ledger, round: nat, b: nat, a: nat, x: nat)
    requires |l0.rounds| > 0 && Inv(l) && Untouched(l0, l, a, x) && AccountReached(l, round, b).Some?
    requires IsShare(x, BalanceOf(l0, a), l0.rounds[|l0.rounds| - 1].rate)
    ensures Untouched(l0, AccountReached(l, round, b).value, a, x)
  {
    hide Inv, Share, IsShare;
    ReachIsLast(l, round, b);
    if |l.rounds| == |l0.rounds| {
      var y := if Flagged(l, b) then 0 else Share(BalanceOf(l, b), l.rounds[round].rate);
      ShareIff(BalanceOf(l, b), l.rounds[round].rate, y);
      ShareIff(BalanceOf(l0, a), l.rounds[round].rate, x);
      ReachPays(l, round, b, y);
    }
  }

  lemma UntouchedTransfer(l0: Ledger, l: Ledger, from: nat, to: nat, amount: nat, a: nat, x: nat)
    requires |l0.rounds| > 0 && Untouched(l0, l, a, x) && Transferred(l, from, to, amount).Some?
    requires from != a && to != a
    ensures Untouched(l0, Transferred(l, from, to, amount).value, a, x)
  {
    hide Share, Passed;
  }

  lemma UntouchedStep(l0: Ledger, l: Ledger, op: Op, a: nat, x: nat)
    requires |l0.rounds| > 0 && Inv(l) && Untouched(l0, l, a, x)
    requires IsShare(x, BalanceOf(l0, a), l0.rounds[|l0.rounds| - 1].rate)
    requires op.Transfer? ==> op.from != a && op.to != a
    ensures Untouched(l0, Step(l, op), a, x)
  {
    hide Inv, IsShare, Transferred, AccountReached;
    if Applied(l, op).Some? {
      match op
      case Transfer(from, to, amount) => UntouchedTransfer(l0, l, from, to, amount, a, x);
      case OpenRound(rate, intervalPassed) =>
      case Register =>
      case Reach(round, b) => UntouchedReach(l0, l, round, b, a, x);
    }
  }

  lemma {:induction false} UntouchedRun(l0: Ledger, ops: seq<Op>, a: nat, x: nat)
    requires |l0.rounds| > 0 && Inv(l0) && Untouched(l0, l0, a, x) && NoTransferOf(ops, a)
    requires IsShare(x, BalanceOf(l0, a), l0.rounds[|l0.rounds| - 1].rate)
    ensures Untouched(l0, Run(l0, ops), a, x)
    decreases |ops|
  {
    hide Inv, Step, Untouched, IsShare, BalanceOf;
    if ops != [] {
      var before := ops[..|ops| - 1];
      UntouchedRun(l0, before, a, x);
      RunKeeps(l0, before);
      UntouchedStep(l0, Run(l0, before), ops[|ops| - 1], a, x);
    }
  }

  // An account in the range of a round that no transfer touches ends the round with its opening balance less
  // the floor of the round's share of it; one that carried a flag into the round keeps its balance.
  lemma UntouchedPaysOnce(l: Ledger, rate: nat, intervalPassed: bool, ops: seq<Op>, a: nat, x: nat)
    requires Inv(l) && RoundOpened(l, rate, intervalPassed).Some? && NoTransferOf(ops, a)
    requires START_MARKER <= a < l.nextAccount && IsShare(x, BalanceOf(l, a), rate)
    requires var l0 := RoundOpened(l, rate, intervalPassed).value;
             var t := Run(l0, ops);
             |t.rounds| == |l0.rounds| && t.rounds[|t.rounds| - 1].closed
    ensures var t := Run(RoundOpened(l, rate, intervalPassed).value, ops);
            BalanceOf(t, a) == BalanceOf(l, a) - if Flagged(l, a) then 0 else x
  {
    hide Inv, Run, IsShare, NoTransferOf;
    OpenKeeps(l, rate, intervalPassed);
    var l0 := RoundOpened(l, rate, intervalPassed).value;
    assert BalanceOf(l0, a) == BalanceOf(l, a);
    UntouchedRun(l0, ops, a, x);
  }

  // ---------- a run in which an account escapes a round ----------

  const HALF: nat := RATE_SCALE / 2

  // Nine accounts, the last of which holds everything.
  const NINE: Ledger := Ledger(map[8 := 1000], map[], [], 9, [])
  const MARKER: Round := Round(0, START_MARKER, START_MARKER, true, 0)
  const PAID: seq<Charge> := [Charge(1, 8, 500), Charge(1, 9, 0)]

  // Account 9 is registered and receives a transfer while a round over account 8 is running.
  const FIRST_ROUND: seq<Op> := [OpenRound(HALF, false), Register, Transfer(8, 9, 100), Reach(1, 8)]
  const AFTER_FIRST: Ledger :=
    Ledger(map[8 := 400, 9 := 100], map[8 := Record(1, 0, false), 9 := Record(0, 0, true)],
           [MARKER, Round(HALF, 8, 9, true, 500)], 10, PAID)

  // The next round covers both accounts.
  const OPENED_AGAIN: Ledger :=
    AFTER_FIRST.(rounds := [MARKER, Round(HALF, 8, 9, true, 500), Round(HALF, 9, 8, false, 0)])
  const SECOND_ROUND: seq<Op> := [Reach(2, 8), Reach(2, 9)]
  const AFTER_SECOND: Ledger :=
    Ledger(map[8 := 200, 9 := 100], map[8 := Record(2, 0, false), 9 := Record(2, 0, false)],
           [MARKER, Round(HALF, 8, 9, true, 500), Round(HALF, 9, 10, true, 200)], 10, PAID + [Charge(2, 8, 200)])

  lemma NextStep(l: Ledger, ops: seq<Op>, i: nat, m: Ledger, t: Ledger)
    requires i < |ops| && Run(l, ops[..i]) == m && Applied(m, ops[i]) == Some(t)
    ensures Run(l, ops[..i + 1]) == t
  {
    hide Applied;
    assert ops[..i + 1][..i] == ops[..i];
  }

  lemma FirstRoundOpens()
    ensures RoundOpened(NINE, HALF, false) == Some(NINE.(rounds := [MARKER, Round(HALF, 8, 8, false, 0)]))
  {
    assert [MARKER] + [Round(HALF, 8, 8, false, 0)] == [MARKER, Round(HALF, 8, 8, false, 0)];
  }

  // Both accounts are charged before the amount moves; the new one owes nothing, and is flagged.
  lemma LateTransfer(l: Ledger)
    requires l == NINE.(rounds := [MARKER, Round(HALF, 8, 8, false, 0)], nextAccount := 10)
    ensures Transferred(l, 8, 9, 100) ==
            Some(l.(balances := map[8 := 400, 9 := 100],
              records := map[8 := Record(0, 500, true), 9 := Record(0, 0, true)],
                    charges := PAID))
  {
    var first := ChargeEarly(l, 8);
    assert Owed(l, 8) == 500;
    assert Owed(first, 9) == 0;
    var second := ChargeEarly(first, 9);
    assert second.records == map[8 := Record(0, 500, true), 9 := Record(0, 0, true)];
    assert second.charges == PAID;
    assert l.balances[8 := 400][9 := 100] == map[8 := 400, 9 := 100];
  }

  lemma FirstRoundRuns()
    ensures Run(NINE, FIRST_ROUND) == AFTER_FIRST
  {
    hide Run, Transferred, RoundOpened;
    var l1 := NINE.(rounds := [MARKER, Round(HALF, 8, 8, false, 0)]);
    var l2 := l1.(nextAccount := 10);
    RunNothing(NINE, FIRST_ROUND);
    FirstRoundOpens();
    NextStep(NINE, FIRST_ROUND, 0, NINE, l1);
    NextStep(NINE, FIRST_ROUND, 1, l1, l2);
    LateTransfer(l2);
    var l3 := Transferred(l2, 8, 9, 100).value;
    NextStep(NINE, FIRST_ROUND, 2, l2, l3);
    assert l3.records[8 := Record(1, 0, false)] == AFTER_FIRST.records;
    assert l3.rounds[1 := Round(HALF, 8, 9, true, 500)] == AFTER_FIRST.rounds;
    NextStep(NINE, FIRST_ROUND, 3, l3, AFTER_FIRST);
    assert FIRST_ROUND[..4] == FIRST_ROUND;
  }

  lemma SecondRoundRuns()
    ensures RoundOpened(AFTER_FIRST, HALF, true) == Some(OPENED_AGAIN)
    ensures Run(OPENED_AGAIN, SECOND_ROUND) == AFTER_SECOND
  {
    hide Run;
    assert AFTER_FIRST.rounds + [Round(HALF, 9, 8, false, 0)] == OPENED_AGAIN.rounds;
    var m := OPENED_AGAIN.(balances := map[8 := 200, 9 := 100],
                           records := map[8 := Record(2, 0, false), 9 := Record(0, 0, true)],
                           rounds := AFTER_FIRST.rounds + [Round(HALF, 9, 9, false, 200)],
                           charges := PAID + [Charge(2, 8, 200)]);
    RunNothing(OPENED_AGAIN, SECOND_ROUND);
    assert OPENED_AGAIN.balances[8 := 200] == m.balances;
    assert OPENED_AGAIN.records[8 := Record(2, 0, false)] == m.records;
    assert OPENED_AGAIN.rounds[2 := Round(HALF, 9, 9, false, 200)] == m.rounds;
    NextStep(OPENED_AGAIN, SECOND_ROUND, 0, OPENED_AGAIN, m);
    assert m.records[9 := Record(2, 0, false)] == AFTER_SECOND.records;
    assert m.rounds[2 := Round(HALF, 9, 10, true, 200)] == AFTER_SECOND.rounds;
    NextStep(OPENED_AGAIN, SECOND_ROUND, 1, m, AFTER_SECOND);
    assert SECOND_ROUND[..2] == SECOND_ROUND;
  }

  lemma NineSound()
    ensures Inv(NINE)
  {
  }

  // The flag the late account is left with lets it through the next round uncharged, though that round covers it
  // and it holds core.
  lemma LateAccountEscapesTheNextRound()
    ensures Inv(NINE) && Inv(Run(NINE, FIRST_ROUND)) && !Running(Run(NINE, FIRST_ROUND))
    ensures BalanceOf(Run(NINE, FIRST_ROUND), 9) == 100 && Flagged(Run(NINE, FIRST_ROUND), 9)
    ensures var opening := RoundOpened(Run(NINE, FIRST_ROUND), HALF, true);
            && opening.Some? && |opening.value.rounds| == 3 && opening.value.rounds[2].lastAccount == 9
            && var t := Run(opening.value, SECOND_ROUND);
            && Inv(t) && |t.rounds| == 3 && t.rounds[2].closed
            && BalanceOf(t, 9) == 100 && Count(t.charges, 2, 9) == 0
  {
    hide Run, Inv, RoundOpened, Count;
    NineSound();
    FirstRoundRuns();
    SecondRoundRuns();
    RunKeeps(NINE, FIRST_ROUND);
    OpenKeeps(AFTER_FIRST, HALF, true);
    RunKeeps(OPENED_AGAIN, SECOND_ROUND);
    ChargedOnceIffUnflagged(AFTER_FIRST, HALF, true, SECOND_ROUND, 9);
  }

  lemma RunNothing(l: Ledger, ops: seq<Op>)
    ensures Run(l, ops[..0]) == l
  {
  }

  // ---------- working off a round ----------

  function BatchSize(l: Ledger, max: nat): nat
    requires Running(l)
  {
    var r := l.rounds[Current(l)];
    var left := if r.cursor <= r.lastAccount then r.lastAccount - r.cursor + 1 else 0;
    if left <= max then left else max
  }

  // The accounts of one generated transaction.
  function Batch(l: Ledger, max: nat): seq<nat>
    requires Running(l)
  {
    seq(BatchSize(l, max), i requires 0 <= i => l.rounds[Current(l)].cursor + i)
  }

  function Reaches(round: nat, accounts: seq<nat>): seq<Op> {
    seq(|accounts|, i requires 0 <= i < |accounts| => Reach(round, accounts[i]))
  }

  // None of the checks fails for the account at the cursor.
  lemma ReachSucceeds(l: Ledger)
    requires Inv(l) && Running(l)
    ensures AccountReached(l, Current(l), l.rounds[Current(l)].cursor).Some?
  {
    hide Count;
    var r := l.rounds[Current(l)];
    ShareAtMost(BalanceOf(l, r.cursor), r.rate);
  }

  lemma BatchSizeIs(l: Ledger, n: nat)
    requires Running(l) && n <= l.rounds[Current(l)].lastAccount - l.rounds[Current(l)].cursor + 1
    ensures BatchSize(l, n) == n
  {
  }

  lemma ReachMoves(l: Ledger)
    requires Inv(l) && Running(l)
    ensures var k := Current(l);
            var t := Step(l, Reach(k, l.rounds[k].cursor));
            && Inv(t) && |t.rounds| == |l.rounds| && t.nextAccount == l.nextAccount
            && t.rounds[k] == l.rounds[k].(cursor := l.rounds[k].cursor + 1, total := t.rounds[k].total,
                                           closed := l.rounds[k].cursor == l.rounds[k].lastAccount)
  {
    hide Inv, Share;
    ReachSucceeds(l);
    StepKeeps(l, Reach(Current(l), l.rounds[Current(l)].cursor));
    RunningRound(l);
  }

  // A generated transaction applies as a whole and moves the cursor by its length; the round closes at its end.
  lemma {:induction false} BatchApplies(l: Ledger, n: nat)
    requires Inv(l) && Running(l) && n <= l.rounds[Current(l)].lastAccount - l.rounds[Current(l)].cursor + 1
    ensures var k := Current(l);
            var t := Run(l, Reaches(k, Batch(l, n)));
            && Inv(t) && |t.rounds| == |l.rounds| && t.nextAccount == l.nextAccount
            && t.rounds[k] == l.rounds[k].(cursor := l.rounds[k].cursor + n, total := t.rounds[k].total,
                                           closed := n > 0 && l.rounds[k].cursor + n == l.rounds[k].lastAccount + 1)
    decreases n
  {
    hide Inv, Step, BatchSize;
    var k := Current(l);
    BatchSizeIs(l, n);
    if n == 0 {
      assert Reaches(k, Batch(l, 0)) == [];
    } else {
      BatchSizeIs(l, n - 1);
      BatchApplies(l, n - 1);
      var ops := Reaches(k, Batch(l, n));
      assert ops[..n - 1] == Reaches(k, Batch(l, n - 1));
      ReachMoves(Run(l, ops[..n - 1]));
    }
  }

  // Only the generated transactions move the cursor.
  predicate MovesNoCursor(ops: seq<Op>) {
    forall op <- ops :: !op.Reach?
  }

  // Whatever else happens while a round is running leaves it as it is; a new round cannot be opened.
  lemma {:induction false} RoundUndisturbed(l: Ledger, ops: seq<Op>)
    requires Inv(l) && Running(l) && MovesNoCursor(ops)
    ensures Inv(Run(l, ops)) && Run(l, ops).rounds == l.rounds
    decreases |ops|
  {
    hide Inv, Step;
    if ops != [] {
      var before := ops[..|ops| - 1];
      RoundUndisturbed(l, before);
      StepKeeps(Run(l, before), ops[|ops| - 1]);
      StepUndisturbed(Run(l, before), ops[|ops| - 1]);
    }
  }

  lemma StepUndisturbed(l: Ledger, op: Op)
    requires Running(l) && !op.Reach?
    ensures Step(l, op).rounds == l.rounds
  {
  }

  // Blocks of at most `max` accounts each, with the other operations that come before each of them.
  function Worked(l: Ledger, max: nat, others: seq<seq<Op>>): Ledger
    decreases |others|
  {
    if others == [] || !Running(l) then l
    else
      var t := Run(l, others[0]);
      if !Running(t) then t else Worked(Run(t, Reaches(Current(t), Batch(t, max))), max, others[1..])
  }

  // Enough blocks close any round, whatever transfers and registrations come between them.
  lemma {:induction false} RoundCloses(l: Ledger, max: nat, others: seq<seq<Op>>)
    requires Inv(l) && Running(l) && max > 0 && forall ops <- others :: MovesNoCursor(ops)
    requires |others| * max >= l.rounds[Current(l)].lastAccount - l.rounds[Current(l)].cursor + 1
    ensures !Running(Worked(l, max, others)) && |Worked(l, max, others).rounds| == |l.rounds|
    decreases |others|
  {
    hide Inv, Run, MovesNoCursor;
    RunningCursor(l);
    assert |others| > 0;
    RoundUndisturbed(l, others[0]);
    var t := Run(l, others[0]);
    var n := BatchSize(t, max);
    assert Batch(t, max) == Batch(t, n);
    BatchApplies(t, n);
    var u := Run(t, Reaches(Current(t), Batch(t, max)));
    if Running(u) {
      assert (|others| - 1) * max == |others| * max - max;
      RoundCloses(u, max, others[1..]);
    }
  }

  lemma RunningCursor(l: Ledger)
    requires Inv(l) && Running(l)
    ensures l.rounds[Current(l)].cursor <= l.rounds[Current(l)].lastAccount
  {
    hide Count;
  }

  // ---------- the objects as the node updates them ----------

  class DeflationDb {
    var balances: map<nat, nat>
    var records: map<nat, Record>
    var rounds: seq<Round>
    var nextAccount: nat
    ghost var charges: seq<Charge>

    constructor (balances: map<nat, nat>, nextAccount: nat)
      ensures Inv(L()) && L() == Ledger(balances, map[], [], nextAccount, [])
    {
      this.balances, this.nextAccount := balances, nextAccount;
      records, rounds, charges := map[], [], [];
    }

    ghost function L(): Ledger
      reads this
    {
      Ledger(balances, records, rounds, nextAccount, charges)
    }

    // Records the charge in advance and returns the amount.
    method FreezeOwed(a: nat) returns (owed: nat)
      modifies `records, `charges
      ensures L() == ChargeEarly(old(L()), a) && owed == Owed(old(L()), a)
    {
      owed := 0;
      if |rounds| == 0 || rounds[|rounds| - 1].closed {
        return;
      }
      var id := |rounds| - 1;
      if a !in records || (records[a].lastRound < id && !records[a].cleared) {
        owed := Share(if a in balances then balances[a] else 0, rounds[id].rate);
        var last := if a in records then records[a].lastRound else 0;
        records := records[a := Record(last, owed, true)];
        charges := charges + [Charge(id, a, owed)];
      }
    }

    method Transfer(from: nat, to: nat, amount: nat) returns (ok: bool)
      requires Inv(L())
      modifies this
      ensures ok <==> Transferred(old(L()), from, to, amount).Some?
      ensures ok ==> L() == Transferred(old(L()), from, to, amount).value
      ensures ok ==> Inv(L()) && Held(L()) == Held(old(L()))
    {
      hide Inv, ChargeEarly, Owed, Held, BalanceOf;
      if from == to || amount == 0 || from >= nextAccount || to >= nextAccount {
        return false;
      }
      ghost var l := L();
      var balance := if from in balances then balances[from] else 0;
      assert balance == BalanceOf(l, from) by { BalanceIs(l, from); }
      ChargeEarlyKeeps(l, from);
      var owedFrom := FreezeOwed(from);
      if balance < amount + owedFrom {
        return false;
      }
      ghost var first := L();
      ChargeEarlyFrame(l, from);
      ChargeEarlyKeeps(first, to);
      var owedTo := FreezeOwed(to);
      ChargeEarlyFrame(first, to);
      balances := balances[from := balance - amount - owedFrom];
      var received := if to in balances then balances[to] else 0;
      BalanceIs(l, to);
      BalanceIs(first, to);
      balances := balances[to := received + amount - owedTo];
      TransferKeeps(l, from, to, amount);
      ok := true;
    }

    method Open(rate: nat, intervalPassed: bool) returns (ok: bool)
      modifies `rounds
      ensures ok <==> RoundOpened(old(L()), rate, intervalPassed).Some?
      ensures ok ==> L() == RoundOpened(old(L()), rate, intervalPassed).value
    {
      if rate == 0 || rate >= RATE_SCALE || nextAccount <= START_MARKER {
        return false;
      }
      if |rounds| > 0 && (!rounds[|rounds| - 1].closed || !intervalPassed) {
        return false;
      }
      if |rounds| == 0 {
        rounds := [Round(0, START_MARKER, START_MARKER, true, 0)];
      }
      rounds := rounds + [Round(rate, nextAccount - 1, START_MARKER, false, 0)];
      ok := true;
    }

    method ReachAccount(round: nat, a: nat) returns (ok: bool)
      modifies this
      ensures ok <==> AccountReached(old(L()), round, a).Some?
      ensures ok ==> L() == AccountReached(old(L()), round, a).value
    {
      hide Share;
      if round >= |rounds| || rounds[round].closed || a != rounds[round].cursor {
        return false;
      }
      if a in records && records[a].lastRound >= round {
        return false;
      }
      var early, frozen := false, 0;
      if a in records {
        early, frozen := records[a].cleared, records[a].frozen;
      }
      records := records[a := Record(round, 0, false)];
      var owed := 0;
      if !early {
        owed := Share(if a in balances then balances[a] else 0, rounds[round].rate);
        charges := charges + [Charge(round, a, owed)];
      }
      if owed > 0 {
        if a !in balances || balances[a] < owed {
          return false;
        }
        balances := balances[a := balances[a] - owed];
      }
      var r := rounds[round];
      rounds := rounds[round := r.(cursor := a + 1, total := r.total + owed + frozen, closed := a == r.lastAccount)];
      ok := true;
    }

    // The account steps of one block's deflation transaction.
    method Generate(max: nat) returns (accounts: seq<nat>)
      requires Inv(L())
      ensures accounts == if Running(L()) then Batch(L(), max) else []
    {
      hide Inv;
      accounts := [];
      if |rounds| == 0 || rounds[|rounds| - 1].closed {
        return;
      }
      RunningRound(L());
      var r := rounds[|rounds| - 1];
      var a := r.cursor;
      while |accounts| < max && a < nextAccount && a <= r.lastAccount
        invariant a == r.cursor + |accounts| && |accounts| <= BatchSize(L(), max)
        invariant accounts == seq(|accounts|, i requires 0 <= i => r.cursor + i)
        decreases max - |accounts|
      {
        accounts := accounts + [a];
        a := a + 1;
      }
    }
  }

  lemma BalanceIs(l: Ledger, a: nat)
    ensures BalanceOf(l, a) == if a in l.balances then l.balances[a] else 0
  {
  }

  lemma RunningRound(l: Ledger)
    requires Inv(l) && Running(l)
    ensures l.rounds[Current(l)].cursor <= l.rounds[Current(l)].lastAccount < l.nextAccount
  {
  }
}

// Everything the market moves: balances, orders, margin positions, settlement requests and what each
// asset itself holds; and what each single movement does to the totals.
// Source: libraries/chain/db_market.cpp, libraries/chain/db_balance.cpp.
module Ledger {
  import opened Options
  import opened Arithmetic
  import opened Config
  import opened Prices
  import opened Totals

  const CORE: nat := 0
  const EXCHANGE_RATE_SCALE: nat := 10_000_000

  // `price` is base/quote with the base in the asset sold.
  datatype LimitOrder = LimitOrder(
    seller: nat, sells: nat, wants: nat, forSale: nat, price: Price, deferredFee: nat, exchange: Option<nat>)

  // `callPrice` has its base in the collateral and its quote in the debt.
  datatype CallOrder = CallOrder(
    borrower: nat, debtAsset: nat, collateralAsset: nat, debt: nat, collateral: nat, callPrice: Price)

  datatype Settlement = Settlement(owner: nat, asset: nat, balance: nat, date: nat)

  // `price` is debt over collateral; `squeeze` is the worst price a margin call may take.
  datatype Feed = Feed(price: Price, squeeze: Price)

  // `settled` is set by a global settlement: supply over the collateral gathered.
  datatype BitAsset = BitAsset(
    backing: nat, feed: Option<Feed>, predictionMarket: bool, fund: nat, settled: Option<Price>,
    settledVolume: nat, maxVolumePercent: nat, offsetPercent: nat)

  // `feePercent` is 0 for an asset that charges no market fee; `bit` is set for a market-issued asset.
  datatype Asset = Asset(supply: int, fees: nat, feePercent: nat, maxFee: nat, bit: Option<BitAsset>)

  datatype State = State(
    balances: map<(nat, nat), nat>,
    limits: map<nat, LimitOrder>,
    calls: map<nat, CallOrder>,
    settles: map<nat, Settlement>,
    assets: map<nat, Asset>,
    pendingFees: nat,
    exchangeRates: map<(nat, nat, nat), nat>)

  // ---------- totals ----------

  ghost function BalanceIn(a: nat): ((nat, nat), nat) -> int {
    (k: (nat, nat), x: nat) => if k.1 == a then x else 0
  }

  ghost function SaleIn(a: nat): (nat, LimitOrder) -> int {
    (k: nat, o: LimitOrder) => if o.sells == a then o.forSale else 0
  }

  ghost function DeferredIn(a: nat): (nat, LimitOrder) -> int {
    (k: nat, o: LimitOrder) => if a == CORE then o.deferredFee else 0
  }

  ghost function CollateralIn(a: nat): (nat, CallOrder) -> int {
    (k: nat, c: CallOrder) => if c.collateralAsset == a then c.collateral else 0
  }

  ghost function DebtIn(a: nat): (nat, CallOrder) -> int {
    (k: nat, c: CallOrder) => if c.debtAsset == a then c.debt else 0
  }

  ghost function SettlingIn(a: nat): (nat, Settlement) -> int {
    (k: nat, s: Settlement) => if s.asset == a then s.balance else 0
  }

  // Fees an asset has accumulated are its own; its settlement fund is in the backing asset.
  ghost function KeptBy(a: nat): (nat, Asset) -> int {
    (k: nat, s: Asset) => (if k == a then s.fees else 0)
      + (if s.bit.Some? && s.bit.value.backing == a then s.bit.value.fund else 0)
  }

  // All of asset `a` there is, wherever it sits.
  ghost function Held(s: State, a: nat): int {
    Total(s.balances, BalanceIn(a)) + Total(s.limits, SaleIn(a)) + Total(s.limits, DeferredIn(a))
    + Total(s.calls, CollateralIn(a)) + Total(s.settles, SettlingIn(a)) + Total(s.assets, KeptBy(a))
    + (if a == CORE then s.pendingFees else 0)
  }

  ghost function Supply(s: State, a: nat): int {
    if a in s.assets then s.assets[a].supply else 0
  }

  // What is held beyond the recorded supply.
  ghost function Surplus(s: State, a: nat): int {
    Held(s, a) - Supply(s, a)
  }

  ghost function Debt(s: State, a: nat): int {
    Total(s.calls, DebtIn(a))
  }

  // ---------- single movements ----------

  function BalanceOf(s: State, who: nat, a: nat): nat {
    if (who, a) in s.balances then s.balances[(who, a)] else 0
  }

  function Credit(s: State, who: nat, a: nat, x: nat): State {
    if x == 0 then s else s.(balances := s.balances[(who, a) := BalanceOf(s, who, a) + x])
  }

  function Debit(s: State, who: nat, a: nat, x: nat): Option<State> {
    if x == 0 then Some(s)
    else if BalanceOf(s, who, a) < x then None
    else Some(s.(balances := s.balances[(who, a) := BalanceOf(s, who, a) - x]))
  }

  function MarketFee(a: Asset, amount: nat): nat {
    if a.feePercent == 0 then 0
    else
      var fee := amount * a.feePercent / HUNDRED_PERCENT;
      if fee > a.maxFee then a.maxFee else fee
  }

  lemma MarketFeeAtMostAmount(a: Asset, amount: nat)
    requires a.feePercent <= HUNDRED_PERCENT
    ensures MarketFee(a, amount) <= amount
  {
    if a.feePercent > 0 {
      FloorBounds(amount, a.feePercent, HUNDRED_PERCENT);
      assert amount * a.feePercent <= amount * HUNDRED_PERCENT;
    }
  }

  // The fee is the whole part of the percentage, but no more than the maximum; at 0% there is none.
  ghost predicate IsFee(a: Asset, amount: nat, fee: nat) {
    if a.feePercent == 0 then fee == 0
    else
      && fee <= a.maxFee && fee * HUNDRED_PERCENT <= amount * a.feePercent
      && (fee < a.maxFee ==> amount * a.feePercent < (fee + 1) * HUNDRED_PERCENT)
  }

  lemma MarketFeeIff(a: Asset, amount: nat, fee: nat)
    ensures fee == MarketFee(a, amount) <==> IsFee(a, amount, fee)
  {
    if a.feePercent > 0 {
      var whole := amount * a.feePercent / HUNDRED_PERCENT;
      FloorIff(amount * a.feePercent, HUNDRED_PERCENT, whole);
      FloorIff(amount * a.feePercent, HUNDRED_PERCENT, fee);
    }
  }

  function AddFees(s: State, a: nat, x: nat): State
    requires a in s.assets
  {
    s.(assets := s.assets[a := s.assets[a].(fees := s.assets[a].fees + x)])
  }

  function AddSupply(s: State, a: nat, x: int): State
    requires a in s.assets
  {
    s.(assets := s.assets[a := s.assets[a].(supply := s.assets[a].supply + x)])
  }

  // What the order's exchange takes of the proceeds, and which account it is.
  function ExchangeCut(s: State, o: LimitOrder, proceeds: nat): (nat, nat) {
    if o.exchange.Some? && (o.exchange.value, o.wants, o.sells) in s.exchangeRates
    then (o.exchange.value, proceeds * s.exchangeRates[(o.exchange.value, o.wants, o.sells)] / EXCHANGE_RATE_SCALE)
    else (0, 0)
  }

  // The exchange an order names takes its cut only if it has a rate for the two assets.
  ghost predicate Registered(s: State, o: LimitOrder) {
    o.exchange.Some? && (o.exchange.value, o.wants, o.sells) in s.exchangeRates
  }

  // The cut is the whole part of the exchange's rate.
  ghost predicate IsCut(s: State, o: LimitOrder, proceeds: nat, cut: nat) {
    if Registered(s, o) then
      var rate := s.exchangeRates[(o.exchange.value, o.wants, o.sells)];
      cut * EXCHANGE_RATE_SCALE <= proceeds * rate < (cut + 1) * EXCHANGE_RATE_SCALE
    else cut == 0
  }

  lemma ExchangeCutIff(s: State, o: LimitOrder, proceeds: nat, cut: nat)
    ensures cut == ExchangeCut(s, o, proceeds).1 <==> IsCut(s, o, proceeds, cut)
    ensures Registered(s, o) ==> ExchangeCut(s, o, proceeds).0 == o.exchange.value
  {
    if Registered(s, o) {
      FloorIff(proceeds * s.exchangeRates[(o.exchange.value, o.wants, o.sells)], EXCHANGE_RATE_SCALE, cut);
    }
  }

  // The seller is paid, less the issuer's market fee and the exchange's cut; the deferred fee falls due.
  function PayProceeds(s: State, o: LimitOrder, receives: nat): Option<State>
    requires o.wants in s.assets && s.assets[o.wants].feePercent <= HUNDRED_PERCENT
  {
    var fee := MarketFee(s.assets[o.wants], receives);
    MarketFeeAtMostAmount(s.assets[o.wants], receives);
    var paid := Credit(AddFees(s, o.wants, fee), o.seller, o.wants, receives - fee);
    var cut := ExchangeCut(s, o, receives - fee);
    match Debit(paid, o.seller, o.wants, cut.1)
    case None => None
    case Some(t) =>
      var u := Credit(t, cut.0, o.wants, cut.1);
      Some(u.(pendingFees := u.pendingFees + o.deferredFee))
  }

  // Refunds an order and its deferred fee.
  function CancelLimit(s: State, id: nat): State
    requires id in s.limits
  {
    var o := s.limits[id];
    var t := Credit(Credit(s, o.seller, o.sells, o.forSale), o.seller, CORE, o.deferredFee);
    t.(limits := t.limits - {id})
  }

  // A fill of a limit order and whether the order is gone afterwards. With `cull`, a remainder too small
  // to buy anything is refunded at once.
  function FillLimit(s: State, id: nat, pays: nat, receives: nat, cull: bool): Option<(State, bool)>
    requires id in s.limits && pays <= s.limits[id].forSale
    requires s.limits[id].wants in s.assets && s.assets[s.limits[id].wants].feePercent <= HUNDRED_PERCENT
  {
    var o := s.limits[id];
    match PayProceeds(s, o, receives)
    case None => None
    case Some(t) =>
      if pays == o.forSale then Some((t.(limits := t.limits - {id}), true))
      else
        var u := t.(limits := t.limits[id := o.(forSale := o.forSale - pays, deferredFee := 0)]);
        if !cull then Some((u, false))
        else
          match ToQuote(o.forSale - pays, o.price)
          case None => None
          case Some(gets) => if gets == 0 then Some((CancelLimit(u, id), true)) else Some((u, false))
  }

  // A fill of a margin position: the debt repaid leaves the supply; a position without debt frees its collateral.
  function FillCall(s: State, id: nat, pays: nat, receives: nat): Option<State>
    requires id in s.calls && receives <= s.calls[id].debt && s.calls[id].debtAsset in s.assets
  {
    var c := s.calls[id];
    if pays > c.collateral then None
    else
      var t := AddSupply(s, c.debtAsset, -(receives as int));
      if receives == c.debt then
        Some(Credit(t.(calls := t.calls - {id}), c.borrower, c.collateralAsset, c.collateral - pays))
      else
        Some(t.(calls := t.calls[id := c.(debt := c.debt - receives, collateral := c.collateral - pays)]))
  }

  // A fill of a settlement request out of collateral `paidIn`.
  function FillSettle(s: State, id: nat, pays: nat, paidIn: nat, receives: nat): State
    requires id in s.settles && pays <= s.settles[id].balance
    requires paidIn in s.assets && s.assets[paidIn].feePercent <= HUNDRED_PERCENT
  {
    var q := s.settles[id];
    var fee := MarketFee(s.assets[paidIn], receives);
    MarketFeeAtMostAmount(s.assets[paidIn], receives);
    var t := AddFees(s, paidIn, fee);
    var u := if pays < q.balance then t.(settles := t.settles[id := q.(balance := q.balance - pays)])
             else t.(settles := t.settles - {id});
    Credit(u, q.owner, paidIn, receives - fee)
  }

  function CancelSettle(s: State, id: nat): State
    requires id in s.settles
  {
    var q := s.settles[id];
    var t := Credit(s, q.owner, q.asset, q.balance);
    t.(settles := t.settles - {id})
  }

  // ---------- what they do to the totals ----------

  lemma CreditEffect(s: State, who: nat, b: nat, x: nat, a: nat)
    ensures var t := Credit(s, who, b, x);
            && Surplus(t, a) == Surplus(s, a) + (if a == b then x else 0)
            && t == s.(balances := t.balances)
  {
    if x > 0 {
      TotalUpdate<(nat, nat), nat>(s.balances, (who, b), BalanceOf(s, who, b) + x, BalanceIn(a));
    }
  }

  lemma DebitEffect(s: State, who: nat, b: nat, x: nat, a: nat)
    requires Debit(s, who, b, x).Some?
    ensures var t := Debit(s, who, b, x).value;
            && Surplus(t, a) == Surplus(s, a) - (if a == b then x else 0)
            && t == s.(balances := t.balances)
  {
    if x > 0 {
      TotalUpdate<(nat, nat), nat>(s.balances, (who, b), BalanceOf(s, who, b) - x, BalanceIn(a));
    }
  }

  lemma AddFeesEffect(s: State, b: nat, x: nat, a: nat)
    requires b in s.assets
    ensures var t := AddFees(s, b, x);
            && Surplus(t, a) == Surplus(s, a) + (if a == b then x else 0)
            && t == s.(assets := t.assets) && Supply(t, a) == Supply(s, a)
  {
    TotalUpdate(s.assets, b, s.assets[b].(fees := s.assets[b].fees + x), KeptBy(a));
  }

  lemma AddSupplyEffect(s: State, b: nat, x: int, a: nat)
    requires b in s.assets
    ensures var t := AddSupply(s, b, x);
            && Surplus(t, a) == Surplus(s, a) - (if a == b then x else 0)
            && t == s.(assets := t.assets) && Supply(t, a) == Supply(s, a) + (if a == b then x else 0)
  {
    TotalUpdate(s.assets, b, s.assets[b].(supply := s.assets[b].supply + x), KeptBy(a));
  }

  lemma AddPendingEffect(s: State, x: nat, a: nat)
    ensures Surplus(s.(pendingFees := s.pendingFees + x), a) == Surplus(s, a) + (if a == CORE then x else 0)
  {
  }

  lemma PayProceedsEffect(s: State, o: LimitOrder, receives: nat, a: nat)
    requires o.wants in s.assets && s.assets[o.wants].feePercent <= HUNDRED_PERCENT
    requires PayProceeds(s, o, receives).Some?
    ensures var t := PayProceeds(s, o, receives).value;
            && Surplus(t, a) == Surplus(s, a) + (if a == o.wants then receives else 0)
              + (if a == CORE then o.deferredFee else 0)
            && t == s.(balances := t.balances, assets := t.assets, pendingFees := t.pendingFees)
            && Supply(t, a) == Supply(s, a)
  {
    hide Surplus, Credit, Debit, AddFees, MarketFee, ExchangeCut;
    var fee := MarketFee(s.assets[o.wants], receives);
    MarketFeeAtMostAmount(s.assets[o.wants], receives);
    AddFeesEffect(s, o.wants, fee, a);
    var s1 := AddFees(s, o.wants, fee);
    CreditEffect(s1, o.seller, o.wants, receives - fee, a);
    var s2 := Credit(s1, o.seller, o.wants, receives - fee);
    var cut := ExchangeCut(s, o, receives - fee);
    DebitEffect(s2, o.seller, o.wants, cut.1, a);
    var s3 := Debit(s2, o.seller, o.wants, cut.1).value;
    CreditEffect(s3, cut.0, o.wants, cut.1, a);
    AddPendingEffect(Credit(s3, cut.0, o.wants, cut.1), o.deferredFee, a);
  }

  lemma RemoveLimitEffect(s: State, id: nat, a: nat)
    requires id in s.limits
    ensures var o := s.limits[id];
            Surplus(s.(limits := s.limits - {id}), a)
            == Surplus(s, a) - (if a == o.sells then o.forSale else 0) - (if a == CORE then o.deferredFee else 0)
  {
    TotalRemove(s.limits, id, SaleIn(a));
    TotalRemove(s.limits, id, DeferredIn(a));
  }

  lemma ReplaceLimitEffect(s: State, id: nat, o': LimitOrder, a: nat)
    requires id in s.limits && o'.sells == s.limits[id].sells
    ensures var o := s.limits[id];
            Surplus(s.(limits := s.limits[id := o']), a)
            == Surplus(s, a) + (if a == o.sells then o'.forSale - o.forSale else 0)
              + (if a == CORE then o'.deferredFee - o.deferredFee else 0)
  {
    TotalUpdate(s.limits, id, o', SaleIn(a));
    TotalUpdate(s.limits, id, o', DeferredIn(a));
  }

  lemma CancelLimitEffect(s: State, id: nat, a: nat)
    requires id in s.limits
    ensures var t := CancelLimit(s, id);
            && Surplus(t, a) == Surplus(s, a)
            && t == s.(balances := t.balances, limits := s.limits - {id})
  {
    hide Surplus, Credit;
    var o := s.limits[id];
    var t := Credit(s, o.seller, o.sells, o.forSale);
    CreditEffect(s, o.seller, o.sells, o.forSale, a);
    CreditEffect(t, o.seller, CORE, o.deferredFee, a);
    RemoveLimitEffect(Credit(t, o.seller, CORE, o.deferredFee), id, a);
  }

  // A fill takes what the order pays out of the totals and puts in what it receives.
  lemma FillLimitEffect(s: State, id: nat, pays: nat, receives: nat, cull: bool, a: nat)
    requires id in s.limits && pays <= s.limits[id].forSale
    requires s.limits[id].wants in s.assets && s.assets[s.limits[id].wants].feePercent <= HUNDRED_PERCENT
    requires FillLimit(s, id, pays, receives, cull).Some?
    ensures var o := s.limits[id];
            var t := FillLimit(s, id, pays, receives, cull).value.0;
            && Surplus(t, a) == Surplus(s, a)
              + (if a == o.wants then receives else 0) - (if a == o.sells then pays else 0)
            && t.calls == s.calls && t.settles == s.settles && Supply(t, a) == Supply(s, a)
  {
    hide Surplus, PayProceeds, CancelLimit, Supply;
    var o := s.limits[id];
    PayProceedsEffect(s, o, receives, a);
    var t := PayProceeds(s, o, receives).value;
    if pays == o.forSale {
      RemoveLimitEffect(t, id, a);
      SupplyFrame(t, t.limits - {id}, a);
    } else {
      var o' := o.(forSale := o.forSale - pays, deferredFee := 0);
      ReplaceLimitEffect(t, id, o', a);
      var u := t.(limits := t.limits[id := o']);
      SupplyFrame(t, u.limits, a);
      CancelLimitEffect(u, id, a);
      CancelSupply(u, id, a);
    }
  }

  lemma SupplyFrame(s: State, limits: map<nat, LimitOrder>, a: nat)
    ensures Supply(s.(limits := limits), a) == Supply(s, a)
  {
  }

  lemma CancelSupply(s: State, id: nat, a: nat)
    requires id in s.limits
    ensures Supply(CancelLimit(s, id), a) == Supply(s, a)
  {
  }

  lemma RemoveCallEffect(s: State, id: nat, a: nat)
    requires id in s.calls
    ensures var c := s.calls[id];
            var t := s.(calls := s.calls - {id});
            && Surplus(t, a) == Surplus(s, a) - (if a == c.collateralAsset then c.collateral else 0)
            && Debt(t, a) == Debt(s, a) - (if a == c.debtAsset then c.debt else 0)
  {
    TotalRemove(s.calls, id, CollateralIn(a));
    TotalRemove(s.calls, id, DebtIn(a));
  }

  lemma SetCallEffect(s: State, id: nat, c': CallOrder, a: nat)
    requires id in s.calls ==>
               c'.debtAsset == s.calls[id].debtAsset && c'.collateralAsset == s.calls[id].collateralAsset
    ensures var debt, collateral :=
              if id in s.calls then s.calls[id].debt else 0, if id in s.calls then s.calls[id].collateral else 0;
            var t := s.(calls := s.calls[id := c']);
            && Surplus(t, a) == Surplus(s, a) + (if a == c'.collateralAsset then c'.collateral - collateral else 0)
            && Debt(t, a) == Debt(s, a) + (if a == c'.debtAsset then c'.debt - debt else 0)
  {
    TotalUpdate(s.calls, id, c', CollateralIn(a));
    TotalUpdate(s.calls, id, c', DebtIn(a));
  }

  // A fill of a position takes the collateral paid out of the totals; the debt repaid leaves debt and supply alike.
  lemma FillCallEffect(s: State, id: nat, pays: nat, receives: nat, a: nat)
    requires id in s.calls && receives <= s.calls[id].debt && s.calls[id].debtAsset in s.assets
    requires FillCall(s, id, pays, receives).Some?
    ensures var c := s.calls[id];
            var t := FillCall(s, id, pays, receives).value;
            && Surplus(t, a) == Surplus(s, a) - (if a == c.collateralAsset then pays else 0)
              + (if a == c.debtAsset then receives else 0)
            && Debt(t, a) == Debt(s, a) - (if a == c.debtAsset then receives else 0)
            && Supply(t, a) == Supply(s, a) - (if a == c.debtAsset then receives else 0)
            && t == s.(balances := t.balances, calls := t.calls, assets := t.assets)
  {
    hide Surplus, AddSupply, Credit;
    var c := s.calls[id];
    AddSupplyEffect(s, c.debtAsset, -(receives as int), a);
    var t := AddSupply(s, c.debtAsset, -(receives as int));
    if receives == c.debt {
      RemoveCallEffect(t, id, a);
      CreditEffect(t.(calls := t.calls - {id}), c.borrower, c.collateralAsset, c.collateral - pays, a);
    } else {
      SetCallEffect(t, id, c.(debt := c.debt - receives, collateral := c.collateral - pays), a);
    }
  }

  lemma SetSettleEffect(s: State, id: nat, q: Settlement, a: nat)
    requires id in s.settles ==> q.asset == s.settles[id].asset
    ensures Surplus(s.(settles := s.settles[id := q]), a)
            == Surplus(s, a)
               + (if a == q.asset then q.balance - (if id in s.settles then s.settles[id].balance else 0) else 0)
    ensures id in s.settles ==>
              Surplus(s.(settles := s.settles - {id}), a)
                == Surplus(s, a) - (if a == q.asset then s.settles[id].balance else 0)
  {
    TotalUpdate(s.settles, id, q, SettlingIn(a));
    TotalRemove(s.settles, id, SettlingIn(a));
  }

  lemma FillSettleEffect(s: State, id: nat, pays: nat, paidIn: nat, receives: nat, a: nat)
    requires id in s.settles && pays <= s.settles[id].balance
    requires paidIn in s.assets && s.assets[paidIn].feePercent <= HUNDRED_PERCENT
    ensures var t := FillSettle(s, id, pays, paidIn, receives);
            && Surplus(t, a) == Surplus(s, a)
              + (if a == paidIn then receives else 0) - (if a == s.settles[id].asset then pays else 0)
            && t.calls == s.calls && t.limits == s.limits && Supply(t, a) == Supply(s, a)
  {
    hide Surplus, AddFees, Credit, MarketFee;
    var q := s.settles[id];
    var fee := MarketFee(s.assets[paidIn], receives);
    MarketFeeAtMostAmount(s.assets[paidIn], receives);
    AddFeesEffect(s, paidIn, fee, a);
    var t := AddFees(s, paidIn, fee);
    SetSettleEffect(t, id, q.(balance := q.balance - pays), a);
    var u := if pays < q.balance then t.(settles := t.settles[id := q.(balance := q.balance - pays)])
             else t.(settles := t.settles - {id});
    CreditEffect(u, q.owner, paidIn, receives - fee, a);
  }

  lemma CancelSettleEffect(s: State, id: nat, a: nat)
    requires id in s.settles
    ensures var t := CancelSettle(s, id);
            Surplus(t, a) == Surplus(s, a) && t == s.(balances := t.balances, settles := s.settles - {id})
  {
    hide Surplus, Credit;
    var q := s.settles[id];
    CreditEffect(s, q.owner, q.asset, q.balance, a);
    SetSettleEffect(Credit(s, q.owner, q.asset, q.balance), id, q, a);
  }
}

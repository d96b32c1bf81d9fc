// Who gets what: the change of every account's balance in every asset, in numbers.
// Source: libraries/chain/db_market.cpp:46-171, 290-535, 636-715, libraries/chain/asset_evaluator.cpp:457-490.
module Accounts {
  import opened Options
  import opened Arithmetic
  import opened Config
  import opened Prices
  import opened Totals
  import opened Ledger
  import opened Book
  import opened Margin
  import opened Trading
  import opened Events

  // What account `who` gains in asset `a` when `whom` gains x of `b`.
  ghost function Gain(who: nat, a: nat, whom: nat, b: nat, x: int): int {
    if who == whom && a == b then x else 0
  }

  lemma CreditMoves(s: State, whom: nat, b: nat, x: nat, who: nat, a: nat)
    ensures BalanceOf(Credit(s, whom, b, x), who, a) == BalanceOf(s, who, a) + Gain(who, a, whom, b, x)
  {
  }

  lemma DebitMoves(s: State, whom: nat, b: nat, x: nat, who: nat, a: nat)
    ensures Debit(s, whom, b, x).Some? <==> x <= BalanceOf(s, whom, b)
    ensures Debit(s, whom, b, x).Some? ==>
              BalanceOf(Debit(s, whom, b, x).value, who, a) == BalanceOf(s, who, a) - Gain(who, a, whom, b, x)
  {
  }

  // ---------- limit orders ----------

  // The seller of an order gets what it receives less the issuer's fee and the exchange's cut, and the exchange its
  // cut.
  ghost function Proceeds(s: State, o: LimitOrder, receives: nat, fee: nat, cut: nat, who: nat, a: nat): int {
    Gain(who, a, o.seller, o.wants, receives - fee - cut)
    + if Registered(s, o) then Gain(who, a, o.exchange.value, o.wants, cut) else 0
  }

  // The fee and the cut of some proceeds, in numbers.
  ghost predicate Charged(s: State, o: LimitOrder, receives: nat, fee: nat, cut: nat) {
    && o.wants in s.assets && fee <= receives
    && IsFee(s.assets[o.wants], receives, fee) && IsCut(s, o, receives - fee, cut)
  }

  lemma ProceedsPaid(s: State, o: LimitOrder, receives: nat, fee: nat, cut: nat, who: nat, a: nat)
    requires Charged(s, o, receives, fee, cut) && s.assets[o.wants].feePercent <= HUNDRED_PERCENT
    ensures PayProceeds(s, o, receives).Some? <==> cut <= BalanceOf(s, o.seller, o.wants) + receives - fee
    ensures PayProceeds(s, o, receives).Some? ==>
              var t := PayProceeds(s, o, receives).value;
              && BalanceOf(t, who, a) == BalanceOf(s, who, a) + Proceeds(s, o, receives, fee, cut, who, a)
              && t == s.(balances := t.balances, assets := t.assets, pendingFees := s.pendingFees + o.deferredFee)
              && t.assets == s.assets[o.wants := s.assets[o.wants].(fees := s.assets[o.wants].fees + fee)]
  {
    hide Credit, Debit, MarketFee, ExchangeCut, BalanceOf, IsFee, IsCut;
    MarketFeeIff(s.assets[o.wants], receives, fee);
    ExchangeCutIff(s, o, receives - fee, cut);
    MarketFeeAtMostAmount(s.assets[o.wants], receives);
    var taxed := AddFees(s, o.wants, fee);
    var paid := Credit(taxed, o.seller, o.wants, receives - fee);
    FeesMoveNothing(s, o.wants, fee, who, a);
    FeesMoveNothing(s, o.wants, fee, o.seller, o.wants);
    CreditMoves(taxed, o.seller, o.wants, receives - fee, who, a);
    CreditMoves(taxed, o.seller, o.wants, receives - fee, o.seller, o.wants);
    CreditFrame(taxed, o.seller, o.wants, receives - fee);
    DebitMoves(paid, o.seller, o.wants, cut, who, a);
    if Debit(paid, o.seller, o.wants, cut).Some? {
      var t := Debit(paid, o.seller, o.wants, cut).value;
      DebitFrame(paid, o.seller, o.wants, cut);
      var receiver := ExchangeCut(s, o, receives - fee).0;
      CreditMoves(t, receiver, o.wants, cut, who, a);
      CreditFrame(t, receiver, o.wants, cut);
      var u := Credit(t, receiver, o.wants, cut);
      PendingMovesNothing(u, o.deferredFee, who, a);
      NoCut(s, o, receives - fee, cut);
    }
  }

  lemma NoCut(s: State, o: LimitOrder, proceeds: nat, cut: nat)
    requires IsCut(s, o, proceeds, cut)
    ensures !Registered(s, o) ==> cut == 0
  {
  }

  lemma FeesMoveNothing(s: State, b: nat, x: nat, who: nat, a: nat)
    requires b in s.assets
    ensures BalanceOf(AddFees(s, b, x), who, a) == BalanceOf(s, who, a)
  {
  }

  lemma PendingMovesNothing(s: State, x: nat, who: nat, a: nat)
    ensures BalanceOf(s.(pendingFees := s.pendingFees + x), who, a) == BalanceOf(s, who, a)
  {
  }

  lemma CreditFrame(s: State, whom: nat, b: nat, x: nat)
    ensures Credit(s, whom, b, x) == s.(balances := Credit(s, whom, b, x).balances)
  {
  }

  lemma DebitFrame(s: State, whom: nat, b: nat, x: nat)
    requires Debit(s, whom, b, x).Some?
    ensures Debit(s, whom, b, x).value == s.(balances := Debit(s, whom, b, x).value.balances)
  {
  }

  // Cancelling gives the seller what was for sale and the deferred fee.
  lemma CancelPays(s: State, id: nat, who: nat, a: nat)
    requires id in s.limits
    ensures var o := s.limits[id];
            BalanceOf(CancelLimit(s, id), who, a)
            == BalanceOf(s, who, a) + Gain(who, a, o.seller, o.sells, o.forSale)
               + Gain(who, a, o.seller, CORE, o.deferredFee)
  {
    hide Credit, BalanceOf;
    var o := s.limits[id];
    var t := Credit(s, o.seller, o.sells, o.forSale);
    var u := Credit(t, o.seller, CORE, o.deferredFee);
    CreditMoves(s, o.seller, o.sells, o.forSale, who, a);
    CreditMoves(t, o.seller, CORE, o.deferredFee, who, a);
    LimitsMoveNothing(u, u.limits - {id}, who, a);
  }

  lemma LimitsMoveNothing(s: State, limits: map<nat, LimitOrder>, who: nat, a: nat)
    ensures BalanceOf(s.(limits := limits), who, a) == BalanceOf(s, who, a)
  {
  }

  // What is left of an order after a fill is refunded if it is culled, which it is exactly when it buys nothing.
  ghost function Refund(o: LimitOrder, pays: nat, cull: bool): int {
    if pays < o.forSale && cull && IsDust(o.forSale - pays, o.price) then o.forSale - pays else 0
  }

  lemma FillPays(s: State, id: nat, pays: nat, receives: nat, cull: bool, fee: nat, cut: nat, who: nat, a: nat)
    requires id in s.limits && pays <= s.limits[id].forSale && ValidPrice(s.limits[id].price)
    requires Charged(s, s.limits[id], receives, fee, cut) && s.assets[s.limits[id].wants].feePercent <= HUNDRED_PERCENT
    requires FillLimit(s, id, pays, receives, cull).Some?
    ensures var o := s.limits[id];
            BalanceOf(FillLimit(s, id, pays, receives, cull).value.0, who, a)
            == BalanceOf(s, who, a) + Proceeds(s, o, receives, fee, cut, who, a)
               + Gain(who, a, o.seller, o.sells, Refund(o, pays, cull))
  {
    hide PayProceeds, CancelLimit, BalanceOf, IsFee, IsCut, IsDust, Proceeds;
    var o := s.limits[id];
    ProceedsPaid(s, o, receives, fee, cut, who, a);
    var t := PayProceeds(s, o, receives).value;
    if pays == o.forSale {
      LimitsMoveNothing(t, t.limits - {id}, who, a);
    } else {
      var u := t.(limits := t.limits[id := o.(forSale := o.forSale - pays, deferredFee := 0)]);
      LimitsMoveNothing(t, u.limits, who, a);
      DustBuysNothing(o.forSale - pays, o.price);
      CancelPays(u, id, who, a);
    }
  }

  // A match, at the maker's price: each seller gets its side of the trade, less fee and cut; a maker too small to go on
  // is refunded.
  lemma MatchPays(s: State, taker: nat, maker: nat, trade: Trade, fee: nat, cut: nat, fee': nat, cut': nat,
                  who: nat, a: nat)
    requires taker in s.limits && maker in s.limits && taker != maker && Opposite(s.limits[taker], s.limits[maker])
    requires Sound(s.limits, s.assets) && FeesBounded(s.assets) && MatchLimits(s, taker, maker).Some?
    requires Match(s.limits[taker].forSale, s.limits[maker].forSale, s.limits[maker].price) == Some(trade)
    requires Charged(s, s.limits[taker], trade.makerPays, fee, cut)
    requires Charged(s, s.limits[maker], trade.takerPays, fee', cut')
    ensures var x, y := s.limits[taker], s.limits[maker];
            BalanceOf(MatchLimits(s, taker, maker).value.0, who, a)
            == BalanceOf(s, who, a) + Proceeds(s, x, trade.makerPays, fee, cut, who, a)
               + Proceeds(s, y, trade.takerPays, fee', cut', who, a)
               + Gain(who, a, y.seller, y.sells, Refund(y, trade.makerPays, true))
  {
    hide FillLimit, Match, BalanceOf, Charged, IsDust, Proceeds;
    var x, y := s.limits[taker], s.limits[maker];
    MatchConsumes(x.forSale, y.forSale, y.price);
    FillLimitBook(s, taker, trade.takerPays, trade.makerPays, false);
    FillPays(s, taker, trade.takerPays, trade.makerPays, false, fee, cut, who, a);
    var t := FillLimit(s, taker, trade.takerPays, trade.makerPays, false).value.0;
    FillKeepsCharges(s, taker, trade.takerPays, trade.makerPays, fee, cut, y, trade.takerPays, fee', cut');
    FillPays(t, maker, trade.makerPays, trade.takerPays, true, fee', cut', who, a);
    SameProceeds(s, t, y, trade.takerPays, fee', cut', who, a);
  }

  // A fill changes neither fee percentages nor exchange rates.
  lemma FillKeepsCharges(s: State, id: nat, pays: nat, receives: nat, fee: nat, cut: nat,
                         o: LimitOrder, amount: nat, fee': nat, cut': nat)
    requires id in s.limits && pays <= s.limits[id].forSale
    requires Charged(s, s.limits[id], receives, fee, cut) && s.assets[s.limits[id].wants].feePercent <= HUNDRED_PERCENT
    requires FillLimit(s, id, pays, receives, false).Some? && Charged(s, o, amount, fee', cut')
    ensures var t := FillLimit(s, id, pays, receives, false).value.0;
            Charged(t, o, amount, fee', cut') && t.exchangeRates == s.exchangeRates
  {
    hide PayProceeds, BalanceOf, Proceeds;
    ProceedsPaid(s, s.limits[id], receives, fee, cut, 0, CORE);
  }

  lemma SameProceeds(s: State, t: State, o: LimitOrder, receives: nat, fee: nat, cut: nat, who: nat, a: nat)
    requires t.exchangeRates == s.exchangeRates
    ensures Proceeds(t, o, receives, fee, cut, who, a) == Proceeds(s, o, receives, fee, cut, who, a)
  {
  }

  // Untaxed and without an exchange, each seller gets the other side of the trade in full; a seller who is on both
  // sides also gets the refund of a maker too small to go on.
  lemma UntaxedMatchPays(s: State, taker: nat, maker: nat, trade: Trade)
    requires taker in s.limits && maker in s.limits && taker != maker && Opposite(s.limits[taker], s.limits[maker])
    requires Sound(s.limits, s.assets) && FeesBounded(s.assets) && MatchLimits(s, taker, maker).Some?
    requires var x, y := s.limits[taker], s.limits[maker];
             && Match(x.forSale, y.forSale, y.price) == Some(trade)
             && s.assets[x.wants].feePercent == 0 && s.assets[y.wants].feePercent == 0
             && !Registered(s, x) && !Registered(s, y)
    ensures var x, y := s.limits[taker], s.limits[maker];
            var t := MatchLimits(s, taker, maker).value.0;
            && BalanceOf(t, x.seller, x.wants)
               == BalanceOf(s, x.seller, x.wants) + trade.makerPays
                  + (if x.seller == y.seller then Refund(y, trade.makerPays, true) else 0)
            && BalanceOf(t, y.seller, y.wants) == BalanceOf(s, y.seller, y.wants) + trade.takerPays
  {
    hide BalanceOf, Match, MatchLimits, IsDust;
    var x, y := s.limits[taker], s.limits[maker];
    MatchPays(s, taker, maker, trade, 0, 0, 0, 0, x.seller, x.wants);
    MatchPays(s, taker, maker, trade, 0, 0, 0, 0, y.seller, y.wants);
  }

  // ---------- positions and requests ----------

  // A position that repays all its debt frees what is left of its collateral to its borrower.
  lemma CallPays(s: State, id: nat, pays: nat, receives: nat, who: nat, a: nat)
    requires id in s.calls && receives <= s.calls[id].debt && s.calls[id].debtAsset in s.assets
    ensures FillCall(s, id, pays, receives).Some? <==> pays <= s.calls[id].collateral
    ensures FillCall(s, id, pays, receives).Some? ==>
              var c := s.calls[id];
              BalanceOf(FillCall(s, id, pays, receives).value, who, a)
              == BalanceOf(s, who, a)
                 + if receives == c.debt then Gain(who, a, c.borrower, c.collateralAsset, c.collateral - pays) else 0
  {
    hide Credit, BalanceOf;
    var c := s.calls[id];
    var t := AddSupply(s, c.debtAsset, -(receives as int));
    SupplyMovesNothing(s, t.assets, who, a);
    if pays <= c.collateral && receives == c.debt {
      CallsMoveNothing(t, t.calls - {id}, who, a);
      CreditMoves(t.(calls := t.calls - {id}), c.borrower, c.collateralAsset, c.collateral - pays, who, a);
    } else if pays <= c.collateral {
      CallsMoveNothing(t, FillCall(s, id, pays, receives).value.calls, who, a);
    }
  }

  lemma SupplyMovesNothing(s: State, assets: map<nat, Asset>, who: nat, a: nat)
    ensures BalanceOf(s.(assets := assets), who, a) == BalanceOf(s, who, a)
  {
  }

  lemma CallsMoveNothing(s: State, calls: map<nat, CallOrder>, who: nat, a: nat)
    ensures BalanceOf(s.(calls := calls), who, a) == BalanceOf(s, who, a)
  {
  }

  lemma SettlesMoveNothing(s: State, settles: map<nat, Settlement>, who: nat, a: nat)
    ensures BalanceOf(s.(settles := settles), who, a) == BalanceOf(s, who, a)
  {
  }

  // The owner of a request gets what it receives less the issuer's fee, and the issuer's asset accumulates the fee.
  lemma SettlementPays(s: State, id: nat, pays: nat, paidIn: nat, receives: nat, fee: nat, who: nat, a: nat)
    requires id in s.settles && pays <= s.settles[id].balance && paidIn in s.assets
    requires s.assets[paidIn].feePercent <= HUNDRED_PERCENT && fee <= receives
    requires IsFee(s.assets[paidIn], receives, fee)
    ensures var t := FillSettle(s, id, pays, paidIn, receives);
            && BalanceOf(t, who, a) == BalanceOf(s, who, a) + Gain(who, a, s.settles[id].owner, paidIn, receives - fee)
            && t.assets == s.assets[paidIn := s.assets[paidIn].(fees := s.assets[paidIn].fees + fee)]
  {
    hide Credit, MarketFee, BalanceOf, IsFee;
    MarketFeeIff(s.assets[paidIn], receives, fee);
    MarketFeeAtMostAmount(s.assets[paidIn], receives);
    var q := s.settles[id];
    var t := AddFees(s, paidIn, fee);
    var u := if pays < q.balance then t.(settles := t.settles[id := q.(balance := q.balance - pays)])
             else t.(settles := t.settles - {id});
    FeesMoveNothing(s, paidIn, fee, who, a);
    SettlesMoveNothing(t, u.settles, who, a);
    CreditMoves(u, q.owner, paidIn, receives - fee, who, a);
    CreditFrame(u, q.owner, paidIn, receives - fee);
  }

  lemma CancelSettlePays(s: State, id: nat, who: nat, a: nat)
    requires id in s.settles
    ensures var q := s.settles[id];
            BalanceOf(CancelSettle(s, id), who, a)
            == BalanceOf(s, who, a) + Gain(who, a, q.owner, q.asset, q.balance)
  {
    hide Credit, BalanceOf;
    var q := s.settles[id];
    var t := Credit(s, q.owner, q.asset, q.balance);
    CreditMoves(s, q.owner, q.asset, q.balance, who, a);
    SettlesMoveNothing(t, t.settles - {id}, who, a);
  }

  // A margin call: the bid's seller gets the collateral paid, less fee and cut, and a position without debt is freed.
  lemma MarginCallPays(s: State, c: nat, o: nat, usd: nat, core: nat, fee: nat, cut: nat, who: nat, a: nat)
    requires c in s.calls && o in s.limits && usd <= s.calls[c].debt && usd <= s.limits[o].forSale
    requires s.calls[c].debtAsset in s.assets && s.limits[o].wants in s.assets && FeesBounded(s.assets)
    requires ValidPrice(s.limits[o].price)
    requires MarginFill(s, c, o, usd, core).Some? && Charged(s, s.limits[o], core, fee, cut)
    ensures var x, y := s.calls[c], s.limits[o];
            BalanceOf(MarginFill(s, c, o, usd, core).value.0, who, a)
            == BalanceOf(s, who, a)
               + (if usd == x.debt then Gain(who, a, x.borrower, x.collateralAsset, x.collateral - core) else 0)
               + Proceeds(s, y, core, fee, cut, who, a) + Gain(who, a, y.seller, y.sells, Refund(y, usd, true))
  {
    hide FillCall, FillLimit, BalanceOf, IsFee, IsCut, IsDust, Proceeds;
    CallPays(s, c, core, usd, who, a);
    FillCallAssets(s, c, core, usd);
    var t := FillCall(s, c, core, usd).value;
    FillCallRates(s, c, core, usd);
    CallKeepsCharges(s, t, c, usd, s.limits[o], core, fee, cut);
    FillPays(t, o, usd, core, true, fee, cut, who, a);
    SameProceeds(s, t, s.limits[o], core, fee, cut, who, a);
  }

  lemma FillCallRates(s: State, id: nat, pays: nat, receives: nat)
    requires id in s.calls && receives <= s.calls[id].debt && s.calls[id].debtAsset in s.assets
    requires FillCall(s, id, pays, receives).Some?
    ensures FillCall(s, id, pays, receives).value.exchangeRates == s.exchangeRates
  {
  }

  lemma CallKeepsCharges(s: State, t: State, c: nat, usd: nat, o: LimitOrder, receives: nat, fee: nat, cut: nat)
    requires c in s.calls && s.calls[c].debtAsset in s.assets && t.exchangeRates == s.exchangeRates
    requires var d := s.calls[c].debtAsset;
             t.assets == s.assets[d := s.assets[d].(supply := s.assets[d].supply - usd)]
    requires Charged(s, o, receives, fee, cut)
    ensures Charged(t, o, receives, fee, cut)
  {
  }

  // A forced settlement: the request's owner gets the collateral paid, less the fee, and a position without debt is
  // freed.
  lemma ForcedSettlementPays(s: State, c: nat, q: nat, usd: nat, core: nat, fee: nat, who: nat, a: nat)
    requires c in s.calls && q in s.settles && usd <= s.calls[c].debt && usd <= s.settles[q].balance
    requires s.calls[c].debtAsset in s.assets && s.calls[c].collateralAsset in s.assets && FeesBounded(s.assets)
    requires s.calls[c].debtAsset != s.calls[c].collateralAsset
    requires SettleFill(s, c, q, usd, core).Some?
    requires fee <= core && IsFee(s.assets[s.calls[c].collateralAsset], core, fee)
    ensures var x := s.calls[c];
            BalanceOf(SettleFill(s, c, q, usd, core).value, who, a)
            == BalanceOf(s, who, a)
               + (if usd == x.debt then Gain(who, a, x.borrower, x.collateralAsset, x.collateral - core) else 0)
               + Gain(who, a, s.settles[q].owner, x.collateralAsset, core - fee)
  {
    hide FillCall, FillSettle, BalanceOf, IsFee;
    CallPays(s, c, core, usd, who, a);
    FillCallAssets(s, c, core, usd);
    var t := FillCall(s, c, core, usd).value;
    SettlementPays(t, q, usd, s.calls[c].collateralAsset, core, fee, who, a);
  }

  // A holder who turns an amount in for its share of a fund gets the whole part of the share.
  lemma FundPays(s: State, whom: nat, m: nat, amount: nat, share: nat, who: nat, a: nat)
    requires m in s.assets && s.assets[m].bit.Some? && s.assets[m].bit.value.settled.Some?
    requires var p := s.assets[m].bit.value.settled.value;
             p.base > 0 && share * p.base <= amount * p.quote < (share + 1) * p.base
    requires SettleFromFund(s, whom, m, amount).Some?
    ensures var b := s.assets[m].bit.value;
            var t := SettleFromFund(s, whom, m, amount).value;
            && BalanceOf(t, who, a)
               == BalanceOf(s, who, a) - Gain(who, a, whom, m, amount) + Gain(who, a, whom, b.backing, share)
            && share <= b.fund
            && t.assets == s.assets[m := s.assets[m].(supply := s.assets[m].supply - amount,
                                                      bit := Some(b.(fund := b.fund - share)))]
  {
    hide Credit, Debit, BalanceOf;
    var b := s.assets[m].bit.value;
    FloorIff(amount * b.settled.value.quote, b.settled.value.base, share);
    DebitMoves(s, whom, m, amount, who, a);
    DebitFrame(s, whom, m, amount);
    var t := Debit(s, whom, m, amount).value;
    var u := t.(assets := t.assets[m := t.assets[m].(bit := Some(b.(fund := b.fund - share)))]);
    SupplyMovesNothing(t, u.assets, who, a);
    CreditMoves(u, whom, b.backing, share, who, a);
    CreditFrame(u, whom, b.backing, share);
    var v := Credit(u, whom, b.backing, share);
    SupplyMovesNothing(v, AddSupply(v, m, -(amount as int)).assets, who, a);
  }

  // ---------- a global settlement ----------

  // What each position of `m` pays, in numbers.
  ghost predicate AllTaken(calls: map<nat, CallOrder>, m: nat, p: Price, taken: map<nat, nat>) {
    forall c <- calls :: calls[c].debtAsset == m ==> c in taken && IsTaken(calls[c], p, taken[c])
  }

  // What the positions of `who` in `m` get back.
  ghost function Returned(m: nat, taken: map<nat, nat>, who: nat): (nat, CallOrder) -> int {
    (k: nat, c: CallOrder) => if c.debtAsset == m && c.borrower == who && k in taken then c.collateral - taken[k] else 0
  }

  ghost function TakenIn(m: nat, taken: map<nat, nat>): (nat, CallOrder) -> int {
    (k: nat, c: CallOrder) => if c.debtAsset == m && k in taken then taken[k] else 0
  }

  ghost predicate BackedIn(calls: map<nat, CallOrder>, m: nat, backing: nat) {
    forall c <- calls :: calls[c].debtAsset == m ==> calls[c].collateralAsset == backing
  }

  lemma OneReturned(s: State, m: nat, p: Price, c: nat, gathered: nat, taken: map<nat, nat>, backing: nat,
                    who: nat, a: nat)
    requires ClosedOne(s, m, p, c, gathered).Some? && AllTaken(s.calls, m, p, taken) && BackedIn(s.calls, m, backing)
    ensures var r := ClosedOne(s, m, p, c, gathered).value;
            && c in s.calls && r.0.calls == s.calls - {c}
            && BalanceOf(r.0, who, a) + (if a == backing then Total(r.0.calls, Returned(m, taken, who)) else 0)
               == BalanceOf(s, who, a) + (if a == backing then Total(s.calls, Returned(m, taken, who)) else 0)
            && r.1 + Total(r.0.calls, TakenIn(m, taken)) == gathered + Total(s.calls, TakenIn(m, taken))
            && r.0.exchangeRates == s.exchangeRates
  {
    hide FillCall, BalanceOf, SwanPays, IsTaken, Total;
    var x := s.calls[c];
    SwanPaysIff(x, p, taken[c]);
    CallPays(s, c, taken[c], x.debt, who, a);
    FillCallAssets(s, c, taken[c], x.debt);
    FillCallRates(s, c, taken[c], x.debt);
    TotalRemove(s.calls, c, Returned(m, taken, who));
    TotalRemove(s.calls, c, TakenIn(m, taken));
  }

  lemma {:induction false} SomeReturned(s: State, m: nat, p: Price, order: seq<nat>, taken: map<nat, nat>, backing: nat,
                                        who: nat, a: nat)
    requires ClosedSeq(s, m, p, order).Some? && AllTaken(s.calls, m, p, taken) && BackedIn(s.calls, m, backing)
    ensures var r := ClosedSeq(s, m, p, order).value;
            && r.0.calls.Keys <= s.calls.Keys && (forall c <- r.0.calls :: r.0.calls[c] == s.calls[c])
            && BalanceOf(r.0, who, a) + (if a == backing then Total(r.0.calls, Returned(m, taken, who)) else 0)
               == BalanceOf(s, who, a) + (if a == backing then Total(s.calls, Returned(m, taken, who)) else 0)
            && r.1 + Total(r.0.calls, TakenIn(m, taken)) == Total(s.calls, TakenIn(m, taken))
    decreases |order|
  {
    hide ClosedOne, BalanceOf, Total, IsTaken;
    if order != [] {
      var before := order[..|order| - 1];
      SomeReturned(s, m, p, before, taken, backing, who, a);
      var r := ClosedSeq(s, m, p, before).value;
      OneReturned(r.0, m, p, order[|order| - 1], r.1, taken, backing, who, a);
    }
  }

  // Settling an asset globally gives each borrower back, in the backing asset, what its positions did not have to pay,
  // and nobody else anything; what they paid is the fund.
  lemma SettlementReturns(s: State, m: nat, p: Price, order: seq<nat>, taken: map<nat, nat>, backing: nat,
                          who: nat, a: nat)
    requires GloballySettled(s, m, p, order).Some? && AllTaken(s.calls, m, p, taken) && BackedIn(s.calls, m, backing)
    ensures var t := GloballySettled(s, m, p, order).value;
            && BalanceOf(t, who, a)
               == BalanceOf(s, who, a) + (if a == backing then Total(s.calls, Returned(m, taken, who)) else 0)
            && m in t.assets && t.assets[m].bit.Some?
            && t.assets[m].bit.value.fund == Total(s.calls, TakenIn(m, taken))
            && m in s.assets && t.assets[m].supply == s.assets[m].supply
            && t.assets[m].bit.value.settled == Some(Price(s.assets[m].supply, t.assets[m].bit.value.fund))
  {
    hide ClosedSeq, BalanceOf, Total, IsTaken, PositionsIn;
    SomeReturned(s, m, p, order, taken, backing, who, a);
    var r := ClosedSeq(s, m, p, order).value;
    NoneLeft(r.0.calls, m, taken, who);
    SupplyMovesNothing(r.0, FinishGlobalSettlement(r.0, m, r.1, s.assets[m].supply).assets, who, a);
  }

  lemma NoneLeft(calls: map<nat, CallOrder>, m: nat, taken: map<nat, nat>, who: nat)
    requires PositionsIn(calls, m) == {}
    ensures Total(calls, Returned(m, taken, who)) == 0 && Total(calls, TakenIn(m, taken)) == 0
  {
    forall c | c in calls
      ensures calls[c].debtAsset != m
    {
      assert c !in PositionsIn(calls, m);
    }
    TotalZero(calls, Returned(m, taken, who));
    TotalZero(calls, TakenIn(m, taken));
  }
}

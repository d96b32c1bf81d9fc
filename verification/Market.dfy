// The market as the node keeps it: objects updated in place by nested operations.
// An operation that reports failure stands for a failed check; its caller's undo session then restores the state.
// Source: libraries/chain/db_market.cpp, libraries/chain/db_update.cpp:200-255, libraries/chain/db_balance.cpp:53-80.
module Markets {
  import opened Options
  import opened Config
  import opened Prices
  import opened Totals
  import opened Ordering
  import opened Ledger
  import opened Book
  import opened Margin
  import opened Trading
  import opened Events
  import opened Calls

  // If an order has traded or gone, every crossing order ahead of it is gone.
  ghost predicate InPriority(before: map<nat, LimitOrder>, after: map<nat, LimitOrder>, taker: LimitOrder) {
    forall i, j ::
      && i in before && j in before && Meets(taker, before[i]) && Meets(taker, before[j])
      && Precedes(Inverse(before[i].price), i, Inverse(before[j].price), j)
      && (j !in after || after[j] != before[j]) ==>
           i !in after
  }

  class Market {
    var balances: map<(nat, nat), nat>
    var limits: map<nat, LimitOrder>
    var calls: map<nat, CallOrder>
    var settles: map<nat, Settlement>
    var assets: map<nat, Asset>
    var pendingFees: nat
    var exchangeRates: map<(nat, nat, nat), nat>
    var nextLimit: nat
    var nextCall: nat
    var nextSettle: nat

    constructor (assets: map<nat, Asset>, rates: map<(nat, nat, nat), nat>)
      ensures S() == State(map[], map[], map[], map[], assets, 0, rates)
      ensures nextLimit == nextCall == nextSettle == 0
    {
      balances, limits, calls, settles := map[], map[], map[], map[];
      this.assets, pendingFees, exchangeRates := assets, 0, rates;
      nextLimit, nextCall, nextSettle := 0, 0, 0;
    }

    ghost function S(): State
      reads this
    {
      State(balances, limits, calls, settles, assets, pendingFees, exchangeRates)
    }

    // ---------- single movements ----------

    method Deposit(who: nat, a: nat, x: nat)
      modifies `balances
      ensures S() == Credit(old(S()), who, a, x)
    {
      if x == 0 {
        return;
      }
      var before := if (who, a) in balances then balances[(who, a)] else 0;
      balances := balances[(who, a) := before + x];
    }

    method Withdraw(who: nat, a: nat, x: nat) returns (ok: bool)
      modifies `balances
      ensures ok <==> Debit(old(S()), who, a, x).Some?
      ensures ok ==> S() == Debit(old(S()), who, a, x).value
      ensures !ok ==> S() == old(S())
    {
      if x == 0 {
        return true;
      }
      if (who, a) !in balances || balances[(who, a)] < x {
        return false;
      }
      balances := balances[(who, a) := balances[(who, a)] - x];
      return true;
    }

    method PayMarketFees(a: nat, receives: nat) returns (fees: nat)
      requires a in assets && assets[a].feePercent <= HUNDRED_PERCENT
      modifies `assets
      ensures fees == MarketFee(old(assets[a]), receives) && fees <= receives
      ensures S() == AddFees(old(S()), a, fees)
    {
      fees := MarketFee(assets[a], receives);
      MarketFeeAtMostAmount(assets[a], receives);
      assets := assets[a := assets[a].(fees := assets[a].fees + fees)];
    }

    method CancelLimitOrder(id: nat)
      requires id in limits
      modifies `balances, `limits
      ensures S() == CancelLimit(old(S()), id)
    {
      var o := limits[id];
      Deposit(o.seller, o.sells, o.forSale);
      Deposit(o.seller, CORE, o.deferredFee);
      limits := limits - {id};
    }

    method PaySeller(o: LimitOrder, receives: nat) returns (ok: bool)
      requires o.wants in assets && assets[o.wants].feePercent <= HUNDRED_PERCENT
      modifies `balances, `assets, `pendingFees
      ensures ok <==> PayProceeds(old(S()), o, receives).Some?
      ensures ok ==> S() == PayProceeds(old(S()), o, receives).value
    {
      hide Credit, Debit, MarketFee;
      var fees := PayMarketFees(o.wants, receives);
      var net := receives - fees;
      Deposit(o.seller, o.wants, net);
      var receiver, cut := 0, 0;
      if o.exchange.Some? && (o.exchange.value, o.wants, o.sells) in exchangeRates {
        receiver := o.exchange.value;
        cut := net * exchangeRates[(receiver, o.wants, o.sells)] / EXCHANGE_RATE_SCALE;
      }
      ok := Withdraw(o.seller, o.wants, cut);
      if !ok {
        return;
      }
      Deposit(receiver, o.wants, cut);
      pendingFees := pendingFees + o.deferredFee;
    }

    method FillLimitOrder(id: nat, pays: nat, receives: nat, cull: bool) returns (ok: bool, filled: bool)
      requires id in limits && pays <= limits[id].forSale
      requires limits[id].wants in assets && assets[limits[id].wants].feePercent <= HUNDRED_PERCENT
      modifies `balances, `assets, `pendingFees, `limits
      ensures ok <==> FillLimit(old(S()), id, pays, receives, cull).Some?
      ensures ok ==> FillLimit(old(S()), id, pays, receives, cull) == Some((S(), filled))
    {
      hide PayProceeds, CancelLimit;
      var o := limits[id];
      PayProceedsLimits(S(), o, receives);
      ok := PaySeller(o, receives);
      if !ok {
        return false, false;
      }
      if pays == o.forSale {
        limits := limits - {id};
        return true, true;
      }
      limits := limits[id := o.(forSale := o.forSale - pays, deferredFee := 0)];
      if !cull {
        return true, false;
      }
      ok, filled := CullIfSmall(id);
    }

    // An order that asks for nothing in return is refunded.
    method CullIfSmall(id: nat) returns (ok: bool, culled: bool)
      requires id in limits
      modifies `balances, `limits
      ensures ok <==> ToQuote(old(limits[id]).forSale, old(limits[id]).price).Some?
      ensures ok ==> (culled <==> ToQuote(old(limits[id]).forSale, old(limits[id]).price).value == 0)
      ensures ok ==> S() == if culled then CancelLimit(old(S()), id) else old(S())
    {
      hide CancelLimit;
      match ToQuote(limits[id].forSale, limits[id].price)
      case None =>
        return false, false;
      case Some(gets) =>
        if gets == 0 {
          CancelLimitOrder(id);
        }
        return true, gets == 0;
    }

    method FillCallOrder(id: nat, pays: nat, receives: nat) returns (ok: bool)
      requires id in calls && receives <= calls[id].debt && calls[id].debtAsset in assets
      modifies `balances, `calls, `assets
      ensures ok <==> FillCall(old(S()), id, pays, receives).Some?
      ensures ok ==> S() == FillCall(old(S()), id, pays, receives).value
    {
      hide Credit;
      var c := calls[id];
      if pays > c.collateral {
        return false;
      }
      var mia := assets[c.debtAsset];
      assets := assets[c.debtAsset := mia.(supply := mia.supply - receives)];
      if receives == c.debt {
        calls := calls - {id};
        Deposit(c.borrower, c.collateralAsset, c.collateral - pays);
      } else {
        calls := calls[id := c.(debt := c.debt - receives, collateral := c.collateral - pays)];
      }
      return true;
    }

    method FillSettlement(id: nat, pays: nat, paidIn: nat, receives: nat)
      requires id in settles && pays <= settles[id].balance
      requires paidIn in assets && assets[paidIn].feePercent <= HUNDRED_PERCENT
      modifies `balances, `settles, `assets
      ensures S() == FillSettle(old(S()), id, pays, paidIn, receives)
    {
      hide Credit, MarketFee;
      var q := settles[id];
      var fees := PayMarketFees(paidIn, receives);
      if pays < q.balance {
        settles := settles[id := q.(balance := q.balance - pays)];
      } else {
        settles := settles - {id};
      }
      Deposit(q.owner, paidIn, receives - fees);
    }

    method CancelSettlement(id: nat)
      requires id in settles
      modifies `balances, `settles
      ensures S() == CancelSettle(old(S()), id)
    {
      var q := settles[id];
      Deposit(q.owner, q.asset, q.balance);
      settles := settles - {id};
    }

    // ---------- matching ----------

    // The result says which of the two orders is gone.
    method MatchOrders(taker: nat, maker: nat) returns (ok: bool, takerFilled: bool, makerFilled: bool)
      requires taker in limits && maker in limits && taker != maker
      requires Sound(limits, assets) && FeesBounded(assets)
      modifies `balances, `assets, `pendingFees, `limits
      ensures ok <==> MatchLimits(old(S()), taker, maker).Some?
      ensures ok ==> MatchLimits(old(S()), taker, maker) == Some((S(), takerFilled, makerFilled))
    {
      hide FillLimit, Match, SameAssetsButFees;
      var x, y := limits[taker], limits[maker];
      takerFilled, makerFilled := false, false;
      match Match(x.forSale, y.forSale, y.price)
      case None =>
        ok := false;
      case Some(trade) =>
        MatchConsumes(x.forSale, y.forSale, y.price);
        ok, takerFilled := FillLimitOrder(taker, trade.takerPays, trade.makerPays, false);
        if ok {
          FillLimitBook(old(S()), taker, trade.takerPays, trade.makerPays, false);
          FeesKeepFees(old(assets), assets);
          ok, makerFilled := FillLimitOrder(maker, trade.makerPays, trade.takerPays, true);
        }
    }

    // The taker trades with the crossing orders, best price first, until it is used up or none is left.
    method MatchBook(taker: nat) returns (ok: bool, ghost events: seq<Event>)
      requires Good(S()) && taker in limits
      modifies `balances, `assets, `pendingFees, `limits
      ensures ok ==> Trades(old(S()), S(), Some(taker))
      ensures ok ==> TookFromBook(old(S()), events, S(), taker)
      ensures ok ==> InPriority(old(limits), limits, old(limits[taker]))
      ensures !ok ==> MatchFails(old(S()), events, taker)
    {
      hide MatchLimits, Trades, Good, Precedes, Crosses, Sound, FeesBounded, InPriority, Sweeping, Replay, MatchFails;
      ghost var s0 := S();
      events := [];
      ReplayNothing(s0);
      var x := limits[taker];
      GoodOrder(s0, taker);
      var todo := map i | i in limits && Meets(x, limits[i]) :: Inverse(limits[i].price);
      var finished := false;
      TradesReflexive(s0, Some(taker));
      SweepStart(limits, taker, todo);
      while !finished && todo != map[]
        invariant Trades(s0, S(), Some(taker))
        invariant finished <==> taker !in limits
        invariant Sweeping(s0.limits, limits, taker, todo)
        invariant Replay(s0, events) == Some(S()) && forall e <- events :: e.Matched? && e.taker == taker
        decreases todo.Keys
      {
        ghost var s1 := S();
        SweepFacts(s0, s1, taker, todo);
        var maker := First(todo);
        GoodOrder(s1, taker);
        TradesOrder(s0, s1, Some(taker), taker);
        StillOpposite(x, limits[taker], limits[maker]);
        var takerFilled, makerFilled;
        ok, takerFilled, makerFilled := MatchOrders(taker, maker);
        if !ok {
          MatchFailsAt(s0, events, s1, x, taker, maker);
          return;
        }
        MatchReplays(s0, events, s1, x, taker, maker);
        events := events + [Matched(taker, maker)];
        MatchTrades(s1, taker, maker);
        TradesGood(s1, S(), Some(taker));
        MatchLimitsBook(s1, taker, maker);
        TradesTransitive(s0, s1, S(), Some(taker));
        SweepStep(s0.limits, s1.limits, limits, taker, maker, todo);
        todo := todo - {maker};
        finished := !(makerFilled && !takerFilled);
      }
      SweepEnd(s0, S(), taker, todo);
      ok := true;
    }

    // ---------- global settlement ----------

    // Closes every position in `m` at the price and turns the collateral gathered into the settlement fund.
    method GloballySettle(m: nat, p: Price) returns (ok: bool, ghost order: seq<nat>)
      requires Good(S()) && m in assets && assets[m].bit.Some?
      modifies `balances, `calls, `assets
      ensures ok <==> Open(old(assets), m) && !Unpayable(old(calls), m, p)
      ensures ok ==> OnlyClosed(old(calls), calls) && PositionsIn(calls, m) == {}
      ensures ok ==> Trades(old(S()), S(), None) && Open(old(assets), m) && m in assets
      ensures ok ==>
        assets[m].supply == old(assets[m]).supply >= 0 && assets[m].bit.Some?
        && var fund := Total(old(calls), SwanPart(m, p));
           fund >= 0 && assets[m].bit == Some(old(assets[m]).bit.value.(fund := fund,
             settled := Some(Price(assets[m].supply, fund))))
      ensures ok ==> GloballySettled(old(S()), m, p, order) == Some(S())
    {
      hide FillCall, Trades, Good, SwanPays, Closing, ClosedSeq, Total, Unpayable, OnlyClosed;
      order := [];
      if assets[m].bit.value.settled.Some? {
        return false, [];
      }
      ghost var s0 := S();
      SupplyNonNegative(s0, m);
      var supply := assets[m].supply;
      var gathered;
      ok, gathered, order := CloseCalls(m, p);
      if !ok {
        return;
      }
      AllClosed(s0, S(), m, gathered, p);
      ClosingEnd(s0, S(), m, gathered);
      ClosedAll(s0, S(), m, p, order, gathered);
      StartFund(m, gathered, supply);
      ok := true;
    }

    method CloseCalls(m: nat, p: Price) returns (ok: bool, gathered: nat, ghost order: seq<nat>)
      requires Good(S()) && Open(assets, m)
      modifies `balances, `calls, `assets
      ensures ok <==> !Unpayable(old(calls), m, p)
      ensures ok ==> OnlyClosed(old(calls), calls) && PositionsIn(calls, m) == {}
      ensures ok ==> Closing(old(S()), S(), m, gathered, {})
      ensures ok ==> gathered + Total(calls, SwanPart(m, p)) == Total(old(calls), SwanPart(m, p))
      ensures ok ==> ClosedSeq(old(S()), m, p, order) == Some((S(), gathered))
    {
      hide FillCall, Good, SwanPays, Closing, Precedes, ClosedSeq, ClosedOne, OnlyClosed, PositionsIn, Unpayable, Total;
      gathered, order := 0, [];
      ghost var s0 := S();
      var todo := map c | c in calls && calls[c].debtAsset == m :: calls[c].callPrice;
      assert todo.Keys == PositionsIn(calls, m) by { PositionsAre(calls, m, todo); }
      ClosingBegins(s0, m);
      NonePaid(s0.calls, m, p);
      NoneClosed(s0, m, p);
      while todo != map[]
        invariant Closing(s0, S(), m, gathered, todo.Keys)
        invariant forall c <- todo :: todo[c].quote > 0
        invariant OnlyClosed(s0.calls, calls) && todo.Keys == PositionsIn(calls, m)
        invariant PaidSoFar(s0.calls, m, p, todo.Keys)
        invariant gathered + Total(calls, SwanPart(m, p)) == Total(s0.calls, SwanPart(m, p))
        invariant ClosedSeq(s0, m, p, order) == Some((S(), gathered))
        decreases todo.Keys
      {
        ghost var s1 := S();
        var c := First(todo);
        ClosingPosition(s0, s1, m, gathered, todo.Keys, c);
        var pays;
        ok, pays := CloseCall(m, c, p);
        StillUnpaid(s0.calls, s1.calls, m, p, c);
        if !ok {
          return;
        }
        CloseOne(s0.calls, s1, m, c, pays);
        PaidNext(s0.calls, m, p, todo.Keys, c);
        ClosingStep(s0, s1, m, gathered, todo.Keys, c, pays);
        ClosingTotal(s1, m, p, c, pays);
        OneClosed(s0, s1, m, p, order, gathered, c, pays);
        gathered := gathered + pays;
        order := order + [c];
        todo := todo - {c};
      }
      assert todo.Keys == {};
      AllPaid(s0.calls, m, p);
      ok := true;
    }

    // One position pays for its debt at the price, with all its collateral if that is not enough.
    method CloseCall(m: nat, c: nat, p: Price) returns (ok: bool, pays: nat)
      requires c in calls && calls[c].debtAsset in assets
      modifies `balances, `calls, `assets
      ensures ok <==> SwanPays(old(calls[c]), p).Some?
      ensures ok ==>
                SwanPays(old(calls[c]), p) == Some(pays)
                && FillCall(old(S()), c, pays, old(calls[c]).debt) == Some(S())
    {
      hide FillCall;
      pays := 0;
      match SwanPays(calls[c], p)
      case None =>
        ok := false;
      case Some(x) =>
        pays := x;
        SwanPaid(S(), c, p);
        ok := FillCallOrder(c, pays, calls[c].debt);
    }

    method StartFund(m: nat, gathered: nat, supply: int)
      requires m in assets && assets[m].bit.Some? && supply >= 0
      modifies `assets
      ensures S() == FinishGlobalSettlement(old(S()), m, gathered, supply)
    {
      var bit := assets[m].bit.value;
      assets := assets[m := assets[m].(supply := supply,
        bit := Some(bit.(fund := gathered, settled := Some(Price(supply, gathered)))))];
    }

    // The order that offers the most of asset `m` for its backing asset.
    method BestBid(m: nat, backing: nat) returns (best: Option<nat>)
      requires Good(S())
      ensures best.Some? ==> best.value in limits && BidFor(limits[best.value], m, backing)
      ensures forall o <- limits :: BidFor(limits[o], m, backing) ==>
                best.Some? && (o != best.value ==>
                  Precedes(Inverse(limits[best.value].price), best.value, Inverse(limits[o].price), o))
    {
      hide Good, Precedes, BidFor;
      var bids := map o | o in limits && BidFor(limits[o], m, backing) :: Inverse(limits[o].price);
      assert forall o <- limits :: BidFor(limits[o], m, backing) ==> o in bids;
      if bids == map[] {
        return None;
      }
      BidKeys(S(), bids);
      var o := First(bids);
      best := Some(o);
    }

    // The position in `m` that is first in line to be called.
    method FirstCall(m: nat) returns (first: Option<nat>)
      requires Good(S())
      ensures if first.Some? then FirstPosition(calls, m, first.value) else PositionsIn(calls, m) == {}
    {
      hide Good, Precedes, FirstPosition;
      var positions := map c | c in calls && calls[c].debtAsset == m :: calls[c].callPrice;
      assert positions.Keys == PositionsIn(calls, m);
      if positions == map[] {
        return None;
      }
      PositionKeys(S(), positions);
      var c := First(positions);
      FirstIsFirst(calls, m, positions, c);
      first := Some(c);
    }

    // Settles the asset globally if its first position cannot be covered.
    method CheckForBlackSwan(m: nat, enable: bool) returns (ok: bool, swan: bool, ghost events: seq<Event>)
      requires Good(S()) && m in assets
      modifies `balances, `calls, `assets
      ensures ok <==> !SwanFails(old(S()), m, enable)
      ensures ok ==> Trades(old(S()), S(), None) && m in assets
      ensures ok && swan ==> OnlyClosed(old(calls), calls) && (Open(old(assets), m) ==> PositionsIn(calls, m) == {})
      ensures ok ==> (swan <==> old(assets[m]).bit.Some? && (!Open(old(assets), m) || Swan(old(S()), m)))
      ensures ok && (!swan || !Open(old(assets), m)) ==> S() == old(S()) && events == []
      ensures ok && swan ==> !Open(assets, m)
      ensures ok ==> Replay(old(S()), events) == Some(S()) && (swan && Open(old(assets), m) ==> events != [])
    {
      hide Trades, Good, Precedes, Less, Swan, Higher, BidFor, PositionsIn, GloballySettled, Unpayable, SwanFails,
           Total, SwanPays;
      TradesReflexive(S(), None);
      SwanFailsOnlyOpen(S(), m, enable);
      events := [];
      if assets[m].bit == None {
        return true, false, [];
      }
      if assets[m].bit.value.settled.Some? {
        return true, true, [];
      }
      var bit := assets[m].bit.value;
      var first := FirstCall(m);
      if bit.feed == None || first == None {
        NoSwan(S(), m);
        return true, false, [];
      }
      var best := BestBid(m, bit.backing);
      var highest := if best.Some? then Higher(limits[best.value].price, bit.feed.value.price)
        else bit.feed.value.price;
      SwanIffBest(S(), m, first.value, best, highest);
      var least := Price(calls[first.value].debt, calls[first.value].collateral);
      if Less(least, highest) {
        return true, false, [];
      }
      SwanFailsIff(S(), m, first.value, enable);
      if !enable {
        return false, true, [];
      }
      ghost var order;
      ok, order := GloballySettle(m, least);
      swan := true;
      if ok {
        events := [Closed(m, least, order)];
        DoomedBySwan(old(S()), m, first.value, order);
      }
    }

    // ---------- margin calls ----------

    // The position buys back as much of its debt as the bid sells, at the bid's price.
    method MarginCall(c: nat, o: nat) returns (ok: bool, filledCall: bool, filledLimit: bool)
      requires Good(S()) && c in calls && o in limits && BidFor(limits[o], calls[c].debtAsset, calls[c].collateralAsset)
      requires Callable(S(), c, o)
      modifies `balances, `limits, `calls, `assets, `pendingFees
      ensures ok <==> CallFilled(old(S()), c, o).Some?
      ensures ok ==>
        var usd := if old(calls[c]).debt >= old(limits[o]).forSale then old(limits[o]).forSale else old(calls[c]).debt;
        && ToQuote(usd, old(limits[o]).price).Some?
        && usd <= old(calls[c]).debt && old(calls[c]).debtAsset in old(assets) && old(limits[o]).wants in old(assets)
        && FeesBounded(old(assets))
        && MarginFill(old(S()), c, o, usd, ToQuote(usd, old(limits[o]).price).value).Some?
        && S() == MarginFill(old(S()), c, o, usd, ToQuote(usd, old(limits[o]).price).value).value.0
        && (filledCall <==> usd == old(calls[c]).debt)
          && (filledLimit <==> old(calls[c]).debt >= old(limits[o]).forSale)
      ensures ok ==> Trades(old(S()), S(), None) && OnlyPosition(old(calls), calls, c) && (filledCall <==> c !in calls)
      ensures ok ==> SameBits(old(assets), assets)
    {
      hide Good, FillLimit, FillCall, SameBits, Trades, OnlyPosition;
      GoodOrder(S(), o);
      GoodCall(S(), c);
      filledCall, filledLimit := false, false;
      var toBuy, forSale := calls[c].debt, limits[o].forSale;
      var usd := if toBuy >= forSale then forSale else toBuy;
      match ToQuote(usd, limits[o].price)
      case None =>
        ok := false;
      case Some(core) =>
        ok := FillCallOrder(c, core, usd);
        if ok {
          FillCallAssets(old(S()), c, core, usd);
          var gone;
          ok, gone := FillLimitOrder(o, usd, core, true);
          filledCall, filledLimit := usd == toBuy, toBuy >= forSale;
          if ok {
            MarginTrades(old(S()), c, o, usd, core);
            MarginPositions(old(S()), c, o, usd, core);
            MarginBits(old(S()), c, o, usd, core);
          }
        }
    }

    // One position against one bid, unless the feed or the bid says the position is not to be called.
    method CallNext(c: nat, o: nat, feed: Feed, enable: bool) returns (r: CallResult, ghost events: seq<Event>)
      requires Good(S()) && c in calls && o in limits && BidFor(limits[o], calls[c].debtAsset, calls[c].collateralAsset)
      requires !Less(limits[o].price, feed.squeeze) && calls[c].debtAsset in assets
      requires var a := assets[calls[c].debtAsset];
               a.bit.Some? && !a.bit.value.predictionMarket && a.bit.value.feed == Some(feed)
      modifies `balances, `limits, `calls, `assets, `pendingFees
      ensures r.Failed? ==> CallFails(old(S()), c, o, enable)
      ensures r.Settled? ==> OnlyClosed(old(calls), calls) && PositionsIn(calls, old(calls[c]).debtAsset) == {}
      ensures r.Filled? ==>
                Callable(old(S()), c, o) && !Short(old(S()), c, o) && CallFilled(old(S()), c, o) == Some(S())
      ensures !r.Failed? ==> Trades(old(S()), S(), None) && Replay(old(S()), events) == Some(S())
      ensures r.Stopped? <==>
                Less(Inverse(old(calls[c]).callPrice), feed.price)
                || Less(Inverse(old(calls[c]).callPrice), old(limits[o]).price)
      ensures r.Stopped? ==> S() == old(S()) && events == []
      ensures r.Settled? ==>
                enable && old(calls[c]).debtAsset in assets && !Open(assets, old(calls[c]).debtAsset)
                && events != []
      ensures r.Filled? ==> OnlyPosition(old(calls), calls, c) && (r.call <==> c !in calls) && (r.call || r.bid)
      ensures r.Filled? ==> (r.bid <==> old(calls[c]).debt >= old(limits[o]).forSale)
      ensures r.Filled? ==> events == [Called(c, o)] && SameBits(old(assets), assets)
    {
      hide Trades, Good, Less, FillLimit, FillCall, Closing, OnlyPosition, SwanPays, GloballySettled, SameBits,
           Unpayable, OnlyClosed, PositionsIn;
      ghost var s0 := S();
      events := [];
      TradesReflexive(s0, None);
      GoodCall(s0, c);
      GoodOrder(s0, o);
      var position := calls[c];
      var callPrice := Inverse(position.callPrice);
      if Less(callPrice, feed.price) || Less(callPrice, limits[o].price) {
        return Stopped, [];
      }
      match ToQuote(position.debt, limits[o].price) {
        case None =>
          return Failed, [];
        case Some(need) =>
          if need > position.collateral {
            if !enable {
              return Failed, [];
            }
            var settled, order := GloballySettle(position.debtAsset, feed.price);
            if settled {
              ShortSettles(s0, c, o, order);
              return Settled, [Closed(position.debtAsset, feed.price, order)];
            }
            return Failed, [];
          }
      }
      var ok, filledCall, filledLimit := MarginCall(c, o);
      if ok {
        CallReplays(s0, S(), c, o);
        return Filled(filledCall, filledLimit), [Called(c, o)];
      }
      return Failed, [];
    }

    // Margin positions in `m` buy their debt from the bids that offer enough, lowest call price first.
    // `called` says whether any did. A bid that left the book while it was still the current one is a failure here.
    // Unless a bid was passed over, nothing is left to be called.
    method CheckCallOrders(m: nat, enable: bool) returns (ok: bool, called: bool, ghost events: seq<Event>)
      requires Good(S()) && m in assets
      modifies `balances, `limits, `calls, `assets, `pendingFees
      ensures ok ==> Trades(old(S()), S(), None) && m in assets
      ensures ok && !called ==> limits == old(limits)
      ensures ok && !called && !enable ==> events == []
      ensures ok && called ==> old(assets[m]).bit.Some? && !old(assets[m]).bit.value.predictionMarket && events != []
      ensures ok ==> Replay(old(S()), events) == Some(S()) && (events == [] ==> S() == old(S()))
      ensures ok && !Skips(old(S()), events) ==> Calm(S(), m)
      ensures ok && Collateralized(old(calls)) ==> Collateralized(calls)
      ensures !ok ==> GivesUp(old(S()), events, m, enable)
      ensures Calm(old(S()), m) && !Swan(old(S()), m) ==> ok && events == []
    {
      hide Trades, Good, Precedes, Less, Swan, Cursors, OnlyPosition, BidFor, Replay, Calm, SameBits, BidsPending,
           PositionsPending, Skips, UsedUp, Collateralized, CollateralizedButFirst, SwanFails, GivesUp, OnlyClosed,
           PositionsIn;
      ghost var s0 := S();
      TradesReflexive(s0, None);
      ReplayNothing(s0);
      NoneUsed(s0);
      called, events := false, [];
      var swan;
      ghost var swanEvents;
      ok, swan, swanEvents := CheckForBlackSwan(m, enable);
      if !ok {
        SwanFailsOnlyOpen(s0, m, enable);
        GivesUpAtSwan(s0, [], s0, m, enable);
        return false, false, [];
      }
      if swan {
        SwanFailsOff(s0, m);
        SettledCalm(s0, S(), m);
        SwanOpen(s0, m);
        return true, false, swanEvents;
      }
      if assets[m].bit == None || assets[m].bit.value.predictionMarket || assets[m].bit.value.feed == None {
        NotOpenCalm(s0, m);
        return true, false, [];
      }
      var backing, feed := assets[m].bit.value.backing, assets[m].bit.value.feed.value;
      var bids := map o | o in limits && BidFor(limits[o], m, backing)
        && !Less(limits[o].price, feed.squeeze) :: Inverse(limits[o].price);
      var todo := map c | c in calls && calls[c].debtAsset == m :: calls[c].callPrice;
      BidsStart(s0, m, bids);
      PositionsStart(calls, m, todo);
      if bids == map[] {
        NobodyCalls(s0, m, bids, todo);
        return true, false, [];
      }
      CursorsStart(s0, m, feed.squeeze, bids, todo);
      ok, called, events := CallInTurn(m, enable, backing, feed, bids, todo);
    }

    // The loop over the two cursors: `bids` and `todo` are what they have yet to pass.
    method CallInTurn(m: nat, enable: bool, backing: nat, feed: Feed, bids: map<nat, Price>, todo: map<nat, Price>)
      returns (ok: bool, called: bool, ghost events: seq<Event>)
      requires Good(S()) && Open(assets, m)
      requires !assets[m].bit.value.predictionMarket && assets[m].bit.value.feed == Some(feed)
      requires BidsPending(S(), m, bids) && PositionsPending(calls, m, todo)
      requires Cursors(limits, calls, m, backing, feed.squeeze, bids, todo)
      modifies `balances, `limits, `calls, `assets, `pendingFees
      ensures ok ==> Trades(old(S()), S(), None) && m in assets
      ensures ok && !called ==> limits == old(limits)
      ensures ok && called ==> events != []
      ensures ok && !called && !enable ==> events == []
      ensures ok ==> Replay(old(S()), events) == Some(S()) && (events == [] ==> S() == old(S()))
      ensures ok && !Skips(old(S()), events) ==> Calm(S(), m)
      ensures ok && Collateralized(old(calls)) ==> Collateralized(calls)
      ensures !ok ==> GivesUp(old(S()), events, m, enable)
      ensures Calm(old(S()), m) && !Swan(old(S()), m) ==> ok && events == []
    {
      hide Trades, Good, Precedes, Less, Swan, Cursors, OnlyPosition, BidFor, Replay, Calm, SameBits, BidsPending,
           PositionsPending, Skips, UsedUp, Collateralized, CollateralizedButFirst, SwanFails, GivesUp, OnlyClosed,
           PositionsIn, Turning, FirstPosition, BestEligible, CallFails, CallFilled, Callable, Short, Unpayable;
      ghost var s0 := S();
      ghost var bit := assets[m].bit;
      TradesReflexive(s0, None);
      CursorsQuotes(limits, calls, m, backing, feed.squeeze, bids, todo);
      TurnsStart(s0, m, bids, todo);
      NoneUsed(s0);
      called, events := false, [];
      var todo, bids := todo, bids;
      var passing := false;
      while true
        invariant Trades(s0, S(), None) && m in assets && assets[m].bit == bit
        invariant Cursors(s0.limits, calls, m, backing, feed.squeeze, bids, todo)
        invariant !called ==> limits == s0.limits
        invariant called <==> events != []
        invariant Turning(s0, events, S(), m, bids, todo, passing)
        invariant events == [] ==> S() == s0
        invariant Calm(s0, m) && !Swan(s0, m) ==> events == []
        decreases todo.Keys, bids.Keys
      {
        ghost var s1 := S();
        TradesGood(s0, s1, None);
        var swan;
        ghost var swanEvents;
        ok, swan, swanEvents := CheckForBlackSwan(m, enable);
        TurnReplays(s0, events, s1, m, bids, todo, passing);
        if !ok {
          SwanFailsOnlyOpen(s1, m, enable);
          GivesUpAtSwan(s0, events, s1, m, enable);
          return;
        }
        if swan {
          SwanFailsOff(s1, m);
          TradesTransitive(s0, s1, S(), None);
          ReplayThen(s0, events, s1, swanEvents);
          SettledCalm(s1, S(), m);
          TurnSettled(s0, events, s1, S(), m, bids, todo, passing);
          return true, called, events + swanEvents;
        }
        TurnCovered(s0, events, s1, m, bids, todo, passing);
        if todo == map[] || bids == map[] {
          TurnIdle(s0, events, s1, m, bids, todo, passing);
          return true, called, events;
        }
        CursorsQuotes(s0.limits, calls, m, backing, feed.squeeze, bids, todo);
        var c := First(todo);
        var o := First(bids);
        if o !in limits {
          TurnLost(s0, events, s1, m, bids, todo, passing, o, enable);
          return false, called, events;
        }
        CursorsAt(s0, s1, m, backing, feed.squeeze, bids, todo, c, o);
        TurnFirst(s0, events, s1, m, bids, todo, passing, c, o);
        var r;
        ghost var callEvents;
        r, callEvents := CallNext(c, o, feed, enable);
        if r.Failed? {
          GivesUpAtCall(s0, events, s1, m, c, o, enable);
          return false, called, events;
        }
        TradesTransitive(s0, s1, S(), None);
        ReplayThen(s0, events, s1, callEvents);
        match r {
          case Stopped =>
            return true, called, events;
          case Settled =>
            SettledCalm(s1, S(), m);
            TurnSettled(s0, events, s1, S(), m, bids, todo, passing);
            return true, true, events + callEvents;
          case Filled(filledCall, filledLimit) =>
            called := true;
            ghost var wasPassing := passing;
            passing := passing || filledLimit;
            var todo' := if filledCall then todo - {c} else todo;
            var bids' := if passing then bids - {o} else bids;
            CursorsMove(s0.limits, s1.calls, calls, m, backing, feed.squeeze, bids, todo, bids', todo', c);
            SameBit(s1.assets, assets, m);
            TurnNext(s0, events, s1, S(), m, bids, todo, wasPassing, c, o);
            todo, bids := todo', bids';
            events := events + callEvents;
        }
      }
    }

    // ---------- a new order ----------

    method CheckBoth(a: nat, b: nat) returns (ok: bool, called: bool, ghost events: seq<Event>)
      requires Good(S()) && a in assets && b in assets
      modifies `balances, `limits, `calls, `assets, `pendingFees
      ensures ok ==> Trades(old(S()), S(), None) && CalledBoth(old(S()), events, S(), a, b)
      ensures ok && !called ==> limits == old(limits)
      ensures ok && Collateralized(old(calls)) ==> Collateralized(calls)
      ensures !ok ==> BothGiveUp(old(S()), events, a, b)
    {
      hide Trades, Good, Replay, Calm, Collateralized, Skips, GivesUp, Swan, BothGiveUp;
      NoneUsed(old(S()));
      var first, second;
      ghost var firstEvents, secondEvents;
      ok, first, firstEvents := CheckCallOrders(a, true);
      called, events := first, firstEvents;
      if !ok {
        FirstGivesUp(old(S()), events, a, b);
        return;
      }
      ghost var s1 := S();
      NoneUsed(s1);
      TradesGood(old(S()), s1, None);
      TradesAssets(old(S()), s1, None, b);
      ok, second, secondEvents := CheckCallOrders(b, true);
      called := first || second;
      if !ok {
        SecondGivesUp(old(S()), firstEvents, s1, secondEvents, a, b);
        events := firstEvents + secondEvents;
      }
      if ok {
        TradesTransitive(old(S()), s1, S(), None);
        ReplayThen(old(S()), firstEvents, s1, secondEvents);
        events := firstEvents + secondEvents;
      }
    }

    // Margin calls first, then the book, then margin calls again; what is left of the order must still buy something.
    method ApplyOrder(id: nat) returns (ok: bool, filled: bool, ghost trace: OrderTrace)
      requires Good(S()) && id in limits
      modifies `balances, `limits, `calls, `assets, `pendingFees
      ensures ok ==> Trades(old(S()), S(), Some(id)) && (filled <==> id !in limits)
      ensures ok && Uncrossed(old(limits) - {id}) ==> Uncrossed(limits)
      ensures ok && DustFree(old(limits) - {id}) ==> DustFree(limits)
      ensures ok ==> OrderApplied(old(S()), S(), id, trace)
      ensures ok && Collateralized(old(calls)) ==> Collateralized(calls)
      ensures !ok ==> OrderFails(old(S()), id, trace)
    {
      hide Trades, Good, Uncrossed, DustFree, Meets, IsDust, Sound, FeesBounded, CalledBoth, Replay, CancelLimit,
           Collateralized, BothGiveUp, MatchFails;
      ghost var s0 := S();
      GoodOrder(s0, id);
      var sells, wants := limits[id].sells, limits[id].wants;
      var called;
      ghost var events;
      filled := false;
      ok, called, events := CheckBoth(sells, wants);
      trace := OrderTrace(events, S(), [], S(), [], S());
      if !ok {
        return;
      }
      ghost var s1 := S();
      TradesWeaken(s0, s1, Some(id));
      TradesGood(s0, s1, None);
      if called && id !in limits {
        BookRestored(s0, s1, s1, id);
        assert limits - {id} == limits;
        return true, true, trace;
      }
      ok, events := MatchBook(id);
      if !ok {
        trace := trace.(matched := events);
        return;
      }
      ghost var s2 := S();
      trace := trace.(matched := events, traded := s2);
      TradesTransitive(s0, s1, s2, Some(id));
      TradesGood(s1, s2, Some(id));
      BothAssets(s0, s2, Some(id), sells, wants);
      ok, called, events := CheckBoth(sells, wants);
      if !ok {
        trace := trace.(after := events);
        return;
      }
      ghost var s3 := S();
      trace := trace.(after := events, final := s3);
      TradesWeaken(s2, s3, Some(id));
      TradesTransitive(s0, s2, s3, Some(id));
      TradesGood(s2, s3, None);
      BookRestored(s0, s2, s3, id);
      if id !in limits {
        assert limits - {id} == limits;
        return true, true, trace;
      }
      ok, filled := FinishOrder(s0, id);
    }

    // The last step of a new order.
    method FinishOrder(ghost s0: State, id: nat) returns (ok: bool, culled: bool)
      requires Good(S()) && id in limits && Trades(s0, S(), Some(id))
      requires Uncrossed(s0.limits - {id}) ==> Uncrossed(limits)
      requires DustFree(s0.limits - {id}) ==> DustFree(limits - {id})
      modifies `balances, `limits
      ensures ok ==> Trades(s0, S(), Some(id)) && (culled <==> id !in limits)
      ensures ok && Uncrossed(s0.limits - {id}) ==> Uncrossed(limits)
      ensures ok && DustFree(s0.limits - {id}) ==> DustFree(limits)
      ensures ok <==> ToQuote(old(limits[id]).forSale, old(limits[id]).price).Some?
      ensures ok ==> S() == if ToQuote(old(limits[id]).forSale, old(limits[id]).price) == Some(0)
              then CancelLimit(old(S()), id) else old(S())
    {
      hide Trades, Good, Uncrossed, DustFree, IsDust, CancelLimit;
      ghost var s3 := S();
      GoodOrder(s3, id);
      DustBuysNothing(limits[id].forSale, limits[id].price);
      ok, culled := CullIfSmall(id);
      if !ok {
        return;
      }
      if culled {
        CancelTrades(s3, id);
        CancelLimitBook(s3, id);
        TradesWeaken(s3, S(), Some(id));
        TradesTransitive(s0, s3, S(), Some(id));
      }
      LastOne(s0.limits, s3.limits, limits, id);
    }
  }

  lemma BothAssets(s: State, t: State, taker: Option<nat>, a: nat, b: nat)
    requires Trades(s, t, taker) && a in s.assets && b in s.assets
    ensures a in t.assets && b in t.assets
  {
    hide Trades;
    TradesAssets(s, t, taker, a);
    TradesAssets(s, t, taker, b);
  }

  // The new order meets nothing, and the rest of the book is as good as it was.
  lemma BookRestored(s: State, t: State, u: State, id: nat)
    requires Trades(s, t, Some(id)) && (t == u || Trades(t, u, None)) && id in s.limits
             && s.limits[id].sells != s.limits[id].wants
    requires id in t.limits ==> forall i <- t.limits :: !Meets(t.limits[id], t.limits[i])
    ensures Uncrossed(s.limits - {id}) ==> Uncrossed(u.limits)
    ensures DustFree(s.limits - {id}) ==> DustFree(u.limits - {id})
  {
    hide Good, Moves, IsDust, Crosses, Meets;
    if Uncrossed(s.limits - {id}) {
      forall i, j | i in u.limits && j in u.limits
        ensures !Meets(u.limits[i], u.limits[j])
      {
        MeetsByPrice(t.limits[i], u.limits[i], t.limits[j], u.limits[j]);
        MeetsByPrice(s.limits[i], t.limits[i], s.limits[j], t.limits[j]);
        MeetsSymmetric(t.limits[i], t.limits[j]);
        if i != id && j != id {
          assert i in s.limits - {id} && j in s.limits - {id};
        }
      }
    }
    if DustFree(s.limits - {id}) {
      forall i | i in u.limits - {id}
        ensures !IsDust(u.limits[i].forSale, u.limits[i].price)
      {
        assert i in s.limits - {id};
      }
    }
  }

  lemma MeetsSymmetric(x: LimitOrder, y: LimitOrder)
    ensures Meets(x, y) <==> Meets(y, x)
  {
  }

  // The new order itself ends up culled or worth something.
  lemma LastOne(before: map<nat, LimitOrder>, now: map<nat, LimitOrder>, after: map<nat, LimitOrder>, id: nat)
    requires Uncrossed(before - {id}) ==> Uncrossed(now)
    requires DustFree(before - {id}) ==> DustFree(now - {id})
    requires after == now - {id} || (after == now && id in now && !IsDust(now[id].forSale, now[id].price))
    ensures Uncrossed(before - {id}) ==> Uncrossed(after)
    ensures DustFree(before - {id}) ==> DustFree(after)
  {
    hide IsDust, Meets;
    if after == now && DustFree(now - {id}) {
      forall i | i in after
        ensures !IsDust(after[i].forSale, after[i].price)
      {
        if i != id {
          assert i in now - {id};
        }
      }
    }
  }

  datatype CallResult = Failed | Stopped | Settled | Filled(call: bool, bid: bool)

  // What the two cursors of a margin call have yet to pass.
  ghost predicate Cursors(limits: map<nat, LimitOrder>, calls: map<nat, CallOrder>, m: nat, backing: nat,
                          squeeze: Price, bids: map<nat, Price>, todo: map<nat, Price>) {
    && (forall o <- bids ::
          o in limits && BidFor(limits[o], m, backing) && !Less(limits[o].price, squeeze) && bids[o].quote > 0)
    && (forall c <- todo :: && c in calls && calls[c].debtAsset == m && calls[c].collateralAsset == backing
                            && todo[c] == calls[c].callPrice && todo[c].quote > 0)
  }

  lemma CursorsStart(s: State, m: nat, squeeze: Price, bids: map<nat, Price>, todo: map<nat, Price>)
    requires Good(s) && Open(s.assets, m)
    requires forall o <- bids :: o in s.limits && BidFor(s.limits[o], m, s.assets[m].bit.value.backing)
                                 && !Less(s.limits[o].price, squeeze) && bids[o] == Inverse(s.limits[o].price)
    requires forall c <- todo :: c in s.calls && s.calls[c].debtAsset == m && todo[c] == s.calls[c].callPrice
    ensures Cursors(s.limits, s.calls, m, s.assets[m].bit.value.backing, squeeze, bids, todo)
  {
    hide Good, BidFor, Less;
    BidKeys(s, bids);
    forall c | c in todo
      ensures s.calls[c].collateralAsset == s.assets[m].bit.value.backing && todo[c].quote > 0
    {
      GoodCall(s, c);
    }
  }

  lemma CursorsQuotes(limits: map<nat, LimitOrder>, calls: map<nat, CallOrder>, m: nat, backing: nat, squeeze: Price,
                      bids: map<nat, Price>, todo: map<nat, Price>)
    requires Cursors(limits, calls, m, backing, squeeze, bids, todo)
    ensures (forall o <- bids :: o in limits && bids[o].quote > 0) && (forall c <- todo :: todo[c].quote > 0)
  {
  }

  lemma CursorsAt(s: State, t: State, m: nat, backing: nat, squeeze: Price, bids: map<nat, Price>,
                  todo: map<nat, Price>, c: nat, o: nat)
    requires Trades(s, t, None) && Cursors(s.limits, t.calls, m, backing, squeeze, bids, todo) && c in todo
             && o in bids && o in t.limits
    ensures c in t.calls && t.calls[c].debtAsset == m && BidFor(t.limits[o], m, t.calls[c].collateralAsset)
    ensures !Less(t.limits[o].price, squeeze)
  {
    hide Trades, Less;
    TradesOrder(s, t, None, o);
  }

  lemma CursorsMove(limits: map<nat, LimitOrder>, calls: map<nat, CallOrder>, calls': map<nat, CallOrder>, m: nat,
                    backing: nat, squeeze: Price, bids: map<nat, Price>, todo: map<nat, Price>,
                    bids': map<nat, Price>, todo': map<nat, Price>, c: nat)
    requires Cursors(limits, calls, m, backing, squeeze, bids, todo) && OnlyPosition(calls, calls', c) && c in todo
    requires todo' == if c in calls' then todo else todo - {c}
    requires bids' == bids || exists o :: bids' == bids - {o}
    ensures Cursors(limits, calls', m, backing, squeeze, bids', todo')
  {
    hide Less;
  }

  lemma ReplayNothing(s: State)
    ensures Replay(s, []) == Some(s)
  {
  }

  lemma SameBit(x: map<nat, Asset>, y: map<nat, Asset>, m: nat)
    requires SameBits(x, y) && m in x
    ensures m in y && y[m].bit == x[m].bit
  {
  }

  lemma ShortSettles(s: State, c: nat, o: nat, order: seq<nat>)
    requires Short(s, c, o)
    ensures var p := s.assets[s.calls[c].debtAsset].bit.value.feed.value.price;
            Replay(s, [Closed(s.calls[c].debtAsset, p, order)]) == GloballySettled(s, s.calls[c].debtAsset, p, order)
  {
    hide GloballySettled, Less;
    var p := s.assets[s.calls[c].debtAsset].bit.value.feed.value.price;
    ReplayOne(s, Closed(s.calls[c].debtAsset, p, order));
  }

  lemma MarginPositions(s: State, c: nat, o: nat, usd: nat, core: nat)
    requires c in s.calls && o in s.limits && usd <= s.calls[c].debt && usd <= s.limits[o].forSale
    requires s.calls[c].debtAsset in s.assets && s.limits[o].wants in s.assets && FeesBounded(s.assets)
    requires MarginFill(s, c, o, usd, core).Some?
    ensures OnlyPosition(s.calls, MarginFill(s, c, o, usd, core).value.0.calls, c)
    ensures usd == s.calls[c].debt <==> c !in MarginFill(s, c, o, usd, core).value.0.calls
  {
    hide FillCall, FillLimit, Surplus, Supply, Debt;
    FillCallAssets(s, c, core, usd);
    FillLimitFrame(FillCall(s, c, core, usd).value, o, usd, core, true);
  }

  lemma DoomedBySwan(s: State, m: nat, c: nat, order: seq<nat>)
    requires Swan(s, m) && FirstPosition(s.calls, m, c)
    ensures var p := Price(s.calls[c].debt, s.calls[c].collateral);
            Replay(s, [Closed(m, p, order)]) == GloballySettled(s, m, p, order)
  {
    hide Less, GloballySettled;
    var p := Price(s.calls[c].debt, s.calls[c].collateral);
    ReplayOne(s, Closed(m, p, order));
  }

  lemma MarginBits(s: State, c: nat, o: nat, usd: nat, core: nat)
    requires Good(s) && c in s.calls && o in s.limits && usd <= s.calls[c].debt && usd <= s.limits[o].forSale
    requires s.limits[o].sells == s.calls[c].debtAsset && s.limits[o].wants == s.calls[c].collateralAsset
    requires s.calls[c].debtAsset in s.assets && s.limits[o].wants in s.assets && FeesBounded(s.assets)
    requires MarginFill(s, c, o, usd, core).Some?
    ensures SameBits(s.assets, MarginFill(s, c, o, usd, core).value.0.assets)
  {
    hide MarginFill, Surplus, Gap, SameBits;
    MarginFillQuiet(s, c, o, usd, core);
  }

  // ---------- looking through the positions ----------

  lemma NoSwan(s: State, m: nat)
    requires Open(s.assets, m)
    requires s.assets[m].bit.value.feed == None || PositionsIn(s.calls, m) == {}
    ensures !Swan(s, m)
  {
    forall c | FirstPosition(s.calls, m, c)
      ensures s.assets[m].bit.value.feed == None
    {
      assert c in PositionsIn(s.calls, m);
    }
  }

  lemma BidKeys(s: State, bids: map<nat, Price>)
    requires Good(s) && forall o <- bids :: o in s.limits && bids[o] == Inverse(s.limits[o].price)
    ensures forall o <- bids :: bids[o].quote > 0
  {
    hide Good;
    forall o | o in bids
      ensures bids[o].quote > 0
    {
      GoodOrder(s, o);
    }
  }

  lemma PositionKeys(s: State, positions: map<nat, Price>)
    requires Good(s) && forall c <- positions :: c in s.calls && positions[c] == s.calls[c].callPrice
    ensures forall c <- positions :: positions[c].quote > 0
  {
    hide Good;
    forall c | c in positions
      ensures positions[c].quote > 0
    {
      GoodCall(s, c);
    }
  }

  lemma FirstIsFirst(calls: map<nat, CallOrder>, m: nat, positions: map<nat, Price>, c: nat)
    requires forall k :: k in positions <==> k in calls && calls[k].debtAsset == m
    requires forall k <- positions :: positions[k] == calls[k].callPrice
    requires c in positions && forall k <- positions :: k != c ==> Precedes(positions[c], c, positions[k], k)
    ensures FirstPosition(calls, m, c)
  {
    hide Precedes;
  }

  lemma ClosingBegins(s: State, m: nat)
    requires Good(s) && Open(s.assets, m)
    ensures Closing(s, s, m, 0, PositionsIn(s.calls, m))
    ensures forall c <- s.calls :: s.calls[c].callPrice.quote > 0
  {
    hide Closing;
    ClosingStart(s, m);
  }

  lemma ClosingPosition(s: State, t: State, m: nat, gathered: nat, todo: set<nat>, c: nat)
    requires Closing(s, t, m, gathered, todo) && c in todo
    ensures c in t.calls && t.calls[c].debtAsset == m && m in t.assets && t.calls[c].debt > 0
  {
  }

  lemma CloseOne(before: map<nat, CallOrder>, s: State, m: nat, c: nat, pays: nat)
    requires OnlyClosed(before, s.calls) && c in s.calls && s.calls[c].debtAsset == m && m in s.assets
    requires FillCall(s, c, pays, s.calls[c].debt).Some?
    ensures var calls := FillCall(s, c, pays, s.calls[c].debt).value.calls;
            OnlyClosed(before, calls) && PositionsIn(calls, m) == PositionsIn(s.calls, m) - {c}
  {
    hide FillCall;
    FillCallAssets(s, c, pays, s.calls[c].debt);
  }

  // The positions no longer to be closed could pay.
  ghost predicate PaidSoFar(calls: map<nat, CallOrder>, m: nat, p: Price, todo: set<nat>) {
    forall c <- calls :: calls[c].debtAsset == m && c !in todo ==> SwanPays(calls[c], p).Some?
  }

  lemma NonePaid(calls: map<nat, CallOrder>, m: nat, p: Price)
    ensures PaidSoFar(calls, m, p, PositionsIn(calls, m)) && OnlyClosed(calls, calls)
  {
  }

  lemma PaidNext(calls: map<nat, CallOrder>, m: nat, p: Price, todo: set<nat>, c: nat)
    requires PaidSoFar(calls, m, p, todo) && c in calls && SwanPays(calls[c], p).Some?
    ensures PaidSoFar(calls, m, p, todo - {c})
  {
  }

  lemma AllPaid(calls: map<nat, CallOrder>, m: nat, p: Price)
    requires PaidSoFar(calls, m, p, {})
    ensures !Unpayable(calls, m, p)
  {
  }

  lemma StillUnpaid(before: map<nat, CallOrder>, calls: map<nat, CallOrder>, m: nat, p: Price, c: nat)
    requires OnlyClosed(before, calls) && c in calls && calls[c].debtAsset == m
    ensures c in before && before[c] == calls[c] && (SwanPays(calls[c], p) == None ==> Unpayable(before, m, p))
  {
  }

  lemma PositionsAre(calls: map<nat, CallOrder>, m: nat, todo: map<nat, Price>)
    requires forall c :: c in todo <==> c in calls && calls[c].debtAsset == m
    ensures todo.Keys == PositionsIn(calls, m)
  {
  }

  lemma SwanPaid(s: State, c: nat, p: Price)
    requires c in s.calls && s.calls[c].debtAsset in s.assets && SwanPays(s.calls[c], p).Some?
    ensures FillCall(s, c, SwanPays(s.calls[c], p).value, s.calls[c].debt).Some?
  {
  }

  lemma SwanFailsOnlyOpen(s: State, m: nat, enable: bool)
    ensures SwanFails(s, m, enable) ==> Swan(s, m) && Open(s.assets, m)
  {
  }

  lemma SwanFailsOff(s: State, m: nat)
    ensures Swan(s, m) ==> SwanFails(s, m, false)
  {
  }

  lemma SwanFailsIff(s: State, m: nat, c: nat, enable: bool)
    requires Swan(s, m) && FirstPosition(s.calls, m, c)
    ensures SwanFails(s, m, enable) <==>
            !enable || Unpayable(s.calls, m, Price(s.calls[c].debt, s.calls[c].collateral))
  {
    hide Swan, Precedes, Unpayable;
    forall d | FirstPosition(s.calls, m, d)
      ensures d == c
    {
      if d != c {
        PrecedesAsymmetric(s.calls[c].callPrice, c, s.calls[d].callPrice, d);
      }
    }
  }

  lemma ClosingTotal(s: State, m: nat, p: Price, c: nat, pays: nat)
    requires c in s.calls && s.calls[c].debtAsset == m && m in s.assets && SwanPays(s.calls[c], p) == Some(pays)
    requires FillCall(s, c, pays, s.calls[c].debt).Some?
    ensures pays + Total(FillCall(s, c, pays, s.calls[c].debt).value.calls, SwanPart(m, p))
            == Total(s.calls, SwanPart(m, p))
  {
    hide SwanPays, FillCall;
    FillCallAssets(s, c, pays, s.calls[c].debt);
    TotalRemove(s.calls, c, SwanPart(m, p));
  }

  lemma NoneClosed(s: State, m: nat, p: Price)
    ensures ClosedSeq(s, m, p, []) == Some((s, 0))
  {
  }

  lemma OneClosed(s: State, t: State, m: nat, p: Price, order: seq<nat>, gathered: nat, c: nat, pays: nat)
    requires ClosedSeq(s, m, p, order) == Some((t, gathered)) && c in t.calls && t.calls[c].debtAsset == m
             && m in t.assets
    requires SwanPays(t.calls[c], p) == Some(pays) && FillCall(t, c, pays, t.calls[c].debt).Some?
    ensures ClosedSeq(s, m, p, order + [c]) == Some((FillCall(t, c, pays, t.calls[c].debt).value, gathered + pays))
  {
    hide ClosedSeq, SwanPays, FillCall;
    ClosedNext(s, m, p, order, t, gathered, c);
  }

  lemma ClosedAll(s: State, t: State, m: nat, p: Price, order: seq<nat>, gathered: nat)
    requires ClosedSeq(s, m, p, order) == Some((t, gathered)) && Closing(s, t, m, gathered, {})
             && s.assets[m].supply >= 0
    ensures m in t.assets && t.assets[m].bit.Some?
    ensures GloballySettled(s, m, p, order) == Some(FinishGlobalSettlement(t, m, gathered, s.assets[m].supply))
  {
    hide ClosedSeq, FinishGlobalSettlement, Surplus, Gap;
  }

  lemma AllClosed(s: State, t: State, m: nat, gathered: nat, p: Price)
    requires Closing(s, t, m, gathered, {})
    ensures m in t.assets && t.assets[m].bit == s.assets[m].bit && t.assets[m].bit.Some?
    ensures Total(t.calls, SwanPart(m, p)) == 0
  {
    hide SwanPays;
    forall c | c in t.calls
      ensures SwanPart(m, p)(c, t.calls[c]) == 0
    {
      assert c !in PositionsIn(t.calls, m);
    }
    TotalZero(t.calls, SwanPart(m, p));
  }

  lemma MatchFailsAt(s: State, events: seq<Event>, t: State, x: LimitOrder, taker: nat, maker: nat)
    requires Replay(s, events) == Some(t) && taker in t.limits && maker in t.limits && taker != maker
    requires x.sells == t.limits[taker].sells && x.wants == t.limits[taker].wants && x.price == t.limits[taker].price
    requires Meets(x, t.limits[maker]) && Sound(t.limits, t.assets) && FeesBounded(t.assets)
    requires MatchLimits(t, taker, maker) == None
    ensures MatchFails(s, events, taker)
  {
    hide MatchLimits, Sound, FeesBounded, Replay;
    MeetsByPrice(x, t.limits[taker], t.limits[maker], t.limits[maker]);
  }

  lemma MatchReplays(s: State, events: seq<Event>, t: State, x: LimitOrder, taker: nat, maker: nat)
    requires Replay(s, events) == Some(t) && taker in t.limits && maker in t.limits && taker != maker
    requires x.sells == t.limits[taker].sells && x.wants == t.limits[taker].wants && x.price == t.limits[taker].price
    requires Meets(x, t.limits[maker]) && Sound(t.limits, t.assets) && FeesBounded(t.assets)
             && MatchLimits(t, taker, maker).Some?
    ensures Replay(s, events + [Matched(taker, maker)]) == Some(MatchLimits(t, taker, maker).value.0)
  {
    hide MatchLimits, Sound, FeesBounded, Replay;
    MeetsByPrice(x, t.limits[taker], t.limits[maker], t.limits[maker]);
    ReplayNext(s, events, t, Matched(taker, maker));
  }

  // ---------- the sweep through the crossing orders ----------

  // `todo` are the crossing orders the taker has not come to.
  ghost predicate Sweeping(before: map<nat, LimitOrder>, now: map<nat, LimitOrder>, taker: nat, todo: map<nat, Price>) {
    && taker in before && taker !in todo
    && (forall i <- todo :: i in before && Meets(before[taker], before[i]) && todo[i] == Inverse(before[i].price))
    && (forall i <- todo :: i in now && now[i] == before[i])
    && (forall i <- before :: Meets(before[taker], before[i]) && i !in todo ==>
          && (taker in now ==> i !in now)
          && forall j <- todo :: Precedes(Inverse(before[i].price), i, todo[j], j))
    && InPriority(before, now, before[taker])
  }

  lemma SweepStart(limits: map<nat, LimitOrder>, taker: nat, todo: map<nat, Price>)
    requires taker in limits && limits[taker].sells != limits[taker].wants
    requires todo == map i | i in limits && Meets(limits[taker], limits[i]) :: Inverse(limits[i].price)
    ensures Sweeping(limits, limits, taker, todo)
  {
    hide Precedes, Crosses;
  }

  lemma SweepFacts(s: State, t: State, taker: nat, todo: map<nat, Price>)
    requires Good(s) && Trades(s, t, Some(taker)) && Sweeping(s.limits, t.limits, taker, todo)
    ensures Good(t)
    ensures forall i <- todo :: i in t.limits && Meets(s.limits[taker], t.limits[i]) && i != taker && todo[i].quote > 0
  {
    hide Good, Trades, Precedes, Meets, InPriority;
    TradesGood(s, t, Some(taker));
    forall i | i in todo
      ensures todo[i].quote > 0
    {
      GoodOrder(s, i);
    }
  }

  lemma SweepStep(before: map<nat, LimitOrder>, now: map<nat, LimitOrder>, after: map<nat, LimitOrder>,
                  taker: nat, maker: nat, todo: map<nat, Price>)
    requires Sweeping(before, now, taker, todo) && maker in todo && taker in now
    requires forall j <- todo :: j != maker ==> Precedes(todo[maker], maker, todo[j], j)
    requires forall i :: i in now && i != taker && i != maker ==> i in after && after[i] == now[i]
    requires after.Keys <= now.Keys && (taker in after ==> maker !in after)
    ensures Sweeping(before, after, taker, todo - {maker})
  {
    hide Precedes, Meets;
    var x := before[taker];
    forall i, j | && i in before && j in before && Meets(x, before[i]) && Meets(x, before[j])
                  && Precedes(Inverse(before[i].price), i, Inverse(before[j].price), j)
                  && (j !in after || after[j] != before[j])
      ensures i !in after
    {
      if i in todo {
        PrecedesAsymmetric(todo[i], i, Inverse(before[j].price), j);
      }
    }
  }

  lemma SweepEnd(s: State, t: State, taker: nat, todo: map<nat, Price>)
    requires Trades(s, t, Some(taker)) && Sweeping(s.limits, t.limits, taker, todo)
    requires taker !in t.limits || todo == map[]
    ensures taker in t.limits ==> forall i <- t.limits :: !Meets(t.limits[taker], t.limits[i])
    ensures InPriority(s.limits, t.limits, s.limits[taker])
  {
    hide Trades, Precedes, Meets, InPriority;
    if taker in t.limits {
      forall i | i in t.limits
        ensures !Meets(t.limits[taker], t.limits[i])
      {
        TradesOrder(s, t, Some(taker), taker);
        TradesOrder(s, t, Some(taker), i);
        MeetsByPrice(s.limits[taker], t.limits[taker], s.limits[i], t.limits[i]);
      }
    }
  }

  lemma PayProceedsLimits(s: State, o: LimitOrder, receives: nat)
    requires o.wants in s.assets && s.assets[o.wants].feePercent <= HUNDRED_PERCENT
    ensures PayProceeds(s, o, receives).Some? ==> PayProceeds(s, o, receives).value.limits == s.limits
  {
    hide MarketFee;
  }

  lemma FeesKeepFees(x: map<nat, Asset>, y: map<nat, Asset>)
    requires SameAssetsButFees(x, y) && FeesBounded(x)
    ensures FeesBounded(y) && x.Keys == y.Keys
  {
  }

  lemma StillOpposite(x: LimitOrder, x': LimitOrder, y: LimitOrder)
    requires Meets(x, y) && x'.sells == x.sells && x'.wants == x.wants && x.sells != x.wants
    ensures Opposite(x', y) && x' != y
  {
  }

  lemma MeetsByPrice(x: LimitOrder, x': LimitOrder, y: LimitOrder, y': LimitOrder)
    requires x'.sells == x.sells && x'.wants == x.wants && x'.price == x.price
    requires y'.sells == y.sells && y'.wants == y.wants && y'.price == y.price
    ensures Meets(x', y') <==> Meets(x, y)
  {
  }
}

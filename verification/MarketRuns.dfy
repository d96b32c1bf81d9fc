// Whole runs of market operations: a failed one leaves no trace, and every state reached is well formed.
// Source: libraries/chain/db_block.cpp:240-285, libraries/chain/market_evaluator.cpp,
// libraries/chain/asset_evaluator.cpp.
module MarketRuns {
  import opened Options
  import opened Config
  import opened Prices
  import opened Totals
  import opened Ledger
  import opened Book
  import opened Margin
  import opened Trading
  import opened Markets
  import opened Operations
  import opened ForceSettlement

  datatype MarketOp =
    | CreateOrder(seller: nat, sells: nat, amount: nat, wants: nat, atLeast: nat, fee: nat, exchange: Option<nat>,
      fillOrKill: bool)
    | Cancel(id: nat, who: nat)
    | UpdateCall(who: nat, m: nat, collateral: int, debt: int, callPrice: Price)
    | Settle(who: nat, m: nat, settling: nat, canForceSettle: bool, date: nat)
    | CloseMarket(m: nat, price: Price)
    | Publish(m: nat, feed: Option<Feed>)
    | ClearDue(now: nat)
    | Issue(to: nat, a: nat, amount: nat, maxSupply: int)
    | Reserve(payer: nat, a: nat, amount: nat)

  // At the start there is core and nothing else.
  ghost predicate OnlyCore(assets: map<nat, Asset>) {
    && FeesBounded(assets) && SoundBits(assets)
    && CORE in assets && assets[CORE].supply == MAX_SHARE_SUPPLY && assets[CORE].fees == 0
    && forall k <- assets :: k != CORE ==>
         assets[k].supply == 0 && assets[k].fees == 0 && (assets[k].bit.Some? ==> assets[k].bit.value.settled == None)
  }

  // One account starts with all of the core asset.
  method NewMarket(assets: map<nat, Asset>, rates: map<(nat, nat, nat), nat>) returns (db: Market)
    requires OnlyCore(assets)
    ensures fresh(db) && WellFormed(db) && db.assets == assets && BalanceOf(db.S(), 0, CORE) == MAX_SHARE_SUPPLY
    ensures forall a :: Surplus(db.S(), a) == 0
  {
    db := new Market(assets, rates);
    db.Deposit(0, CORE, MAX_SHARE_SUPPLY);
    StartGood(db.S());
  }

  lemma StartGood(s: State)
    requires s.balances == map[(0, CORE) := MAX_SHARE_SUPPLY]
    requires s.limits == map[] && s.calls == map[] && s.settles == map[] && s.pendingFees == 0 && OnlyCore(s.assets)
    ensures Good(s) && Backed(s) && forall a :: Surplus(s, a) == 0
  {
    forall a
      ensures Surplus(s, a) == 0 && Debt(s, a) == 0
    {
      TotalZero(s.assets, KeptBy(a));
      TotalUpdate<(nat, nat), nat>(map[], (0, CORE), MAX_SHARE_SUPPLY, BalanceIn(a));
    }
  }

  // The prices an operation carries have been validated.
  ghost predicate ValidOp(op: MarketOp) {
    && (op.UpdateCall? ==> ValidPrice(op.callPrice))
    && (op.Publish? && op.feed.Some? ==> ValidPrice(op.feed.value.price) && ValidPrice(op.feed.value.squeeze))
  }

  method Apply(db: Market, op: MarketOp) returns (ok: bool)
    requires WellFormed(db) && ValidOp(op)
    modifies db
    ensures ok ==> WellFormed(db) && Keeps(old(db.S()), db.S())
  {
    hide Good, Backed, Uncrossed, DustFree, NewIds, Keeps, VolumesKept;
    match op
    case CreateOrder(seller, sells, amount, wants, atLeast, fee, exchange, fillOrKill) =>
      ghost var applied, trace;
      ok, applied, trace := CreateLimitOrder(db, seller, sells, amount, wants, atLeast, fee, exchange, fillOrKill);
    case Cancel(id, who) =>
      ghost var events;
      ok, events := CancelOrder(db, id, who);
    case UpdateCall(who, m, collateral, debt, callPrice) =>
      var id;
      ghost var moved, events;
      ok, id, moved, events := UpdateCallOrder(db, who, m, collateral, debt, callPrice);
    case Settle(who, m, settling, canForceSettle, date) =>
      ok := SettleAsset(db, who, m, settling, canForceSettle, date);
    case CloseMarket(m, price) =>
      ghost var order;
      ok, order := SettleGlobally(db, m, price);
    case Publish(m, feed) =>
      ghost var events;
      ok, events := PublishFeed(db, m, feed);
    case ClearDue(now) =>
      ghost var states;
      ok, states := ClearExpired(db, now);
    case Issue(to, a, amount, maxSupply) =>
      ok := IssueAsset(db, to, a, amount, maxSupply);
    case Reserve(payer, a, amount) =>
      ok := ReserveAsset(db, payer, a, amount);
  }

  lemma KeepsTransitive(s: State, t: State, u: State)
    requires Keeps(s, t) && Keeps(t, u)
    ensures Keeps(s, u)
  {
    hide Surplus;
  }

  // From any well-formed market, any operations in any order: the book stays uncrossed and free of dust, debt
  // stays equal to supply, settlement funds stay solvent, and no unit of any asset appears or disappears.
  method Run(db: Market, ops: seq<MarketOp>)
    requires WellFormed(db) && forall i :: 0 <= i < |ops| ==> ValidOp(ops[i])
    modifies db
    ensures WellFormed(db) && Keeps(old(db.S()), db.S())
  {
    hide Good, Backed, Uncrossed, DustFree, Keeps, ValidOp;
    ghost var s0 := db.S();
    assert Keeps(s0, s0) by { KeepsItself(s0); }
    for i := 0 to |ops|
      invariant WellFormed(db) && Keeps(s0, db.S())
    {
      ghost var s1 := db.S();
      var balances, limits, calls, settles, assets := db.balances, db.limits, db.calls, db.settles, db.assets;
      var pendingFees, exchangeRates, nextLimit, nextCall, nextSettle :=
        db.pendingFees, db.exchangeRates, db.nextLimit, db.nextCall, db.nextSettle;
      var ok := Apply(db, ops[i]);
      if ok {
        KeepsTransitive(s0, s1, db.S());
      } else {
        db.balances, db.limits, db.calls, db.settles, db.assets := balances, limits, calls, settles, assets;
        db.pendingFees, db.exchangeRates, db.nextLimit, db.nextCall, db.nextSettle :=
          pendingFees, exchangeRates, nextLimit, nextCall, nextSettle;
        assert db.S() == s1;
      }
    }
  }
}

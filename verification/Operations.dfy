// The operations users apply to the market, each from and to a well-formed market.
// Source: libraries/chain/market_evaluator.cpp, libraries/chain/asset_evaluator.cpp:414-490, 536-555,
// libraries/chain/include/graphene/chain/evaluator.hpp:162-175.
module Operations {
  import opened Options
  import opened Arithmetic
  import opened Config
  import opened Prices
  import opened Totals
  import opened Ordering
  import opened Ledger
  import opened Book
  import opened Margin
  import opened Trading
  import opened Events
  import opened Calls
  import opened Accounts
  import opened Markets

  // No more of a market-issued asset is held than was issued.
  ghost predicate Backed(s: State) {
    forall m <- s.assets :: s.assets[m].bit.Some? ==> Surplus(s, m) <= 0
  }

  ghost predicate NewIds(db: Market)
    reads db
  {
    && (forall i <- db.limits :: i < db.nextLimit)
    && (forall i <- db.calls :: i < db.nextCall)
    && (forall i <- db.settles :: i < db.nextSettle)
  }

  ghost predicate WellFormed(db: Market)
    reads db
  {
    && Good(db.S()) && Backed(db.S()) && Uncrossed(db.limits) && DustFree(db.limits) && NewIds(db)
    && Collateralized(db.calls)
  }

  // The step conserves every asset and adds no market-issued asset.
  ghost predicate Keeps(s: State, t: State) {
    Conserves(s, t) && SameIssuance(s.assets, t.assets)
  }

  lemma KeepsBacked(s: State, t: State)
    requires Backed(s) && Keeps(s, t)
    ensures Backed(t)
  {
    hide Surplus;
  }

  // ---------- placing an order ----------

  lemma DebitedGood(s: State, who: nat, a: nat, x: nat)
    requires Good(s) && Debit(s, who, a, x).Some?
    ensures Good(Debit(s, who, a, x).value)
  {
    hide Debit, Surplus, Solvent, SoundState;
    DebitEffect(s, who, a, x, a);
    BalancesKeepGood(s, Debit(s, who, a, x).value);
  }

  lemma BalancesKeepGood(s: State, t: State)
    requires Good(s) && t == s.(balances := t.balances)
    ensures Good(t)
  {
    hide Surplus, SolventAsset;
    forall m
      ensures Gap(t, m) == Gap(s, m)
    {
      DebtOfCalls(s, t, m);
      SupplyOfAssets(s, t, m);
    }
  }

  // The amount offered moves into the order; the deferred fee is recorded ahead of its payment.
  lemma PlacedOrder(s: State, id: nat, o: LimitOrder, t: State)
    requires Good(s) && id !in s.limits && Debit(s, o.seller, o.sells, o.forSale).Some?
    requires ValidPrice(o.price) && o.forSale > 0 && o.sells != o.wants && o.sells in s.assets && o.wants in s.assets
    requires var d := Debit(s, o.seller, o.sells, o.forSale).value; t == d.(limits := d.limits[id := o])
    ensures Good(t) && t.limits == s.limits[id := o] && t.assets == s.assets
    ensures forall a :: Surplus(t, a) == Surplus(s, a) + (if a == CORE then o.deferredFee else 0)
  {
    hide Debit, Surplus, Solvent, SoundState;
    var d := Debit(s, o.seller, o.sells, o.forSale).value;
    DebitEffect(s, o.seller, o.sells, o.forSale, CORE);
    DebitedGood(s, o.seller, o.sells, o.forSale);
    LimitsKeepGood(d, t, id, o);
    forall a
      ensures Surplus(t, a) == Surplus(s, a) + (if a == CORE then o.deferredFee else 0)
    {
      DebitEffect(s, o.seller, o.sells, o.forSale, a);
      NewLimitEffect(d, id, o, a);
    }
  }

  lemma NewLimitEffect(s: State, id: nat, o: LimitOrder, a: nat)
    requires id !in s.limits
    ensures Surplus(s.(limits := s.limits[id := o]), a)
            == Surplus(s, a) + (if a == o.sells then o.forSale else 0) + (if a == CORE then o.deferredFee else 0)
  {
    TotalUpdate(s.limits, id, o, SaleIn(a));
    TotalUpdate(s.limits, id, o, DeferredIn(a));
  }

  lemma LimitsKeepGood(s: State, t: State, id: nat, o: LimitOrder)
    requires Good(s) && t == s.(limits := s.limits[id := o])
    requires ValidPrice(o.price) && o.forSale > 0 && o.sells != o.wants && o.sells in s.assets && o.wants in s.assets
    ensures Good(t)
  {
    hide Surplus, SolventAsset;
    forall m
      ensures Gap(t, m) == Gap(s, m)
    {
      DebtOfCalls(s, t, m);
      SupplyOfAssets(s, t, m);
    }
  }

  // The amount is withdrawn, the order trades, and only then is the fee debited.
  ghost predicate OrderPlaced(s: State, t: State, id: nat, o: LimitOrder, applied: State, trace: OrderTrace) {
    && Debit(applied, o.seller, CORE, o.deferredFee) == Some(t)
    && Debit(s, o.seller, o.sells, o.forSale).Some?
    && var d := Debit(s, o.seller, o.sells, o.forSale).value;
       OrderApplied(d.(limits := d.limits[id := o]), applied, id, trace)
  }

  // The seller cannot pay, the order fails as it is applied, or it is applied but not filled at once as it has to be,
  // or the fee cannot be paid in the end.
  ghost predicate OrderRefused(s: State, id: nat, o: LimitOrder, applied: State, trace: OrderTrace, fillOrKill: bool) {
    match Debit(s, o.seller, o.sells, o.forSale)
    case None => true
    case Some(d) =>
      var placed := d.(limits := d.limits[id := o]);
      || OrderFails(placed, id, trace)
      || (OrderApplied(placed, applied, id, trace)
          && (|| (fillOrKill && id in applied.limits) || Debit(applied, o.seller, CORE, o.deferredFee) == None))
  }

  // Places an order and trades it at once; the fee is only debited at the end.
  method CreateLimitOrder(db: Market, seller: nat, sells: nat, amount: nat, wants: nat, atLeast: nat,
                          fee: nat, exchange: Option<nat>, fillOrKill: bool)
    returns (ok: bool, ghost applied: State, ghost trace: OrderTrace)
    requires WellFormed(db)
    modifies db
    ensures ok ==> WellFormed(db) && Keeps(old(db.S()), db.S())
    ensures ok ==>
      var o := LimitOrder(seller, sells, wants, amount, Price(amount, atLeast), fee, exchange);
      OrderPlaced(old(db.S()), db.S(), old(db.nextLimit), o, applied, trace) && db.nextLimit == old(db.nextLimit) + 1
    ensures ok && fillOrKill ==> old(db.nextLimit) !in db.limits
    ensures !ok ==>
      var o := LimitOrder(seller, sells, wants, amount, Price(amount, atLeast), fee, exchange);
      || sells == wants || amount == 0 || atLeast == 0 || sells !in old(db.assets) || wants !in old(db.assets)
      || OrderRefused(old(db.S()), old(db.nextLimit), o, applied, trace, fillOrKill)
  {
    hide Good, Trades, Debit, Surplus, Uncrossed, DustFree, Backed, Keeps, OrderApplied, Collateralized, OrderFails;
    ghost var s0 := db.S();
    applied, trace := s0, OrderTrace([], s0, [], s0, [], s0);
    if sells == wants || amount == 0 || atLeast == 0 || sells !in db.assets || wants !in db.assets {
      return false, applied, trace;
    }
    ok := db.Withdraw(seller, sells, amount);
    if !ok {
      return;
    }
    var id := db.nextLimit;
    var o := LimitOrder(seller, sells, wants, amount, Price(amount, atLeast), fee, exchange);
    db.limits := db.limits[id := o];
    db.nextLimit := id + 1;
    ghost var s1 := db.S();
    PlacedOrder(s0, id, o, s1);
    assert s1.limits - {id} == s0.limits;
    var filled;
    ok, filled, trace := db.ApplyOrder(id);
    if !ok {
      return false, applied, trace;
    }
    ghost var s2 := db.S();
    applied := s2;
    if fillOrKill && !filled {
      return false, applied, trace;
    }
    TradesGood(s1, s2, Some(id));
    ok := db.Withdraw(seller, CORE, fee);
    if !ok {
      return;
    }
    DebitedGood(s2, seller, CORE, fee);
    PaidLater(s0, s1, s2, seller, id, fee);
    KeepsBacked(s0, db.S());
  }

  lemma PaidLater(s: State, t: State, u: State, seller: nat, id: nat, fee: nat)
    requires Good(s) && forall a :: Surplus(t, a) == Surplus(s, a) + (if a == CORE then fee else 0)
    requires Trades(t, u, Some(id)) && t.assets == s.assets && Debit(u, seller, CORE, fee).Some?
    ensures Keeps(s, Debit(u, seller, CORE, fee).value)
    ensures var v := Debit(u, seller, CORE, fee).value; v == u.(balances := v.balances)
  {
    hide Debit, Surplus, Good, Shrinks;
    DebitEffect(u, seller, CORE, fee, CORE);
    var v := Debit(u, seller, CORE, fee).value;
    forall a
      ensures Surplus(v, a) == Surplus(s, a)
    {
      DebitEffect(u, seller, CORE, fee, a);
    }
  }

  // ---------- cancelling an order ----------

  method CancelOrder(db: Market, id: nat, who: nat) returns (ok: bool, ghost events: seq<Event>)
    requires WellFormed(db)
    modifies db
    ensures ok ==> WellFormed(db) && Keeps(old(db.S()), db.S()) && id !in db.limits
    ensures ok ==> id in old(db.limits) && old(db.limits[id]).seller == who
                   && CalledBoth(CancelLimit(old(db.S()), id), events, db.S(), old(db.limits[id]).sells,
                     old(db.limits[id]).wants)
    ensures !ok ==> id !in old(db.limits) || old(db.limits[id]).seller != who
                    || BothGiveUp(CancelLimit(old(db.S()), id), events, old(db.limits[id]).sells,
                                  old(db.limits[id]).wants)
  {
    hide Good, Trades, CancelLimit, Uncrossed, DustFree, Backed, Keeps, CalledBoth, Collateralized, BothGiveUp;
    ghost var s0 := db.S();
    events := [];
    if id !in db.limits || db.limits[id].seller != who {
      return false, [];
    }
    var o := db.limits[id];
    GoodOrder(s0, id);
    db.CancelLimitOrder(id);
    ghost var s1 := db.S();
    CancelTrades(s0, id);
    CancelLimitBook(s0, id);
    TradesGood(s0, s1, None);
    BothAssets(s0, s1, None, o.sells, o.wants);
    var called;
    ok, called, events := db.CheckBoth(o.sells, o.wants);
    if !ok {
      return;
    }
    TradesGood(s1, db.S(), None);
    TradesTransitive(s0, s1, db.S(), None);
    TradesKeep(s0, db.S());
  }

  lemma TradesKeep(s: State, t: State)
    requires Trades(s, t, None) && Backed(s)
    ensures Keeps(s, t) && Backed(t)
    ensures Uncrossed(s.limits) ==> Uncrossed(t.limits)
    ensures DustFree(s.limits) ==> DustFree(t.limits)
  {
    hide Surplus, Good, Uncrossed, DustFree, Shrinks;
    ShrinkingKeepsBook(s.limits, t.limits, s.assets);
    KeepsBacked(s, t);
  }

  // ---------- margin positions ----------

  function Adjusted(s: State, who: nat, a: nat, delta: int): Option<State> {
    if delta >= 0 then Some(Credit(s, who, a, delta)) else Debit(s, who, a, -delta)
  }

  lemma AdjustedEffect(s: State, who: nat, b: nat, delta: int, a: nat)
    requires Adjusted(s, who, b, delta).Some?
    ensures var t := Adjusted(s, who, b, delta).value;
            Surplus(t, a) == Surplus(s, a) + (if a == b then delta else 0) && t == s.(balances := t.balances)
  {
    hide Credit, Debit, Surplus;
    if delta >= 0 {
      CreditEffect(s, who, b, delta, a);
    } else {
      DebitEffect(s, who, b, -delta, a);
    }
  }

  method AdjustBalance(db: Market, who: nat, a: nat, delta: int) returns (ok: bool)
    modifies db`balances
    ensures ok <==> Adjusted(old(db.S()), who, a, delta).Some?
    ensures ok ==> db.S() == Adjusted(old(db.S()), who, a, delta).value
  {
    if delta >= 0 {
      db.Deposit(who, a, delta);
      ok := true;
    } else {
      ok := db.Withdraw(who, a, -delta);
    }
  }

  // Borrowing or repaying: the debt asset is issued or burned against the payer's balance, the collateral moves.
  lemma BorrowedEffect(s: State, t: State, u: State, who: nat, m: nat, debt: int, collateral: int, backing: nat)
    requires m in s.assets && Adjusted(s, who, m, debt) == Some(t) && m in t.assets
    requires Adjusted(AddSupply(t, m, debt), who, backing, -collateral) == Some(u)
    ensures forall a :: Surplus(u, a) == Surplus(s, a) - (if a == backing then collateral else 0)
    ensures forall a :: Supply(u, a) == Supply(s, a) + (if a == m then debt else 0)
    ensures u == s.(balances := u.balances, assets := s.assets[m := s.assets[m].(supply := s.assets[m].supply + debt)])
  {
    hide Adjusted, Surplus;
    AdjustedEffect(s, who, m, debt, m);
    var v := AddSupply(t, m, debt);
    AdjustedEffect(v, who, backing, -collateral, m);
    forall a
      ensures Surplus(u, a) == Surplus(s, a) - (if a == backing then collateral else 0)
    {
      AdjustedEffect(s, who, m, debt, a);
      AddSupplyEffect(t, m, debt, a);
      AdjustedEffect(v, who, backing, -collateral, a);
    }
  }

  // What is left after the position is set, or removed, in step with what was borrowed.
  ghost predicate Repositioned(s: State, u: State, v: State, m: nat, id: nat, debt: int, collateral: int) {
    var was := if id in s.calls then (s.calls[id].debt, s.calls[id].collateral) else (0, 0);
    && v == u.(calls := v.calls)
    && if id in v.calls then
         && v.calls == s.calls[id := v.calls[id]]
         && v.calls[id].debtAsset == m && v.calls[id].debt == was.0 + debt
           && v.calls[id].collateral == was.1 + collateral
       else
         v.calls == s.calls - {id} && was.0 + debt == 0 && was.1 + collateral == 0
  }

  lemma RepositionedEffect(s: State, u: State, v: State, m: nat, id: nat, debt: int, collateral: int, backing: nat,
                           a: nat)
    requires Repositioned(s, u, v, m, id, debt, collateral) && u.calls == s.calls
    requires id in s.calls ==> s.calls[id].debtAsset == m && s.calls[id].collateralAsset == backing
    requires id in v.calls ==> v.calls[id].collateralAsset == backing
    ensures Surplus(v, a) == Surplus(u, a) + (if a == backing then collateral else 0)
    ensures Debt(v, a) == Debt(u, a) + (if a == m then debt else 0)
  {
    hide Surplus, Debt;
    if id in v.calls {
      SetCallEffect(u, id, v.calls[id], a);
    } else if id in s.calls {
      RemoveCallEffect(u, id, a);
    } else {
      assert s.calls - {id} == s.calls;
    }
  }

  // The position update conserves everything and keeps debt equal to supply.
  lemma BorrowedGood(s: State, t: State, u: State, v: State, who: nat, m: nat, id: nat, debt: int, collateral: int,
                     backing: nat)
    requires Good(s) && Open(s.assets, m) && s.assets[m].bit.value.backing == backing
    requires Adjusted(s, who, m, debt) == Some(t) && m in t.assets
    requires Adjusted(AddSupply(t, m, debt), who, backing, -collateral) == Some(u)
    requires Repositioned(s, u, v, m, id, debt, collateral)
    requires id in s.calls ==> s.calls[id].debtAsset == m
    requires id in v.calls ==>
               v.calls[id].collateralAsset == backing && v.calls[id].debt > 0 && ValidPrice(v.calls[id].callPrice)
    ensures Good(v) && Conserves(s, v) && v.limits == s.limits && v.settles == s.settles
    ensures SameIssuance(s.assets, v.assets) && v.assets[m].bit == s.assets[m].bit
  {
    hide Adjusted, Surplus, Debt, Supply, Repositioned, SoundState, Solvent, AddSupply;
    BorrowedEffect(s, t, u, who, m, debt, collateral, backing);
    if id in s.calls {
      GoodCall(s, id);
    }
    RepositionedFrame(s, u, v, m, id, debt, collateral);
    forall a
      ensures Surplus(v, a) == Surplus(s, a) && Gap(v, a) == Gap(s, a)
    {
      RepositionedEffect(s, u, v, m, id, debt, collateral, backing, a);
      DebtOfCalls(s, u, a);
      SupplyOfAssets(u, v, a);
    }
    BorrowedSound(s, v, m, id, debt);
  }

  lemma RepositionedFrame(s: State, u: State, v: State, m: nat, id: nat, debt: int, collateral: int)
    requires Repositioned(s, u, v, m, id, debt, collateral)
    ensures v == u.(calls := v.calls) && v.calls.Keys <= s.calls.Keys + {id}
    ensures id in v.calls ==> v.calls[id].debtAsset == m
    ensures forall c <- v.calls :: c != id ==> c in s.calls && v.calls[c] == s.calls[c]
  {
  }

  lemma BorrowedSound(s: State, v: State, m: nat, id: nat, debt: int)
    requires SoundState(s) && Solvent(s) && Open(s.assets, m)
    requires v.assets == s.assets[m := s.assets[m].(supply := s.assets[m].supply + debt)]
    requires v.limits == s.limits && v.settles == s.settles
    requires forall c <- v.calls :: c != id ==> c in s.calls && v.calls[c] == s.calls[c]
    requires id in v.calls ==>
               var c := v.calls[id];
               c.debtAsset == m && c.collateralAsset == s.assets[m].bit.value.backing && c.debt > 0
                 && ValidPrice(c.callPrice)
    ensures SoundState(v) && Solvent(v)
  {
    hide SolventAsset;
    forall k | k in v.assets
      ensures SolventAsset(v.assets[k])
    {
      if k == m {
        OpenIsSolvent(v.assets[m]);
      }
    }
  }

  lemma OpenIsSolvent(a: Asset)
    requires a.bit.Some? && a.bit.value.settled == None
    ensures SolventAsset(a)
  {
  }

  // Debt and collateral have moved between the payer's balances and the position.
  ghost predicate PositionMoved(s: State, v: State, who: nat, m: nat, id: nat, collateral: int, debt: int) {
    && Open(s.assets, m)
    && Adjusted(s, who, m, debt).Some? && m in Adjusted(s, who, m, debt).value.assets
    && var u := Adjusted(AddSupply(Adjusted(s, who, m, debt).value, m, debt), who, s.assets[m].bit.value.backing,
      -collateral);
       u.Some? && Repositioned(s, u.value, v, m, id, debt, collateral)
  }

  // The payer gets what it borrows, or gives what it repays; it gives the collateral it adds, or gets what it takes
  // out; and no other balance moves.
  lemma PositionPays(s: State, v: State, payer: nat, m: nat, id: nat, collateral: int, debt: int, who: nat, a: nat)
    requires PositionMoved(s, v, payer, m, id, collateral, debt)
    ensures BalanceOf(v, who, a)
            == BalanceOf(s, who, a) + Gain(who, a, payer, m, debt)
               - Gain(who, a, payer, s.assets[m].bit.value.backing, collateral)
  {
    hide Credit, Debit, BalanceOf;
    var backing := s.assets[m].bit.value.backing;
    var t := Adjusted(s, payer, m, debt).value;
    AdjustedMoves(s, payer, m, debt, who, a);
    var u := AddSupply(t, m, debt);
    SupplyMovesNothing(t, u.assets, who, a);
    AdjustedMoves(u, payer, backing, -collateral, who, a);
    CallsMoveNothing(Adjusted(u, payer, backing, -collateral).value, v.calls, who, a);
  }

  lemma AdjustedMoves(s: State, whom: nat, b: nat, delta: int, who: nat, a: nat)
    requires Adjusted(s, whom, b, delta).Some?
    ensures BalanceOf(Adjusted(s, whom, b, delta).value, who, a) == BalanceOf(s, who, a) + Gain(who, a, whom, b, delta)
  {
    hide Credit, Debit, BalanceOf;
    if delta >= 0 {
      CreditMoves(s, whom, b, delta, who, a);
    } else {
      DebitMoves(s, whom, b, -delta, who, a);
    }
  }

  // Changes a position, which must end up covered: not callable, or called and closed at once.
  method UpdateCallOrder(db: Market, who: nat, m: nat, collateral: int, debt: int, callPrice: Price)
    returns (ok: bool, id: nat, ghost moved: State, ghost events: seq<Event>)
    requires WellFormed(db) && ValidPrice(callPrice)
    modifies db
    ensures ok ==> WellFormed(db) && Keeps(old(db.S()), db.S())
    ensures ok ==> PositionMoved(old(db.S()), moved, who, m, id, collateral, debt)
    ensures ok && id in moved.calls ==> moved.calls[id].borrower == who && moved.calls[id].callPrice == callPrice
    ensures ok ==>
      var bit := old(db.assets[m]).bit.value;
      if id !in moved.calls || bit.predictionMarket then db.S() == moved
      else
        && Replay(moved, events) == Some(db.S()) && (events == [] ==> Calm(db.S(), m))
        && bit.feed.Some? && (id in db.calls ==> Less(Inverse(db.calls[id].callPrice), bit.feed.value.price))
    ensures !ok ==>
      || (collateral == 0 && debt == 0) || !Open(old(db.assets), m)
      || var bit := old(db.assets[m]).bit.value;
         || (if bit.predictionMarket then collateral != debt else bit.feed == None)
         || MoveRefused(old(db.S()), who, m, collateral, debt)
         || (PositionMoved(old(db.S()), moved, who, m, id, collateral, debt)
             && (|| GivesUp(moved, events, m, false)
                 || (Replay(moved, events) == Some(db.S()) && id in db.calls && bit.feed.Some?
                     && (events != [] || !Less(Inverse(db.calls[id].callPrice), bit.feed.value.price)))))
  {
    hide Good, Trades, Uncrossed, DustFree, Backed, Keeps, Less, PositionMoved, Replay, Calm, Collateralized, GivesUp,
         MoveRefused, Skips, Swan;
    ghost var s0 := db.S();
    id, moved, events := 0, s0, [];
    if (collateral == 0 && debt == 0) || m !in db.assets || db.assets[m].bit == None
      || db.assets[m].bit.value.settled.Some? {
      return false, 0, s0, [];
    }
    var bit := db.assets[m].bit.value;
    if if bit.predictionMarket then collateral != debt else bit.feed == None {
      return false, 0, s0, [];
    }
    var removed;
    ok, id, removed := MovePosition(db, who, m, collateral, debt, callPrice);
    moved := db.S();
    if ok {
      MovedOpen(s0, moved, who, m, id, collateral, debt);
    }
    if !ok || removed || bit.predictionMarket {
      return;
    }
    var called;
    NoneUsed(moved);
    ok, called, events := db.CheckCallOrders(m, false);
    if !ok {
      return;
    }
    KeepsThen(s0, moved, db.S());
    if called {
      ok := id !in db.calls;
    } else {
      ok := id in db.calls && Less(Inverse(db.calls[id].callPrice), bit.feed.value.price);
    }
  }

  lemma MovedOpen(s: State, v: State, who: nat, m: nat, id: nat, collateral: int, debt: int)
    requires PositionMoved(s, v, who, m, id, collateral, debt)
    ensures m in s.assets && s.assets[m].bit.Some?
  {
  }

  // The debt asset is issued or burned, the collateral moves, and the position records both.
  method MovePosition(db: Market, who: nat, m: nat, collateral: int, debt: int, callPrice: Price)
    returns (ok: bool, id: nat, removed: bool)
    requires WellFormed(db) && ValidPrice(callPrice) && Open(db.assets, m)
    modifies db
    ensures ok ==> WellFormed(db) && Keeps(old(db.S()), db.S()) && m in db.assets
    ensures ok ==> (removed <==> id !in db.calls)
    ensures ok ==> PositionMoved(old(db.S()), db.S(), who, m, id, collateral, debt)
    ensures ok && !removed ==>
              db.calls[id].borrower == who && db.calls[id].debtAsset == m && db.calls[id].callPrice == callPrice
    ensures !ok ==> MoveRefused(old(db.S()), who, m, collateral, debt)
  {
    hide Good, Adjusted, Uncrossed, DustFree, Backed, Keeps, Repositioned, AddSupply, Conserves, PositionRefused,
         Collateralized;
    ghost var s0 := db.S();
    var backing := db.assets[m].bit.value.backing;
    id, removed := 0, false;
    ok := AdjustBalance(db, who, m, debt);
    if !ok {
      return;
    }
    ghost var s1 := db.S();
    AdjustedAssets(s0, who, m, debt);
    IssueMore(db, m, debt);
    ok := AdjustBalance(db, who, backing, -collateral);
    if !ok {
      return;
    }
    ghost var s2 := db.S();
    BorrowedEffect(s0, s1, s2, who, m, debt, collateral, backing);
    ok, id, removed := SetPosition(db, who, m, backing, collateral, debt, callPrice);
    if !ok {
      return;
    }
    ghost var s3 := db.S();
    SamePositions(s0, s2, s3, m, id, debt, collateral);
    if id in s0.calls {
      GoodCall(s0, id);
    }
    BorrowedGood(s0, s1, s2, s3, who, m, id, debt, collateral, backing);
    RepositionedCollateral(s0, s2, s3, m, id, debt, collateral);
    ConservedKeeps(s0, s3);
  }

  lemma RepositionedCollateral(s: State, u: State, v: State, m: nat, id: nat, debt: int, collateral: int)
    requires Repositioned(s, u, v, m, id, debt, collateral) && Collateralized(s.calls)
    requires id in v.calls ==> v.calls[id].collateral > 0
    ensures Collateralized(v.calls)
  {
  }

  // Without a position of its own the payer has to put up both amounts; a position of its own must keep both, or none.
  ghost predicate PositionRefused(calls: map<nat, CallOrder>, who: nat, m: nat, collateral: int, debt: int) {
    || (!(exists c :: IsOwn(calls, c, who, m)) && (collateral <= 0 || debt <= 0))
    || exists c :: IsOwn(calls, c, who, m)
         && var debt', collateral' := calls[c].debt + debt, calls[c].collateral + collateral;
            !(debt' == 0 && collateral' == 0) && (debt' <= 0 || collateral' <= 0)
  }

  ghost predicate IsOwn(calls: map<nat, CallOrder>, c: nat, who: nat, m: nat) {
    c in calls && calls[c].borrower == who && calls[c].debtAsset == m
  }

  // The payer lacks the debt it repays or the collateral it adds, or the position would not be one.
  ghost predicate MoveRefused(s: State, who: nat, m: nat, collateral: int, debt: int)
    requires Open(s.assets, m)
  {
    match Adjusted(s, who, m, debt)
    case None => true
    case Some(t) =>
      m in t.assets
      && (|| Adjusted(AddSupply(t, m, debt), who, s.assets[m].bit.value.backing, -collateral) == None
          || PositionRefused(s.calls, who, m, collateral, debt))
  }

  method IssueMore(db: Market, m: nat, x: int)
    requires m in db.assets
    modifies db`assets
    ensures db.S() == AddSupply(old(db.S()), m, x)
  {
    db.assets := db.assets[m := db.assets[m].(supply := db.assets[m].supply + x)];
  }

  // Finds the payer's position in `m` and changes it; without one both amounts must be positive.
  method SetPosition(db: Market, who: nat, m: nat, backing: nat, collateral: int, debt: int, callPrice: Price)
    returns (ok: bool, id: nat, removed: bool)
    requires NewIds(db)
    modifies db`calls, db`nextCall
    ensures ok ==> Repositioned(old(db.S()), old(db.S()), db.S(), m, id, debt, collateral) && NewIds(db)
    ensures ok ==> (removed <==> id !in db.calls)
    ensures ok && id in old(db.calls) ==> old(db.calls[id]).debtAsset == m && old(db.calls[id]).borrower == who
    ensures ok && id !in old(db.calls) ==> forall c <- old(db.calls) :: old(db.calls[c]).debtAsset == m ==>
            old(db.calls[c]).borrower != who
    ensures ok && !removed ==>
      var c := db.calls[id];
      c.borrower == who && c.debtAsset == m && c.callPrice == callPrice && c.debt > 0 && c.collateral > 0
        && (id !in old(db.calls) ==> c.collateralAsset == backing)
      && (id in old(db.calls) ==> c.collateralAsset == old(db.calls[id]).collateralAsset)
    ensures !ok ==> PositionRefused(old(db.calls), who, m, collateral, debt)
  {
    id, removed := 0, false;
    var mine := set c | c in db.calls && db.calls[c].borrower == who && db.calls[c].debtAsset == m;
    if mine == {} {
      assert forall c <- db.calls :: db.calls[c].debtAsset == m && db.calls[c].borrower == who ==> c in mine;
      assert forall c :: IsOwn(db.calls, c, who, m) ==> c in mine;
      if collateral <= 0 || debt <= 0 {
        return false, 0, false;
      }
      id := db.nextCall;
      db.nextCall := id + 1;
      db.calls := db.calls[id := CallOrder(who, m, backing, debt, collateral, callPrice)];
    } else {
      id :| id in mine;
      assert IsOwn(db.calls, id, who, m);
      var c := db.calls[id];
      var debt', collateral' := c.debt + debt, c.collateral + collateral;
      if debt' == 0 && collateral' == 0 {
        db.calls := db.calls - {id};
        return true, id, true;
      }
      if debt' <= 0 || collateral' <= 0 {
        return false, id, false;
      }
      db.calls := db.calls[id := c.(debt := debt', collateral := collateral', callPrice := callPrice)];
    }
    ok := true;
  }

  lemma AdjustedAssets(s: State, who: nat, m: nat, x: int)
    requires Adjusted(s, who, m, x).Some?
    ensures Adjusted(s, who, m, x).value.assets == s.assets
  {
    hide Adjusted;
    AdjustedEffect(s, who, m, x, m);
  }

  lemma SamePositions(s: State, u: State, v: State, m: nat, id: nat, debt: int, collateral: int)
    requires Repositioned(u, u, v, m, id, debt, collateral) && u.calls == s.calls
    ensures Repositioned(s, u, v, m, id, debt, collateral)
  {
  }

  lemma ConservedKeeps(s: State, t: State)
    requires Backed(s) && Conserves(s, t) && SameIssuance(s.assets, t.assets)
    ensures Keeps(s, t) && Backed(t)
  {
    hide Surplus;
  }

  lemma KeepsThen(s: State, t: State, u: State)
    requires Backed(s) && Keeps(s, t) && Trades(t, u, None)
    ensures Keeps(s, u) && Backed(u) && Good(u)
    ensures Uncrossed(t.limits) ==> Uncrossed(u.limits)
    ensures DustFree(t.limits) ==> DustFree(u.limits)
    ensures u.limits.Keys <= t.limits.Keys && u.calls.Keys <= t.calls.Keys && u.settles.Keys <= t.settles.Keys
  {
    hide Surplus, Good, Uncrossed, DustFree, Shrinks;
    KeepsBacked(s, t);
    TradesGood(t, u, None);
    TradesKeep(t, u);
  }

  // ---------- settling ----------

  // What the request is checked for before anything moves.
  ghost predicate MaySettle(a: Asset, balance: nat, amount: nat, canForceSettle: bool) {
    && a.bit.Some? && (canForceSettle || a.bit.value.settled.Some?)
    && (if a.bit.value.predictionMarket then a.bit.value.settled.Some? else a.bit.value.feed.Some?)
    && balance >= amount
  }

  // A holder of a settled asset is paid from the fund at once; otherwise the amount waits for its date.
  method SettleAsset(db: Market, who: nat, m: nat, amount: nat, canForceSettle: bool, date: nat) returns (ok: bool)
    requires WellFormed(db)
    modifies db
    ensures ok ==> WellFormed(db) && Keeps(old(db.S()), db.S())
    ensures (&& m in old(db.assets)
            && MaySettle(old(db.assets[m]), BalanceOf(old(db.S()), who, m), amount, canForceSettle)
             && amount > 0 && old(db.assets[m]).bit.value.fund <= MAX_SHARE_SUPPLY) ==> ok
    ensures ok ==>
              m in old(db.assets)
              && MaySettle(old(db.assets[m]), BalanceOf(old(db.S()), who, m), amount, canForceSettle)
    ensures ok && old(db.assets[m]).bit.value.settled.Some? ==>
              Some(db.S()) == SettleFromFund(old(db.S()), who, m, amount)
    ensures ok && old(db.assets[m]).bit.value.settled == None ==>
              Debit(old(db.S()), who, m, amount).Some?
              && var d := Debit(old(db.S()), who, m, amount).value;
                 db.S() == d.(settles := d.settles[old(db.nextSettle) := Settlement(who, m, amount, date)])
  {
    hide Good, Debit, Uncrossed, DustFree, Backed, Keeps, Conserves, SettleFromFund;
    ghost var s0 := db.S();
    if m !in db.assets || db.assets[m].bit == None {
      return false;
    }
    if !canForceSettle && db.assets[m].bit.value.settled == None {
      return false;
    }
    if db.assets[m].bit.value.predictionMarket {
      if db.assets[m].bit.value.settled == None {
        return false;
      }
    } else if db.assets[m].bit.value.feed == None {
      return false;
    }
    if amount > if (who, m) in db.balances then db.balances[(who, m)] else 0 {
      return false;
    }
    if db.assets[m].bit.value.settled.Some? {
      if amount > 0 && db.assets[m].bit.value.fund <= MAX_SHARE_SUPPLY {
        PaidFromFund(s0, who, m, amount);
      }
      ok := PayFromFund(db, who, m, amount);
      if ok {
        FundKeeps(s0, who, m, amount);
      }
      return;
    }
    ok := db.Withdraw(who, m, amount);
    HasEnough(s0, who, m, amount);
    ghost var s1 := db.S();
    var id := db.nextSettle;
    DebitEffect(s0, who, m, amount, m);
    db.settles := db.settles[id := Settlement(who, m, amount, date)];
    db.nextSettle := id + 1;
    RequestedGood(s0, s1, who, m, amount, id, date);
    ConservedKeeps(s0, db.S());
  }

  method PayFromFund(db: Market, who: nat, m: nat, amount: nat) returns (ok: bool)
    requires m in db.assets && db.assets[m].bit.Some? && db.assets[m].bit.value.settled.Some?
    modifies db`balances, db`assets
    ensures ok <==> SettleFromFund(old(db.S()), who, m, amount).Some?
    ensures ok ==> db.S() == SettleFromFund(old(db.S()), who, m, amount).value
  {
    hide Credit, Debit, AddSupply, ToQuote, Surplus;
    ok := db.Withdraw(who, m, amount);
    if !ok {
      return;
    }
    DebitEffect(old(db.S()), who, m, amount, m);
    var bit := db.assets[m].bit.value;
    match ToQuote(amount, bit.settled.value)
    case None =>
      ok := false;
    case Some(share) =>
      if share > bit.fund {
        return false;
      }
      db.assets := db.assets[m := db.assets[m].(bit := Some(bit.(fund := bit.fund - share)))];
      ghost var s1 := db.S();
      db.Deposit(who, bit.backing, share);
      CreditEffect(s1, who, bit.backing, share, m);
      IssueMore(db, m, -(amount as int));
  }

  lemma HasEnough(s: State, who: nat, m: nat, amount: nat)
    ensures BalanceOf(s, who, m) >= amount <==> Debit(s, who, m, amount).Some?
  {
  }

  lemma RequestedGood(s: State, t: State, who: nat, m: nat, amount: nat, id: nat, date: nat)
    requires Good(s) && m in s.assets && s.assets[m].bit.Some? && Debit(s, who, m, amount) == Some(t)
             && id !in s.settles
    ensures var u := t.(settles := t.settles[id := Settlement(who, m, amount, date)]);
            Good(u) && Conserves(s, u) && SameIssuance(s.assets, u.assets)
  {
    hide Debit, Surplus, Supply, Debt, SolventAsset;
    var u := t.(settles := t.settles[id := Settlement(who, m, amount, date)]);
    DebitEffect(s, who, m, amount, m);
    forall a
      ensures Surplus(u, a) == Surplus(s, a) && Gap(u, a) == Gap(s, a)
    {
      DebitEffect(s, who, m, amount, a);
      SetSettleEffect(t, id, Settlement(who, m, amount, date), a);
      DebtOfCalls(s, u, a);
      SupplyOfAssets(s, u, a);
    }
  }

  lemma PaidFromFund(s: State, who: nat, m: nat, amount: nat)
    requires Good(s) && Backed(s) && m in s.assets && s.assets[m].bit.Some? && s.assets[m].bit.value.settled.Some?
    requires 0 < amount <= BalanceOf(s, who, m) && s.assets[m].bit.value.fund <= MAX_SHARE_SUPPLY
    ensures SettleFromFund(s, who, m, amount).Some?
  {
    hide SettleFromFund, Surplus, SoundState, DebtIsSupply, Solvent;
    FundNeverShort(s, who, m, amount);
  }

  lemma FundKeeps(s: State, who: nat, m: nat, amount: nat)
    requires Good(s) && Backed(s) && m in s.assets && s.assets[m].bit.Some? && s.assets[m].bit.value.settled.Some?
    requires SettleFromFund(s, who, m, amount).Some?
    ensures var t := SettleFromFund(s, who, m, amount).value;
            Good(t) && Keeps(s, t) && Backed(t) && t.limits == s.limits && t.calls == s.calls && t.settles == s.settles
  {
    hide SettleFromFund, Surplus, SoundState, DebtIsSupply, Solvent, Moves;
    var t := SettleFromFund(s, who, m, amount).value;
    SettleFromFundMoves(s, who, m, amount);
    SettleFromFundFrame(s, who, m, amount);
    MovesKeepsDebtIsSupply(s, t);
    MovesConserves(s, t);
    ConservedKeeps(s, t);
  }

  lemma MovesConserves(s: State, t: State)
    requires Moves(s, t)
    ensures Conserves(s, t) && (Solvent(s) ==> Solvent(t))
  {
  }

  lemma SettleFromFundFrame(s: State, who: nat, m: nat, amount: nat)
    requires m in s.assets && s.assets[m].bit.Some? && s.assets[m].bit.value.settled.Some?
    requires SettleFromFund(s, who, m, amount).Some?
    ensures var t := SettleFromFund(s, who, m, amount).value;
            t.limits == s.limits && t.calls == s.calls && t.settles == s.settles && SameIssuance(s.assets, t.assets)
  {
    hide ToQuote, Debit, Credit, Surplus;
    DebitEffect(s, who, m, amount, m);
    var t := Debit(s, who, m, amount).value;
    var b := s.assets[m].bit.value;
    var share := ToQuote(amount, b.settled.value).value;
    var u := t.(assets := t.assets[m := t.assets[m].(bit := Some(b.(fund := b.fund - share)))]);
    CreditEffect(u, who, b.backing, share, m);
  }

  // ---------- issuing and reserving ----------

  // Supply and one balance change together; the asset is not market-issued.
  lemma PlainSupplyGood(s: State, u: State, a: nat, x: int)
    requires Good(s) && Backed(s) && a in s.assets && s.assets[a].bit == None && u == s.(balances := u.balances)
    requires forall b :: Surplus(u, b) == Surplus(s, b) + (if b == a then x else 0)
    ensures var t := AddSupply(u, a, x); Good(t) && Backed(t) && Keeps(s, t)
  {
    hide Surplus, Supply, Debt, SolventAsset;
    var t := AddSupply(u, a, x);
    forall b
      ensures Surplus(t, b) == Surplus(s, b) && (b != a ==> Gap(t, b) == Gap(s, b))
    {
      AddSupplyEffect(u, a, x, b);
      DebtOfCalls(s, t, b);
      SupplyOfAssets(s, u, b);
    }
    PlainSupplySolvent(s, t, a, x);
    ConservedKeeps(s, t);
  }

  lemma PlainSupplySolvent(s: State, t: State, a: nat, x: int)
    requires a in s.assets && s.assets[a].bit == None && Solvent(s)
    requires t.assets == s.assets[a := s.assets[a].(supply := s.assets[a].supply + x)]
    ensures Solvent(t)
  {
  }

  lemma IssuedKeeps(s: State, to: nat, a: nat, x: nat)
    requires Good(s) && Backed(s) && a in s.assets && s.assets[a].bit == None
    ensures var t := AddSupply(Credit(s, to, a, x), a, x);
            Good(t) && Backed(t) && Keeps(s, t) && t == s.(balances := t.balances, assets := t.assets)
  {
    hide Good, Backed, Keeps, Surplus, Credit;
    forall b
      ensures Surplus(Credit(s, to, a, x), b) == Surplus(s, b) + (if b == a then x else 0)
    {
      CreditEffect(s, to, a, x, b);
    }
    CreditEffect(s, to, a, x, a);
    PlainSupplyGood(s, Credit(s, to, a, x), a, x);
  }

  lemma ReservedKeeps(s: State, payer: nat, a: nat, x: nat)
    requires Good(s) && Backed(s) && a in s.assets && s.assets[a].bit == None && Debit(s, payer, a, x).Some?
    ensures var u := Debit(s, payer, a, x).value;
            a in u.assets
            && var t := AddSupply(u, a, -(x as int));
               Good(t) && Backed(t) && Keeps(s, t) && t == s.(balances := t.balances, assets := t.assets)
  {
    hide Good, Backed, Keeps, Surplus, Debit;
    var u := Debit(s, payer, a, x).value;
    forall b
      ensures Surplus(u, b) == Surplus(s, b) + (if b == a then -(x as int) else 0)
    {
      DebitEffect(s, payer, a, x, b);
    }
    DebitEffect(s, payer, a, x, a);
    PlainSupplyGood(s, u, a, -(x as int));
  }

  // The issuer gives new units of an asset, other than core and the market-issued ones, to an account.
  method IssueAsset(db: Market, to: nat, a: nat, amount: nat, maxSupply: int) returns (ok: bool)
    requires WellFormed(db)
    modifies db`balances, db`assets
    ensures ok <==> a != CORE && 0 < amount <= MAX_SHARE_SUPPLY && a in old(db.assets)
                    && old(db.assets)[a].bit == None && old(db.assets)[a].supply + amount <= maxSupply
    ensures if ok then db.S() == AddSupply(Credit(old(db.S()), to, a, amount), a, amount) else unchanged(db)
    ensures WellFormed(db) && Keeps(old(db.S()), db.S())
  {
    hide Good, Backed, Keeps, Uncrossed, DustFree, Credit;
    ghost var s0 := db.S();
    assert Keeps(s0, s0) by { KeepsItself(s0); }
    if a == CORE || amount == 0 || amount > MAX_SHARE_SUPPLY || a !in db.assets || db.assets[a].bit.Some? {
      return false;
    }
    if db.assets[a].supply + amount > maxSupply { return false; }
    IssuedKeeps(s0, to, a, amount);
    db.Deposit(to, a, amount);
    IssueMore(db, a, amount);
    return true;
  }

  // A holder gives units of an asset that is not market-issued up.
  method ReserveAsset(db: Market, payer: nat, a: nat, amount: nat) returns (ok: bool)
    requires WellFormed(db)
    modifies db`balances, db`assets
    ensures ok <==> 0 < amount <= MAX_SHARE_SUPPLY && a in old(db.assets) && old(db.assets)[a].bit == None
                    && amount <= old(db.assets)[a].supply && amount <= BalanceOf(old(db.S()), payer, a)
    ensures if ok then
              Debit(old(db.S()), payer, a, amount).Some?
              && db.S() == AddSupply(Debit(old(db.S()), payer, a, amount).value, a, -(amount as int))
            else unchanged(db)
    ensures WellFormed(db) && Keeps(old(db.S()), db.S())
  {
    hide Good, Backed, Keeps, Uncrossed, DustFree, Debit;
    ghost var s0 := db.S();
    assert Keeps(s0, s0) by { KeepsItself(s0); }
    if amount == 0 || amount > MAX_SHARE_SUPPLY || a !in db.assets || db.assets[a].bit.Some? { return false; }
    if db.assets[a].supply < amount { return false; }
    HasEnough(s0, payer, a, amount);
    ok := db.Withdraw(payer, a, amount);
    if !ok { return; }
    ReservedKeeps(s0, payer, a, amount);
    IssueMore(db, a, -(amount as int));
  }

  lemma KeepsItself(s: State)
    ensures Keeps(s, s)
  {
    hide Surplus;
  }

  // The issuer closes the market: possible if the least collateralized position can pay.
  method SettleGlobally(db: Market, m: nat, p: Price) returns (ok: bool, ghost order: seq<nat>)
    requires WellFormed(db)
    modifies db
    ensures ok ==> WellFormed(db) && Keeps(old(db.S()), db.S())
    ensures ok ==> Open(old(db.assets), m) && m in db.assets && !Open(db.assets, m)
    ensures ok ==> GloballySettled(old(db.S()), m, p, order) == Some(db.S())
    ensures ok <==> Open(old(db.assets), m) && old(db.assets[m]).supply > 0 && !Unpayable(old(db.calls), m, p)
                    && forall c :: IsLeastCollateralized(old(db.calls), m, c) ==> LeastPays(old(db.calls[c]), p)
  {
    hide Good, Trades, Uncrossed, DustFree, Backed, Keeps, Precedes, GloballySettled, Collateralized, Unpayable;
    order := [];
    ghost var s0 := db.S();
    if m !in db.assets || db.assets[m].bit == None || db.assets[m].supply <= 0 || db.assets[m].bit.value.settled.Some? {
      return false, [];
    }
    var least := LeastCollateralized(db, m);
    if !LeastPays(db.calls[least], p) {
      return false, [];
    }
    OneLeast(db.calls, m, least);
    ok, order := db.GloballySettle(m, p);
    if ok {
      TradesKeep(s0, db.S());
      TradesGood(s0, db.S(), None);
      SettledCalm(s0, db.S(), m);
    }
  }

  predicate LeastPays(c: CallOrder, p: Price) {
    ToQuote(c.debt, p).Some? && ToQuote(c.debt, p).value <= c.collateral
  }

  // In numbers: the whole part of what the debt is worth is within the collateral, and within the share limit.
  lemma LeastPaysIff(c: CallOrder, p: Price)
    ensures LeastPays(c, p) <==>
            p.base > 0 && c.debt * p.quote < (c.collateral + 1) * p.base
              && c.debt * p.quote < (MAX_SHARE_SUPPLY + 1) * p.base
  {
    if p.base > 0 {
      var worth := c.debt * p.quote / p.base;
      FloorIff(c.debt * p.quote, p.base, worth);
      LimitOfWorth(c.debt * p.quote, p.base);
      if worth <= c.collateral {
        MulMonotone(worth + 1, c.collateral + 1, p.base);
      } else {
        MulMonotone(c.collateral + 1, worth, p.base);
      }
    }
  }

  ghost predicate IsLeastCollateralized(calls: map<nat, CallOrder>, m: nat, c: nat) {
    && c in calls && calls[c].debtAsset == m
    && forall d <- calls :: calls[d].debtAsset == m && d != c ==>
         Precedes(Price(calls[c].collateral, calls[c].debt), c, Price(calls[d].collateral, calls[d].debt), d)
  }

  lemma OneLeast(calls: map<nat, CallOrder>, m: nat, c: nat)
    requires IsLeastCollateralized(calls, m, c)
    ensures forall d :: IsLeastCollateralized(calls, m, d) ==> d == c
  {
    hide Precedes;
    forall d | IsLeastCollateralized(calls, m, d)
      ensures d == c
    {
      if d != c {
        PrecedesAsymmetric(Price(calls[c].collateral, calls[c].debt), c, Price(calls[d].collateral, calls[d].debt), d);
      }
    }
  }

  // There is always a position to look at: the asset has supply, and its supply is owed.
  method LeastCollateralized(db: Market, m: nat) returns (least: nat)
    requires Good(db.S()) && Open(db.assets, m) && db.assets[m].supply > 0
    ensures IsLeastCollateralized(db.calls, m, least)
  {
    hide Surplus, Solvent, Precedes;
    var positions :=
      map c | c in db.calls && db.calls[c].debtAsset == m :: Price(db.calls[c].collateral, db.calls[c].debt);
    ghost var some := SupplyHasPosition(db.S(), m);
    assert some in positions;
    least := First(positions);
    assert forall c <- db.calls :: db.calls[c].debtAsset == m ==> c in positions;
  }

  ghost function WithFeed(s: State, m: nat, feed: Option<Feed>): State
    requires m in s.assets && s.assets[m].bit.Some?
  {
    s.(assets := s.assets[m := s.assets[m].(bit := Some(s.assets[m].bit.value.(feed := feed)))])
  }

  // A new median feed: margin calls may follow.
  method PublishFeed(db: Market, m: nat, feed: Option<Feed>) returns (ok: bool, ghost events: seq<Event>)
    requires WellFormed(db)
    requires feed.Some? ==> ValidPrice(feed.value.price) && ValidPrice(feed.value.squeeze)
    modifies db
    ensures ok ==> WellFormed(db) && Keeps(old(db.S()), db.S())
    ensures ok ==> Open(old(db.assets), m)
    ensures ok ==>
      if feed == old(db.assets[m]).bit.value.feed then db.S() == old(db.S())
      else
        && Replay(WithFeed(old(db.S()), m, feed), events) == Some(db.S())
        && (!Skips(WithFeed(old(db.S()), m, feed), events) ==> Calm(db.S(), m))
    ensures !ok ==> !Open(old(db.assets), m) || GivesUp(WithFeed(old(db.S()), m, feed), events, m, true)
  {
    hide Good, Trades, Uncrossed, DustFree, Backed, Keeps, Conserves, Replay, Calm, Skips, Collateralized, GivesUp,
         Swan;
    events := [];
    ghost var s0 := db.S();
    if m !in db.assets || db.assets[m].bit == None || db.assets[m].bit.value.settled.Some? {
      return false, [];
    }
    var bit := db.assets[m].bit.value;
    db.assets := db.assets[m := db.assets[m].(bit := Some(bit.(feed := feed)))];
    assert feed == bit.feed ==> db.assets == s0.assets;
    ghost var s1 := db.S();
    FedGood(s0, s1, m, feed);
    ConservedKeeps(s0, s1);
    if feed == bit.feed {
      return true, [];
    }
    var called;
    ok, called, events := db.CheckCallOrders(m, true);
    if ok {
      KeepsThen(s0, s1, db.S());
    }
  }

  lemma FedGood(s: State, t: State, m: nat, feed: Option<Feed>)
    requires Good(s) && m in s.assets && s.assets[m].bit.Some?
    requires feed.Some? ==> ValidPrice(feed.value.price) && ValidPrice(feed.value.squeeze)
    requires t == s.(assets := s.assets[m := s.assets[m].(bit := Some(s.assets[m].bit.value.(feed := feed)))])
    ensures Good(t) && Conserves(s, t) && SameIssuance(s.assets, t.assets)
  {
    hide Surplus, Supply, Debt, SolventAsset, SoundState, ValidPrice;
    FedSound(s, t, m, feed);
    forall a
      ensures Surplus(t, a) == Surplus(s, a) && Gap(t, a) == Gap(s, a)
    {
      SetFundEffect(s, m, s.assets[m].bit.value.(feed := feed), a);
      DebtOfCalls(s, t, a);
    }
    forall k | k in t.assets
      ensures SolventAsset(t.assets[k])
    {
      FeedKeepsSolvent(s.assets[k], t.assets[k]);
    }
  }

  lemma FedSound(s: State, t: State, m: nat, feed: Option<Feed>)
    requires SoundState(s) && m in s.assets && s.assets[m].bit.Some?
    requires feed.Some? ==> ValidPrice(feed.value.price) && ValidPrice(feed.value.squeeze)
    requires t == s.(assets := s.assets[m := s.assets[m].(bit := Some(s.assets[m].bit.value.(feed := feed)))])
    ensures SoundState(t)
  {
  }

  lemma FeedKeepsSolvent(x: Asset, y: Asset)
    requires SolventAsset(x) && x.supply == y.supply && (x.bit.Some? <==> y.bit.Some?)
    requires x.bit.Some? ==> y.bit.value.fund == x.bit.value.fund && y.bit.value.settled == x.bit.value.settled
    ensures SolventAsset(y)
  {
  }
}

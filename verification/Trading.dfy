// What every completed market step keeps, and that each kind of trade is such a step.
// Source: libraries/chain/db_market.cpp:46-96, 174-328, 537-667.
module Trading {
  import opened Options
  import opened Config
  import opened Prices
  import opened Ordering
  import opened Totals
  import opened Ledger
  import opened Book
  import opened Margin

  ghost predicate Good(s: State) {
    SoundState(s) && DebtIsSupply(s) && Solvent(s)
  }

  // The same assets, the same of them market-issued.
  ghost predicate SameIssuance(x: map<nat, Asset>, y: map<nat, Asset>) {
    x.Keys == y.Keys && forall m <- x :: x[m].bit.Some? <==> y[m].bit.Some?
  }

  // The step from `s` to `t` only trades or cancels: nothing appears or disappears, and the book shrinks.
  ghost predicate Trades(s: State, t: State, taker: Option<nat>) {
    && Moves(s, t) && Good(t) && Shrinks(s.limits, t.limits, taker)
    && t.settles.Keys <= s.settles.Keys && t.calls.Keys <= s.calls.Keys && SameIssuance(s.assets, t.assets)
  }

  lemma TradesReflexive(s: State, taker: Option<nat>)
    requires Good(s)
    ensures Trades(s, s, taker)
  {
    hide Good, Surplus, Gap, Solvent;
  }

  lemma TradesTransitive(s: State, t: State, u: State, taker: Option<nat>)
    requires Trades(s, t, taker) && Trades(t, u, taker)
    ensures Trades(s, u, taker)
  {
    hide Good, Moves, Shrinks;
    MovesTransitive(s, t, u);
    ShrinksTransitive(s.limits, t.limits, u.limits, taker);
  }

  lemma TradesWeaken(s: State, t: State, taker: Option<nat>)
    requires Trades(s, t, None)
    ensures Trades(s, t, taker)
  {
    hide Good, Moves, Shrinks;
    ShrinksWeaken(s.limits, t.limits, taker);
  }

  lemma TradesFrom(s: State, t: State, taker: Option<nat>)
    requires Good(s) && Moves(s, t) && SoundState(t) && Shrinks(s.limits, t.limits, taker)
             && t.settles.Keys <= s.settles.Keys
    requires SameIssuance(s.assets, t.assets) && t.calls.Keys <= s.calls.Keys
    ensures Trades(s, t, taker)
  {
    hide SoundState, Shrinks, DebtIsSupply, Solvent, Conserves;
    MovesKeepsDebtIsSupply(s, t);
  }

  lemma TradesGood(s: State, t: State, taker: Option<nat>)
    requires Trades(s, t, taker)
    ensures Good(t) && t.limits.Keys <= s.limits.Keys && t.settles.Keys <= s.settles.Keys
            && t.calls.Keys <= s.calls.Keys
  {
  }

  lemma TradesAssets(s: State, t: State, taker: Option<nat>, m: nat)
    requires Trades(s, t, taker) && m in s.assets
    ensures m in t.assets
  {
  }

  lemma GoodOrder(s: State, o: nat)
    requires Good(s) && o in s.limits
    ensures var x := s.limits[o];
            && ValidPrice(x.price) && x.forSale > 0 && x.sells != x.wants && x.sells in s.assets && x.wants in s.assets
            && s.assets[x.wants].feePercent <= HUNDRED_PERCENT && FeesBounded(s.assets) && Sound(s.limits, s.assets)
  {
  }

  lemma GoodCall(s: State, c: nat)
    requires Good(s) && c in s.calls
    ensures var x := s.calls[c];
            && x.debt > 0 && ValidPrice(x.callPrice) && Open(s.assets, x.debtAsset)
            && s.assets[x.debtAsset].bit.value.backing == x.collateralAsset && x.collateralAsset in s.assets
              && FeesBounded(s.assets)
  {
  }

  lemma GoodFeed(s: State, m: nat)
    requires Good(s) && m in s.assets && s.assets[m].bit.Some? && s.assets[m].bit.value.feed.Some?
    ensures ValidPrice(s.assets[m].bit.value.feed.value.price)
  {
  }

  lemma TradesOrder(s: State, t: State, taker: Option<nat>, o: nat)
    requires Trades(s, t, taker) && o in t.limits
    ensures o in s.limits && t.limits[o].sells == s.limits[o].sells && t.limits[o].wants == s.limits[o].wants
            && t.limits[o].price == s.limits[o].price
  {
  }

  // ---------- two limit orders ----------

  lemma MatchTrades(s: State, taker: nat, maker: nat)
    requires Good(s) && taker in s.limits && maker in s.limits && taker != maker
    requires Opposite(s.limits[taker], s.limits[maker]) && MatchLimits(s, taker, maker).Some?
    ensures Trades(s, MatchLimits(s, taker, maker).value.0, Some(taker))
  {
    hide MatchLimits, SoundCalls, SoundBits, SoundSettles, SameAssetsButFees, Surplus, Supply, Debt, Shrinks,
         DebtIsSupply, Solvent, Moves;
    var t := MatchLimits(s, taker, maker).value.0;
    MatchLimitsBook(s, taker, maker);
    MatchLimitsShrinks(s, taker, maker);
    FeesKeepBits(s.assets, t.assets);
    FeesKeepSupplies(s.assets, t.assets);
    forall a
      ensures Surplus(t, a) == Surplus(s, a) && Gap(t, a) == Gap(s, a)
    {
      MatchLimitsEffect(s, taker, maker, a);
      DebtOfCalls(s, t, a);
    }
    MatchLimitsEffect(s, taker, maker, CORE);
    ShrinkingKeepsSound(s.limits, t.limits, Some(taker), s.assets);
    SameBitsKeepsSound(s, t);
    QuietMoves(s, t);
    TradesFrom(s, t, Some(taker));
  }

  lemma ShrinkingKeepsSound(x: map<nat, LimitOrder>, y: map<nat, LimitOrder>, taker: Option<nat>,
                            assets: map<nat, Asset>)
    requires Shrinks(x, y, taker) && Sound(x, assets)
    ensures Sound(y, assets)
  {
  }

  // ---------- a margin call ----------

  lemma MarginTrades(s: State, c: nat, o: nat, usd: nat, core: nat)
    requires Good(s) && c in s.calls && o in s.limits && usd <= s.calls[c].debt && usd <= s.limits[o].forSale
    requires s.limits[o].sells == s.calls[c].debtAsset && s.limits[o].wants == s.calls[c].collateralAsset
    requires MarginFill(s, c, o, usd, core).Some?
    ensures Trades(s, MarginFill(s, c, o, usd, core).value.0, None)
  {
    hide FillCall, FillLimit, Surplus, Supply, Debt, Moves, Shrinks, DebtIsSupply, Solvent, SoundCalls, SoundBits,
         SoundSettles;
    MarginFillQuiet(s, c, o, usd, core);
    QuietMoves(s, MarginFill(s, c, o, usd, core).value.0);
    FillCallAssets(s, c, core, usd);
    FillCallSound(s, c, core, usd);
    var t := FillCall(s, c, core, usd).value;
    FillLimitSound(t, o, usd, core, true);
    FillShrinks(t, o, usd, core, true);
    FillLimitFrame(t, o, usd, core, true);
    TradesFrom(s, MarginFill(s, c, o, usd, core).value.0, None);
  }

  lemma FillLimitFrame(s: State, id: nat, pays: nat, receives: nat, cull: bool)
    requires id in s.limits && pays <= s.limits[id].forSale
    requires s.limits[id].wants in s.assets && s.assets[s.limits[id].wants].feePercent <= HUNDRED_PERCENT
    requires FillLimit(s, id, pays, receives, cull).Some?
    ensures FillLimit(s, id, pays, receives, cull).value.0.settles == s.settles
    ensures FillLimit(s, id, pays, receives, cull).value.0.calls == s.calls
  {
    hide FillLimit;
    FillLimitEffect(s, id, pays, receives, cull, CORE);
  }

  // ---------- cancelling ----------

  lemma CancelTrades(s: State, id: nat)
    requires Good(s) && id in s.limits
    ensures Trades(s, CancelLimit(s, id), None)
  {
    hide CancelLimit, Surplus, Supply, Debt, SoundCalls, SoundBits, SoundSettles, DebtIsSupply, Solvent;
    var t := CancelLimit(s, id);
    forall a
      ensures Surplus(t, a) == Surplus(s, a) && Gap(t, a) == Gap(s, a)
    {
      CancelLimitEffect(s, id, a);
      SupplyOfAssets(s, t, a);
      DebtOfCalls(s, t, a);
    }
    CancelLimitEffect(s, id, CORE);
    QuietMoves(s, t);
    SameBitsKeepsSound(s, t);
    TradesFrom(s, t, None);
  }

  lemma SupplyOfAssets(s: State, t: State, a: nat)
    requires s.assets == t.assets
    ensures Supply(t, a) == Supply(s, a)
  {
  }

  lemma CancelSettleTrades(s: State, id: nat)
    requires Good(s) && id in s.settles
    ensures Trades(s, CancelSettle(s, id), None)
  {
    hide CancelSettle, Surplus, Supply, Debt, SoundCalls, SoundBits, Sound, DebtIsSupply, Solvent;
    var t := CancelSettle(s, id);
    forall a
      ensures Surplus(t, a) == Surplus(s, a) && Gap(t, a) == Gap(s, a)
    {
      CancelSettleEffect(s, id, a);
      SupplyOfAssets(s, t, a);
      DebtOfCalls(s, t, a);
    }
    CancelSettleEffect(s, id, CORE);
    QuietMoves(s, t);
    SameBitsKeepsSound(s, t);
    TradesFrom(s, t, None);
  }

  // ---------- a forced settlement ----------

  lemma SettleTrades(s: State, c: nat, q: nat, usd: nat, core: nat)
    requires Good(s) && c in s.calls && q in s.settles && usd <= s.calls[c].debt && usd <= s.settles[q].balance
    requires s.settles[q].asset == s.calls[c].debtAsset
    requires SettleFill(s, c, q, usd, core).Some?
    ensures Trades(s, SettleFill(s, c, q, usd, core).value, None)
  {
    hide FillCall, FillSettle, Surplus, Supply, Debt, Quiet, Moves, Shrinks, DebtIsSupply, Solvent, Sound, SoundSettles;
    SettleFillQuiet(s, c, q, usd, core);
    QuietMoves(s, SettleFill(s, c, q, usd, core).value);
    FillCallAssets(s, c, core, usd);
    var t := FillCall(s, c, core, usd).value;
    FillSettleAssets(t, q, usd, s.calls[c].collateralAsset, core);
    ShrinksReflexive(s.limits);
    TradesFrom(s, SettleFill(s, c, q, usd, core).value, None);
  }

  lemma ShrinksReflexive(x: map<nat, LimitOrder>)
    ensures Shrinks(x, x, None)
  {
  }

  // ---------- settling an asset globally ----------

  ghost function PositionsIn(calls: map<nat, CallOrder>, m: nat): set<nat> {
    set c | c in calls && calls[c].debtAsset == m
  }

  // Positions of `m` are being closed: `gathered` has been taken from them, `todo` are left.
  ghost predicate Closing(s: State, t: State, m: nat, gathered: nat, todo: set<nat>) {
    && Open(s.assets, m) && SoundState(t) && ClosingAssets(s, t, m)
    && (forall a :: Surplus(t, a) == Surplus(s, a) - (if a == s.assets[m].bit.value.backing then gathered else 0)
                                     + (if a == m then s.assets[m].supply - t.assets[m].supply else 0))
    && (forall a :: Gap(t, a) == Gap(s, a))
    && t.limits == s.limits && t.settles == s.settles && t.calls.Keys <= s.calls.Keys
    && todo == PositionsIn(t.calls, m)
  }

  ghost predicate ClosingAssets(s: State, t: State, m: nat) {
    SameBits(s.assets, t.assets) && forall k <- s.assets :: k != m ==> t.assets[k].supply == s.assets[k].supply
  }

  lemma ClosingStart(s: State, m: nat)
    requires SoundState(s) && Open(s.assets, m)
    ensures Closing(s, s, m, 0, PositionsIn(s.calls, m))
  {
    hide SoundState, Surplus, Gap;
  }

  lemma ClosingStep(s: State, t: State, m: nat, gathered: nat, todo: set<nat>, c: nat, pays: nat)
    requires Closing(s, t, m, gathered, todo) && c in todo
    requires FillCall(t, c, pays, t.calls[c].debt).Some?
    ensures Closing(s, FillCall(t, c, pays, t.calls[c].debt).value, m, gathered + pays, todo - {c})
  {
    hide FillCall, Surplus, Supply, Debt, Sound, SoundBits, SoundSettles, FeesBounded;
    var u := FillCall(t, c, pays, t.calls[c].debt).value;
    var debt := t.calls[c].debt;
    assert t.calls[c].collateralAsset == s.assets[m].bit.value.backing;
    FillCallAssets(t, c, pays, debt);
    FillCallSound(t, c, pays, debt);
    forall a
      ensures Surplus(u, a) == Surplus(t, a) - (if a == s.assets[m].bit.value.backing then pays else 0)
              + (if a == m then debt else 0)
      ensures Gap(u, a) == Gap(t, a)
    {
      FillCallEffect(t, c, pays, debt, a);
    }
  }

  lemma ClosingEnd(s: State, t: State, m: nat, gathered: nat)
    requires Good(s) && Closing(s, t, m, gathered, {}) && s.assets[m].supply >= 0
    ensures Trades(s, FinishGlobalSettlement(t, m, gathered, s.assets[m].supply), None)
  {
    hide Surplus, Supply, Debt, Solvent, SolventAsset, SoundState, Shrinks, DebtIsSupply;
    var u := FinishGlobalSettlement(t, m, gathered, s.assets[m].supply);
    NoFundYet(t, m);
    forall a
      ensures Surplus(u, a) == Surplus(s, a) && (a != m ==> Gap(u, a) == Gap(s, a))
    {
      FinishEffect(t, m, gathered, s.assets[m].supply, a);
      DebtOfCalls(t, u, a);
    }
    ClosedSolvent(s, t, m, gathered);
    forall c | c in t.calls
      ensures t.calls[c].debtAsset != m
    {
      assert c !in PositionsIn(t.calls, m);
    }
    ClosedSound(t, m, gathered, s.assets[m].supply);
    ShrinksReflexive(s.limits);
    TradesFrom(s, u, None);
  }

  lemma NoFundYet(t: State, m: nat)
    requires SoundState(t) && Open(t.assets, m)
    ensures t.assets[m].bit.value.fund == 0
  {
  }

  lemma ClosedSolvent(s: State, t: State, m: nat, gathered: nat)
    requires ClosingAssets(s, t, m) && m in s.assets && s.assets[m].bit.Some? && s.assets[m].supply >= 0 && Solvent(s)
    ensures Solvent(FinishGlobalSettlement(t, m, gathered, s.assets[m].supply))
  {
    hide SolventAsset;
    var u := FinishGlobalSettlement(t, m, gathered, s.assets[m].supply);
    forall k | k in u.assets
      ensures SolventAsset(u.assets[k])
    {
      if k == m {
        NewFundSolvent(u.assets[m]);
      } else {
        SolventSame(s.assets[k], u.assets[k]);
      }
    }
  }

  lemma SolventSame(x: Asset, y: Asset)
    requires SolventAsset(x) && x.bit == y.bit && x.supply == y.supply
    ensures SolventAsset(y)
  {
  }

  lemma NewFundSolvent(x: Asset)
    requires x.bit.Some? && x.supply >= 0 && x.bit.value.settled == Some(Price(x.supply, x.bit.value.fund))
    ensures SolventAsset(x)
  {
  }

  lemma ClosedSound(t: State, m: nat, gathered: nat, supply: int)
    requires SoundState(t) && Open(t.assets, m) && supply >= 0 && forall c <- t.calls :: t.calls[c].debtAsset != m
    ensures SoundState(FinishGlobalSettlement(t, m, gathered, supply))
  {
  }

  lemma SupplyNonNegative(s: State, m: nat)
    requires Good(s) && Open(s.assets, m)
    ensures s.assets[m].supply >= 0
  {
    hide Solvent;
    assert Gap(s, m) == 0;
    TotalNonNegative(s.calls, DebtIn(m));
  }

  // What a position hands over when its asset is settled at `p`.
  ghost function SwanPart(m: nat, p: Price): (nat, CallOrder) -> int {
    (k: nat, c: CallOrder) => if c.debtAsset == m && SwanPays(c, p).Some? then SwanPays(c, p).value else 0
  }

  // ---------- when an asset must be settled ----------

  predicate BidFor(o: LimitOrder, m: nat, backing: nat) {
    o.sells == m && o.wants == backing
  }

  // The first position in line to be called.
  ghost predicate FirstPosition(calls: map<nat, CallOrder>, m: nat, c: nat) {
    && c in calls && calls[c].debtAsset == m
    && forall d <- calls :: calls[d].debtAsset == m && d != c ==> Precedes(calls[c].callPrice, c, calls[d].callPrice, d)
  }

  // Neither the feed nor any bid would buy the debt of the first position for less than all its collateral.
  ghost predicate Swan(s: State, m: nat) {
    && Open(s.assets, m) && s.assets[m].bit.value.feed.Some?
    && exists c :: FirstPosition(s.calls, m, c) && Uncovered(s, m, c)
  }

  ghost predicate Uncovered(s: State, m: nat, c: nat)
    requires c in s.calls && Open(s.assets, m) && s.assets[m].bit.value.feed.Some?
  {
    var least := Price(s.calls[c].debt, s.calls[c].collateral);
    && !Less(least, s.assets[m].bit.value.feed.value.price)
    && forall o <- s.limits :: BidFor(s.limits[o], m, s.assets[m].bit.value.backing) ==> !Less(least, s.limits[o].price)
  }

  function Higher(p: Price, q: Price): Price {
    if Less(p, q) then q else p
  }

  lemma NotBelowHigher(least: Price, p: Price, q: Price)
    requires p.quote > 0 && q.quote > 0
    ensures !Less(least, Higher(p, q)) <==> !Less(least, p) && !Less(least, q)
  {
    if least.quote > 0 {
      if Less(p, q) && !Less(least, q) {
        NotAboveTransitive(p, q, least);
      } else if !Less(p, q) && !Less(least, p) {
        NotAboveTransitive(q, p, least);
      }
    }
  }

  // Looking at the best bid is enough.
  lemma SwanIffBest(s: State, m: nat, c: nat, best: Option<nat>, highest: Price)
    requires Good(s) && Open(s.assets, m) && s.assets[m].bit.value.feed.Some? && FirstPosition(s.calls, m, c)
    requires best.Some? ==> best.value in s.limits && BidFor(s.limits[best.value], m, s.assets[m].bit.value.backing)
    requires forall o <- s.limits :: BidFor(s.limits[o], m, s.assets[m].bit.value.backing) ==>
               best.Some? && (o != best.value ==>
                 Precedes(Inverse(s.limits[best.value].price), best.value, Inverse(s.limits[o].price), o))
    requires highest == if best == None then s.assets[m].bit.value.feed.value.price
                        else Higher(s.limits[best.value].price, s.assets[m].bit.value.feed.value.price)
    ensures Swan(s, m) <==> !Less(Price(s.calls[c].debt, s.calls[c].collateral), highest)
  {
    hide Good, Higher, Less, Precedes;
    var least := Price(s.calls[c].debt, s.calls[c].collateral);
    var feed := s.assets[m].bit.value.feed.value.price;
    GoodFeed(s, m);
    if best.Some? {
      GoodOrder(s, best.value);
      NotBelowHigher(least, s.limits[best.value].price, feed);
      forall o | o in s.limits && BidFor(s.limits[o], m, s.assets[m].bit.value.backing)
        && !Less(least, s.limits[best.value].price)
        ensures !Less(least, s.limits[o].price)
      {
        GoodOrder(s, o);
        if o != best.value {
          BetterBid(least, s.limits[best.value].price, best.value, s.limits[o].price, o);
        }
      }
    }
    assert Uncovered(s, m, c) <==> !Less(least, highest);
    forall d | FirstPosition(s.calls, m, d)
      ensures d == c
    {
      if d != c {
        PrecedesAsymmetric(s.calls[c].callPrice, c, s.calls[d].callPrice, d);
      }
    }
  }

  lemma BetterBid(least: Price, p: Price, i: nat, q: Price, j: nat)
    requires ValidPrice(p) && ValidPrice(q) && Precedes(Inverse(p), i, Inverse(q), j) && !Less(least, p)
    ensures !Less(least, q)
  {
    if least.quote > 0 {
      NotAboveTransitive(q, p, least);
    }
  }
}

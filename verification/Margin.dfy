// Margin positions, settlement requests and global settlement: the invariants they keep.
// Source: libraries/chain/db_market.cpp:46-96, 336-367, 458-535, libraries/chain/asset_evaluator.cpp:457-490.
module Margin {
  import opened Options
  import opened Arithmetic
  import opened Config
  import opened Prices
  import opened Totals
  import opened Ledger
  import opened Book

  // ---------- invariants ----------

  ghost predicate SoundBits(assets: map<nat, Asset>) {
    forall k <- assets :: assets[k].bit.Some? ==>
      var b := assets[k].bit.value;
      && k != CORE && b.backing in assets && b.backing != k
      && b.maxVolumePercent <= HUNDRED_PERCENT && b.offsetPercent <= HUNDRED_PERCENT
      && (b.settled == None ==> b.fund == 0)
      && (b.feed.Some? ==> ValidPrice(b.feed.value.price) && ValidPrice(b.feed.value.squeeze))
  }

  predicate Open(assets: map<nat, Asset>, m: nat) {
    m in assets && assets[m].bit.Some? && assets[m].bit.value.settled == None
  }

  ghost predicate SoundCalls(calls: map<nat, CallOrder>, assets: map<nat, Asset>) {
    forall i <- calls ::
      var c := calls[i];
      c.debt > 0 && ValidPrice(c.callPrice) && Open(assets, c.debtAsset)
        && assets[c.debtAsset].bit.value.backing == c.collateralAsset
  }

  ghost predicate SoundSettles(settles: map<nat, Settlement>, assets: map<nat, Asset>) {
    forall i <- settles :: settles[i].asset in assets && assets[settles[i].asset].bit.Some?
  }

  ghost predicate SoundState(s: State) {
    && Sound(s.limits, s.assets) && FeesBounded(s.assets) && SoundBits(s.assets)
    && SoundCalls(s.calls, s.assets) && SoundSettles(s.settles, s.assets)
  }

  // Debt not matched by supply.
  ghost function Gap(s: State, m: nat): int {
    Debt(s, m) - Supply(s, m)
  }

  // Until global settlement the debt of all positions in an asset is its supply.
  ghost predicate DebtIsSupply(s: State) {
    forall m :: Open(s.assets, m) ==> Gap(s, m) == 0
  }

  // A settlement fund covers what is left of the supply at the settlement price.
  ghost predicate SolventAsset(a: Asset) {
    a.bit.Some? && a.bit.value.settled.Some? ==>
      && a.bit.value.fund * a.bit.value.settled.value.base >= a.supply * a.bit.value.settled.value.quote
      && a.supply <= a.bit.value.settled.value.base
  }

  ghost predicate Solvent(s: State) {
    forall m <- s.assets :: SolventAsset(s.assets[m])
  }

  // ---------- what a completed market step keeps ----------

  ghost predicate Conserves(s: State, t: State) {
    forall a :: Surplus(t, a) == Surplus(s, a)
  }

  ghost predicate Moves(s: State, t: State) {
    && Conserves(s, t)
    && (forall m :: Open(t.assets, m) ==> Open(s.assets, m) && Gap(t, m) == Gap(s, m))
    && (Solvent(s) ==> Solvent(t))
  }

  lemma MovesTransitive(s: State, t: State, u: State)
    requires Moves(s, t) && Moves(t, u)
    ensures Moves(s, u)
  {
    hide Surplus, Gap;
  }

  lemma MovesKeepsDebtIsSupply(s: State, t: State)
    requires Moves(s, t) && DebtIsSupply(s)
    ensures DebtIsSupply(t)
  {
    hide Surplus, Gap, Solvent;
  }

  ghost predicate SameBits(x: map<nat, Asset>, y: map<nat, Asset>) {
    x.Keys == y.Keys && forall k <- x :: y[k].bit == x[k].bit && y[k].feePercent == x[k].feePercent
  }

  lemma SameBitsKeepsSound(s: State, t: State)
    requires SoundState(s) && SameBits(s.assets, t.assets)
    requires Sound(t.limits, s.assets) && SoundCalls(t.calls, s.assets) && SoundSettles(t.settles, s.assets)
    ensures SoundState(t)
  {
  }

  // Steps within which no asset is settled and settled assets keep their supply.
  ghost predicate Quiet(s: State, t: State) {
    && Conserves(s, t)
    && (forall m :: Gap(t, m) == Gap(s, m))
    && SameBits(s.assets, t.assets)
    && forall m <- s.assets :: s.assets[m].bit.Some? && s.assets[m].bit.value.settled.Some? ==>
      t.assets[m].supply == s.assets[m].supply
  }

  lemma QuietMoves(s: State, t: State)
    requires Quiet(s, t)
    ensures Moves(s, t)
  {
    hide Surplus, Gap;
  }

  // ---------- a margin call ----------

  // The position `c` buys `usd` of its debt from order `o` for `core` of its collateral.
  function MarginFill(s: State, c: nat, o: nat, usd: nat, core: nat): Option<(State, bool)>
    requires c in s.calls && o in s.limits && usd <= s.calls[c].debt && usd <= s.limits[o].forSale
    requires s.calls[c].debtAsset in s.assets && s.limits[o].wants in s.assets && FeesBounded(s.assets)
  {
    match FillCall(s, c, core, usd)
    case None => None
    case Some(t) =>
      FillCallAssets(s, c, core, usd);
      FillLimit(t, o, usd, core, true)
  }

  lemma FillCallAssets(s: State, c: nat, pays: nat, receives: nat)
    requires c in s.calls && receives <= s.calls[c].debt && s.calls[c].debtAsset in s.assets
    requires FillCall(s, c, pays, receives).Some?
    ensures var t := FillCall(s, c, pays, receives).value;
            var d := s.calls[c].debtAsset;
            && t.assets == s.assets[d := s.assets[d].(supply := s.assets[d].supply - receives)]
            && t.limits == s.limits && t.settles == s.settles
            && SameBits(s.assets, t.assets)
            && (receives == s.calls[c].debt ==> t.calls == s.calls - {c})
            && (receives < s.calls[c].debt ==>
                  t.calls == s.calls[c := s.calls[c].(debt := s.calls[c].debt - receives,
                    collateral := s.calls[c].collateral - pays)])
  {
  }

  lemma FeesKeepBits(x: map<nat, Asset>, y: map<nat, Asset>)
    requires SameAssetsButFees(x, y)
    ensures SameBits(x, y)
  {
  }

  lemma MarginFillQuiet(s: State, c: nat, o: nat, usd: nat, core: nat)
    requires SoundState(s) && c in s.calls && o in s.limits && usd <= s.calls[c].debt && usd <= s.limits[o].forSale
    requires s.limits[o].sells == s.calls[c].debtAsset && s.limits[o].wants == s.calls[c].collateralAsset
    requires MarginFill(s, c, o, usd, core).Some?
    ensures Quiet(s, MarginFill(s, c, o, usd, core).value.0)
  {
    hide FillCall, FillLimit, Surplus, Supply, Debt, SameAssetsButFees;
    var t := FillCall(s, c, core, usd).value;
    FillCallAssets(s, c, core, usd);
    FillLimitBook(t, o, usd, core, true);
    var u := FillLimit(t, o, usd, core, true).value.0;
    FeesKeepBits(t.assets, u.assets);
    FeesKeepSupplies(t.assets, u.assets);
    forall a
      ensures Surplus(u, a) == Surplus(s, a) && Gap(u, a) == Gap(s, a)
    {
      MarginFillTotals(s, c, o, usd, core, a);
    }
  }

  lemma MarginFillTotals(s: State, c: nat, o: nat, usd: nat, core: nat, a: nat)
    requires SoundState(s) && c in s.calls && o in s.limits && usd <= s.calls[c].debt && usd <= s.limits[o].forSale
    requires s.limits[o].sells == s.calls[c].debtAsset && s.limits[o].wants == s.calls[c].collateralAsset
    requires MarginFill(s, c, o, usd, core).Some?
    ensures var u := MarginFill(s, c, o, usd, core).value.0; Surplus(u, a) == Surplus(s, a) && Gap(u, a) == Gap(s, a)
  {
    hide FillCall, FillLimit, Surplus, Supply, Debt;
    var t := FillCall(s, c, core, usd).value;
    FillCallAssets(s, c, core, usd);
    FillCallEffect(s, c, core, usd, a);
    FillLimitEffect(t, o, usd, core, true, a);
    DebtOfCalls(t, FillLimit(t, o, usd, core, true).value.0, a);
  }

  lemma FeesKeepSupplies(x: map<nat, Asset>, y: map<nat, Asset>)
    requires SameAssetsButFees(x, y)
    ensures forall k <- x :: y[k].supply == x[k].supply
  {
  }

  lemma DebtOfCalls(s: State, t: State, a: nat)
    requires s.calls == t.calls
    ensures Debt(s, a) == Debt(t, a)
  {
  }

  lemma FillCallSound(s: State, c: nat, pays: nat, receives: nat)
    requires SoundState(s) && c in s.calls && receives <= s.calls[c].debt && FillCall(s, c, pays, receives).Some?
    ensures SoundState(FillCall(s, c, pays, receives).value)
  {
    hide FillCall;
    FillCallAssets(s, c, pays, receives);
    SameBitsKeepsSound(s, FillCall(s, c, pays, receives).value);
  }

  lemma FillLimitSound(s: State, o: nat, pays: nat, receives: nat, cull: bool)
    requires SoundState(s) && o in s.limits && pays <= s.limits[o].forSale
             && FillLimit(s, o, pays, receives, cull).Some?
    ensures SoundState(FillLimit(s, o, pays, receives, cull).value.0)
  {
    hide FillLimit, SoundBits, SoundCalls, SoundSettles, SameAssetsButFees;
    FillLimitBook(s, o, pays, receives, cull);
    FillLimitEffect(s, o, pays, receives, cull, CORE);
    var t := FillLimit(s, o, pays, receives, cull).value.0;
    FeesKeepBits(s.assets, t.assets);
    SameBitsKeepsSound(s, t);
  }

  // ---------- a forced settlement ----------

  // The position `c` buys `usd` of its debt back from request `q` for `core` of its collateral.
  function SettleFill(s: State, c: nat, q: nat, usd: nat, core: nat): Option<State>
    requires c in s.calls && q in s.settles && usd <= s.calls[c].debt && usd <= s.settles[q].balance
    requires s.calls[c].debtAsset in s.assets && s.calls[c].collateralAsset in s.assets && FeesBounded(s.assets)
  {
    match FillCall(s, c, core, usd)
    case None => None
    case Some(t) =>
      FillCallAssets(s, c, core, usd);
      Some(FillSettle(t, q, usd, s.calls[c].collateralAsset, core))
  }

  lemma FillSettleAssets(s: State, id: nat, pays: nat, paidIn: nat, receives: nat)
    requires id in s.settles && pays <= s.settles[id].balance && paidIn in s.assets && FeesBounded(s.assets)
    ensures var t := FillSettle(s, id, pays, paidIn, receives);
            var q := s.settles[id];
            && SameAssetsButFees(s.assets, t.assets) && t.limits == s.limits && t.calls == s.calls
            && t.settles == if pays < q.balance then s.settles[id := q.(balance := q.balance - pays)]
              else s.settles - {id}
  {
    hide MarketFee, Credit, Surplus;
    var q := s.settles[id];
    MarketFeeAtMostAmount(s.assets[paidIn], receives);
    var fee := MarketFee(s.assets[paidIn], receives);
    var u := if pays < q.balance
             then AddFees(s, paidIn, fee).(settles := s.settles[id := q.(balance := q.balance - pays)])
             else AddFees(s, paidIn, fee).(settles := s.settles - {id});
    CreditEffect(u, q.owner, paidIn, receives - fee, paidIn);
  }

  lemma SettleFillQuiet(s: State, c: nat, q: nat, usd: nat, core: nat)
    requires SoundState(s) && c in s.calls && q in s.settles && usd <= s.calls[c].debt && usd <= s.settles[q].balance
    requires s.settles[q].asset == s.calls[c].debtAsset
    requires SettleFill(s, c, q, usd, core).Some?
    ensures Quiet(s, SettleFill(s, c, q, usd, core).value)
    ensures SoundState(SettleFill(s, c, q, usd, core).value)
  {
    hide FillCall, FillSettle, Surplus, Supply, Debt, SameAssetsButFees;
    var t := FillCall(s, c, core, usd).value;
    var paidIn := s.calls[c].collateralAsset;
    FillCallAssets(s, c, core, usd);
    FillCallSound(s, c, core, usd);
    FillSettleAssets(t, q, usd, paidIn, core);
    var u := FillSettle(t, q, usd, paidIn, core);
    FeesKeepBits(t.assets, u.assets);
    FeesKeepSupplies(t.assets, u.assets);
    SameBitsKeepsSound(t, u);
    forall a
      ensures Surplus(u, a) == Surplus(s, a) && Gap(u, a) == Gap(s, a)
    {
      SettleFillTotals(s, c, q, usd, core, a);
    }
  }

  lemma SettleFillTotals(s: State, c: nat, q: nat, usd: nat, core: nat, a: nat)
    requires SoundState(s) && c in s.calls && q in s.settles && usd <= s.calls[c].debt && usd <= s.settles[q].balance
    requires s.settles[q].asset == s.calls[c].debtAsset
    requires SettleFill(s, c, q, usd, core).Some?
    ensures var u := SettleFill(s, c, q, usd, core).value; Surplus(u, a) == Surplus(s, a) && Gap(u, a) == Gap(s, a)
  {
    hide FillCall, FillSettle, Surplus, Supply, Debt;
    var t := FillCall(s, c, core, usd).value;
    var paidIn := s.calls[c].collateralAsset;
    FillCallAssets(s, c, core, usd);
    FillCallEffect(s, c, core, usd, a);
    FillSettleEffect(t, q, usd, paidIn, core, a);
    DebtOfCalls(t, FillSettle(t, q, usd, paidIn, core), a);
  }

  // There is a position to settle against as long as there is supply.
  lemma SupplyHasPosition(s: State, m: nat) returns (c: nat)
    requires SoundState(s) && Open(s.assets, m) && DebtIsSupply(s) && Supply(s, m) > 0
    ensures c in s.calls && s.calls[c].debtAsset == m
  {
    assert Gap(s, m) == 0;
    c := PositiveTotalHasEntry(s.calls, DebtIn(m));
  }

  // What one holder has is part of the supply, if no more is held than was issued.
  lemma HoldingWithinSupply(s: State, who: nat, m: nat)
    requires Surplus(s, m) <= 0
    ensures BalanceOf(s, who, m) <= Supply(s, m)
    ensures forall q <- s.settles :: s.settles[q].asset == m ==> s.settles[q].balance <= Supply(s, m)
  {
    PartAtMostTotal<(nat, nat), nat>(s.balances, (who, m), BalanceIn(m));
    TotalNonNegative(s.limits, SaleIn(m));
    TotalNonNegative(s.limits, DeferredIn(m));
    TotalNonNegative(s.calls, CollateralIn(m));
    TotalNonNegative(s.settles, SettlingIn(m));
    forall k | k in s.assets
      ensures KeptBy(m)(k, s.assets[k]) >= 0
    {
      assert s.assets[k].bit.Some? ==> s.assets[k].bit.value.fund >= 0;
    }
    TotalNonNegative(s.assets, KeptBy(m));
    TotalNonNegative<(nat, nat), nat>(s.balances, BalanceIn(m));
    forall q | q in s.settles && s.settles[q].asset == m
      ensures s.settles[q].balance <= Supply(s, m)
    {
      PartAtMostTotal(s.settles, q, SettlingIn(m));
    }
  }

  // ---------- after a global settlement ----------

  // A holder turns `amount` of a settled asset in for its share of the fund. None is a failed check.
  function SettleFromFund(s: State, who: nat, m: nat, amount: nat): Option<State>
    requires m in s.assets && s.assets[m].bit.Some? && s.assets[m].bit.value.settled.Some?
  {
    var b := s.assets[m].bit.value;
    match Debit(s, who, m, amount)
    case None => None
    case Some(t) =>
      match ToQuote(amount, b.settled.value)
      case None => None
      case Some(share) =>
        if share > b.fund then None
        else
          var u := t.(assets := t.assets[m := t.assets[m].(bit := Some(b.(fund := b.fund - share)))]);
          Some(AddSupply(Credit(u, who, b.backing, share), m, -(amount as int)))
  }

  // The share never exceeds the fund, for an amount that is part of the remaining supply.
  lemma ShareWithinFund(amount: nat, fund: nat, supply: int, p: Price)
    requires p.base > 0 && amount <= supply && fund * p.base >= supply * p.quote
    ensures amount * p.quote / p.base <= fund
    ensures (fund - amount * p.quote / p.base) * p.base >= (supply - amount) * p.quote
  {
    FloorBounds(amount, p.quote, p.base);
    var share := amount * p.quote / p.base;
    assert amount * p.quote <= supply * p.quote;
    CancelFactor(share, fund, p.base);
    assert (fund - share) * p.base == fund * p.base - share * p.base;
    assert (supply - amount) * p.quote == supply * p.quote - amount * p.quote;
  }

  // Paying out of a settlement fund never falls short: whoever holds the amount is paid.
  lemma FundNeverShort(s: State, who: nat, m: nat, amount: nat)
    requires Solvent(s) && m in s.assets && s.assets[m].bit.Some? && s.assets[m].bit.value.settled.Some?
    requires Surplus(s, m) <= 0 && 0 < amount <= BalanceOf(s, who, m) && s.assets[m].bit.value.fund <= MAX_SHARE_SUPPLY
    ensures SettleFromFund(s, who, m, amount).Some?
  {
    hide Surplus, Supply, Credit, AddSupply;
    HoldingWithinSupply(s, who, m);
    assert SolventAsset(s.assets[m]);
    SupplyOf(s, m);
    ShareWithinFund(amount, s.assets[m].bit.value.fund, s.assets[m].supply, s.assets[m].bit.value.settled.value);
  }

  lemma SupplyOf(s: State, m: nat)
    requires m in s.assets
    ensures Supply(s, m) == s.assets[m].supply
  {
  }

  lemma SetFundEffect(s: State, m: nat, b: BitAsset, a: nat)
    requires m in s.assets && s.assets[m].bit.Some? && b.backing == s.assets[m].bit.value.backing
    ensures var t := s.(assets := s.assets[m := s.assets[m].(bit := Some(b))]);
            && Surplus(t, a) == Surplus(s, a) + (if a == b.backing then b.fund - s.assets[m].bit.value.fund else 0)
            && Supply(t, a) == Supply(s, a)
  {
    TotalUpdate(s.assets, m, s.assets[m].(bit := Some(b)), KeptBy(a));
  }

  // Paying out conserves everything and keeps the fund solvent.
  lemma SettleFromFundMoves(s: State, who: nat, m: nat, amount: nat)
    requires SoundState(s) && Solvent(s) && Surplus(s, m) <= 0
    requires m in s.assets && s.assets[m].bit.Some? && s.assets[m].bit.value.settled.Some?
    requires SettleFromFund(s, who, m, amount).Some?
    ensures SoundState(SettleFromFund(s, who, m, amount).value)
    ensures Moves(s, SettleFromFund(s, who, m, amount).value)
  {
    hide Surplus, Supply, Debit, Credit, AddSupply, SoundState, Debt;
    var b := s.assets[m].bit.value;
    var p := b.settled.value;
    var share := ToQuote(amount, p).value;
    var r := SettleFromFund(s, who, m, amount).value;
    DebitSome(s, who, m, amount);
    HoldingWithinSupply(s, who, m);
    SupplyOf(s, m);
    assert SolventAsset(s.assets[m]);
    ShareWithinFund(amount, b.fund, s.assets[m].supply, p);
    var t := Debit(s, who, m, amount).value;
    DebitEffect(s, who, m, amount, m);
    var b' := b.(fund := b.fund - share);
    var u := t.(assets := t.assets[m := t.assets[m].(bit := Some(b'))]);
    var v := Credit(u, who, b.backing, share);
    CreditEffect(u, who, b.backing, share, m);
    forall a
      ensures Surplus(r, a) == Surplus(s, a)
      ensures Supply(r, a) == Supply(s, a) + (if a == m then -(amount as int) else 0)
    {
      DebitEffect(s, who, m, amount, a);
      SetFundEffect(t, m, b', a);
      CreditEffect(u, who, b.backing, share, a);
      AddSupplyEffect(v, m, -(amount as int), a);
      BalancesKeepSupply(s, t.balances, a);
      BalancesKeepSupply(u, v.balances, a);
    }
    SettledAssets(s, t, u, v, r, m, b', amount);
    forall a | Open(r.assets, a)
      ensures Open(s.assets, a) && Gap(r, a) == Gap(s, a)
    {
      DebtOfCalls(s, r, a);
    }
    SettledSound(s, r, m, b', amount);
  }

  lemma DebitSome(s: State, who: nat, m: nat, amount: nat)
    requires Debit(s, who, m, amount).Some?
    ensures amount <= BalanceOf(s, who, m)
  {
  }

  lemma BalancesKeepSupply(s: State, balances: map<(nat, nat), nat>, a: nat)
    ensures Supply(s.(balances := balances), a) == Supply(s, a)
  {
  }

  lemma SettledAssets(s: State, t: State, u: State, v: State, r: State, m: nat, b': BitAsset, amount: nat)
    requires m in s.assets && t == s.(balances := t.balances)
    requires u == t.(assets := t.assets[m := t.assets[m].(bit := Some(b'))]) && v == u.(balances := v.balances)
    requires r == AddSupply(v, m, -(amount as int))
    ensures r.assets == s.assets[m := s.assets[m].(bit := Some(b'), supply := s.assets[m].supply - amount)]
    ensures r == s.(balances := r.balances, assets := r.assets)
  {
  }

  lemma SettledSound(s: State, r: State, m: nat, b': BitAsset, amount: nat)
    requires SoundState(s) && m in s.assets && s.assets[m].bit.Some? && s.assets[m].bit.value.settled.Some?
    requires b' == s.assets[m].bit.value.(fund := b'.fund)
    requires r.assets == s.assets[m := s.assets[m].(bit := Some(b'), supply := s.assets[m].supply - amount)]
    requires r == s.(balances := r.balances, assets := r.assets)
    ensures SoundState(r)
  {
  }

  // ---------- settling globally ----------

  // Closing a position at the settlement price takes what the debt is worth, at most all the collateral.
  function SwanPays(c: CallOrder, p: Price): Option<nat> {
    match ToQuote(c.debt, p)
    case None => None
    case Some(x) => Some(if x > c.collateral then c.collateral else x)
  }

  // What closing takes, in numbers: the whole part of what the debt is worth, or all the collateral if that is less.
  ghost predicate IsTaken(c: CallOrder, p: Price, x: nat) {
    && x <= c.collateral && x * p.base <= c.debt * p.quote
    && (x == c.collateral || c.debt * p.quote < (x + 1) * p.base)
  }

  lemma SwanPaysIff(c: CallOrder, p: Price, x: nat)
    ensures SwanPays(c, p).Some? <==> p.base > 0 && c.debt * p.quote < (MAX_SHARE_SUPPLY + 1) * p.base
    ensures SwanPays(c, p).Some? ==> (SwanPays(c, p).value == x <==> IsTaken(c, p, x))
  {
    if p.base > 0 {
      var worth := c.debt * p.quote / p.base;
      FloorIff(c.debt * p.quote, p.base, worth);
      LimitOfWorth(c.debt * p.quote, p.base);
      if IsTaken(c, p, x) {
        LessFactor(x, worth + 1, p.base);
        if x < c.collateral {
          FloorIff(c.debt * p.quote, p.base, x);
        }
      } else if SwanPays(c, p) == Some(x) {
        MulMonotone(x, worth, p.base);
      }
    }
  }

  lemma LimitOfWorth(n: nat, d: nat)
    requires d > 0
    ensures n / d <= MAX_SHARE_SUPPLY <==> n < (MAX_SHARE_SUPPLY + 1) * d
  {
    FloorIff(n, d, n / d);
    if n / d <= MAX_SHARE_SUPPLY {
      MulMonotone(n / d + 1, MAX_SHARE_SUPPLY + 1, d);
    } else {
      MulMonotone(MAX_SHARE_SUPPLY + 1, n / d, d);
    }
  }

  // All positions of `m` have been closed and the collateral gathered becomes the fund.
  function FinishGlobalSettlement(s: State, m: nat, gathered: nat, supply: int): State
    requires m in s.assets && s.assets[m].bit.Some? && supply >= 0
  {
    var b := s.assets[m].bit.value;
    s.(assets := s.assets[m := s.assets[m].(supply := supply,
                                            bit := Some(b.(fund := gathered,
                                              settled := Some(Price(supply, gathered)))))])
  }

  lemma FinishEffect(s: State, m: nat, gathered: nat, supply: int, a: nat)
    requires m in s.assets && s.assets[m].bit.Some? && supply >= 0 && s.assets[m].bit.value.fund == 0
    ensures var t := FinishGlobalSettlement(s, m, gathered, supply);
            && Surplus(t, a) == Surplus(s, a) + (if a == s.assets[m].bit.value.backing then gathered else 0)
                                - (if a == m then supply - s.assets[m].supply else 0)
            && Supply(t, a) == if a == m then supply else Supply(s, a)
  {
    var b := s.assets[m].bit.value;
    TotalUpdate(s.assets, m, s.assets[m].(supply := supply,
      bit := Some(b.(fund := gathered, settled := Some(Price(supply, gathered))))),
                KeptBy(a));
  }
}

// What the set of resting limit orders looks like, and how trading changes it.
// Source: libraries/chain/db_market.cpp:174-278.
module Book {
  import opened Options
  import opened Config
  import opened Prices
  import opened Ledger

  // Opposite orders of one market.
  predicate Opposite(x: LimitOrder, y: LimitOrder) {
    x.sells == y.wants && x.wants == y.sells
  }

  predicate Meets(x: LimitOrder, y: LimitOrder) {
    Opposite(x, y) && Crosses(x.price, y.price)
  }

  // No two opposite orders have prices that meet.
  ghost predicate Uncrossed(limits: map<nat, LimitOrder>) {
    forall i, j :: i in limits && j in limits ==> !Meets(limits[i], limits[j])
  }

  // Every resting order would still receive something for what it has left.
  ghost predicate DustFree(limits: map<nat, LimitOrder>) {
    forall i <- limits :: !IsDust(limits[i].forSale, limits[i].price)
  }

  ghost predicate Sound(limits: map<nat, LimitOrder>, assets: map<nat, Asset>) {
    forall i <- limits ::
      var o := limits[i];
      ValidPrice(o.price) && o.forSale > 0 && o.sells != o.wants && o.sells in assets && o.wants in assets
  }

  // `o'` is what is left of `o` after some fills.
  ghost predicate Remainder(o: LimitOrder, o': LimitOrder) {
    o'.forSale <= o.forSale && o' == o.(forSale := o'.forSale, deferredFee := o'.deferredFee)
  }

  // Orders only left the book or were partly filled; what a fill left, except of order `taker`, is not dust.
  ghost predicate Shrinks(before: map<nat, LimitOrder>, after: map<nat, LimitOrder>, taker: Option<nat>) {
    && after.Keys <= before.Keys
    && forall i <- after ::
         && Remainder(before[i], after[i]) && (before[i].forSale > 0 ==> after[i].forSale > 0)
         && (after[i] == before[i] || Some(i) == taker || !IsDust(after[i].forSale, after[i].price))
  }

  lemma ShrinksTransitive(x: map<nat, LimitOrder>, y: map<nat, LimitOrder>, z: map<nat, LimitOrder>, taker: Option<nat>)
    requires Shrinks(x, y, taker) && Shrinks(y, z, taker)
    ensures Shrinks(x, z, taker)
  {
  }

  lemma ShrinksWeaken(x: map<nat, LimitOrder>, y: map<nat, LimitOrder>, taker: Option<nat>)
    requires Shrinks(x, y, None)
    ensures Shrinks(x, y, taker)
  {
  }

  lemma ShrinkingKeepsBook(x: map<nat, LimitOrder>, y: map<nat, LimitOrder>, assets: map<nat, Asset>)
    requires Shrinks(x, y, None)
    ensures Uncrossed(x) ==> Uncrossed(y)
    ensures DustFree(x) ==> DustFree(y)
    ensures Sound(x, assets) ==> Sound(y, assets)
  {
  }

  lemma PayProceedsAssets(s: State, o: LimitOrder, receives: nat)
    requires o.wants in s.assets && s.assets[o.wants].feePercent <= HUNDRED_PERCENT
    requires PayProceeds(s, o, receives).Some?
    ensures SameAssetsButFees(s.assets, PayProceeds(s, o, receives).value.assets)
    ensures PayProceeds(s, o, receives).value.limits == s.limits
  {
    hide MarketFee;
  }

  // Only accumulated fees differ.
  ghost predicate SameAssetsButFees(x: map<nat, Asset>, y: map<nat, Asset>) {
    x.Keys == y.Keys && forall k <- x :: y[k] == x[k].(fees := y[k].fees)
  }

  lemma CancelLimitBook(s: State, id: nat)
    requires id in s.limits
    ensures CancelLimit(s, id).limits == s.limits - {id} && CancelLimit(s, id).assets == s.assets
  {
  }

  // What one fill does to the book.
  lemma FillLimitBook(s: State, id: nat, pays: nat, receives: nat, cull: bool)
    requires id in s.limits && pays <= s.limits[id].forSale && ValidPrice(s.limits[id].price)
    requires s.limits[id].wants in s.assets && s.assets[s.limits[id].wants].feePercent <= HUNDRED_PERCENT
    requires FillLimit(s, id, pays, receives, cull).Some?
    ensures var t, filled := FillLimit(s, id, pays, receives, cull).value.0,
            FillLimit(s, id, pays, receives, cull).value.1;
            var o := s.limits[id];
            && (filled ==> t.limits == s.limits - {id})
            && (!filled ==>
                 pays < o.forSale && t.limits == s.limits[id := o.(forSale := o.forSale - pays, deferredFee := 0)])
            && (pays == o.forSale ==> filled)
            && (!filled && cull ==> !IsDust(o.forSale - pays, o.price))
            && SameAssetsButFees(s.assets, t.assets)
  {
    hide PayProceeds, CancelLimit, IsDust, SameAssetsButFees;
    var o := s.limits[id];
    PayProceedsAssets(s, o, receives);
    if pays < o.forSale {
      DustBuysNothing(o.forSale - pays, o.price);
      var t := PayProceeds(s, o, receives).value;
      var u := t.(limits := t.limits[id := o.(forSale := o.forSale - pays, deferredFee := 0)]);
      CancelLimitBook(u, id);
      assert u.limits - {id} == s.limits - {id};
    }
  }

  lemma FillShrinks(s: State, id: nat, pays: nat, receives: nat, cull: bool)
    requires id in s.limits && pays <= s.limits[id].forSale && ValidPrice(s.limits[id].price)
    requires s.limits[id].wants in s.assets && s.assets[s.limits[id].wants].feePercent <= HUNDRED_PERCENT
    requires FillLimit(s, id, pays, receives, cull).Some?
    ensures Shrinks(s.limits, FillLimit(s, id, pays, receives, cull).value.0.limits, if cull then None else Some(id))
  {
    hide FillLimit, IsDust;
    FillLimitBook(s, id, pays, receives, cull);
  }

  // ---------- one match of two limit orders ----------

  // Both orders trade at the maker's price. None is a failed check. The flags say which order is gone.
  function MatchLimits(s: State, taker: nat, maker: nat): Option<(State, bool, bool)>
    requires taker in s.limits && maker in s.limits && taker != maker
    requires Sound(s.limits, s.assets) && FeesBounded(s.assets)
  {
    var x, y := s.limits[taker], s.limits[maker];
    match Match(x.forSale, y.forSale, y.price)
    case None => None
    case Some(trade) =>
      MatchConsumes(x.forSale, y.forSale, y.price);
      match FillLimit(s, taker, trade.takerPays, trade.makerPays, false)
      case None => None
      case Some(first) =>
        FillLimitBook(s, taker, trade.takerPays, trade.makerPays, false);
        match FillLimit(first.0, maker, trade.makerPays, trade.takerPays, true)
        case None => None
        case Some(second) => Some((second.0, first.1, second.1))
  }

  ghost predicate FeesBounded(assets: map<nat, Asset>) {
    forall k <- assets :: assets[k].feePercent <= HUNDRED_PERCENT
  }

  // A match is conserving, and the maker is gone whenever the taker is not.
  lemma MatchLimitsEffect(s: State, taker: nat, maker: nat, a: nat)
    requires taker in s.limits && maker in s.limits && taker != maker && Opposite(s.limits[taker], s.limits[maker])
    requires Sound(s.limits, s.assets) && FeesBounded(s.assets) && MatchLimits(s, taker, maker).Some?
    ensures var t := MatchLimits(s, taker, maker).value.0;
            && Surplus(t, a) == Surplus(s, a) && t.calls == s.calls && t.settles == s.settles
              && Supply(t, a) == Supply(s, a)
  {
    hide FillLimit, Surplus, Supply, Match;
    var x, y := s.limits[taker], s.limits[maker];
    var trade := Match(x.forSale, y.forSale, y.price).value;
    MatchConsumes(x.forSale, y.forSale, y.price);
    FillLimitBook(s, taker, trade.takerPays, trade.makerPays, false);
    FillLimitEffect(s, taker, trade.takerPays, trade.makerPays, false, a);
    var t := FillLimit(s, taker, trade.takerPays, trade.makerPays, false).value.0;
    FillLimitEffect(t, maker, trade.makerPays, trade.takerPays, true, a);
  }

  lemma MatchLimitsBook(s: State, taker: nat, maker: nat)
    requires taker in s.limits && maker in s.limits && taker != maker
    requires Sound(s.limits, s.assets) && FeesBounded(s.assets) && MatchLimits(s, taker, maker).Some?
    ensures var r := MatchLimits(s, taker, maker).value;
            && (r.1 <==> taker !in r.0.limits) && (r.2 <==> maker !in r.0.limits)
            && (r.1 || r.2)
            && (forall i :: i in s.limits && i != taker && i != maker ==>
                  i in r.0.limits && r.0.limits[i] == s.limits[i])
            && SameAssetsButFees(s.assets, r.0.assets)
  {
    hide FillLimit, Match, IsDust;
    var x, y := s.limits[taker], s.limits[maker];
    var trade := Match(x.forSale, y.forSale, y.price).value;
    MatchConsumes(x.forSale, y.forSale, y.price);
    FillLimitBook(s, taker, trade.takerPays, trade.makerPays, false);
    var t := FillLimit(s, taker, trade.takerPays, trade.makerPays, false).value.0;
    FillLimitBook(t, maker, trade.makerPays, trade.takerPays, true);
  }

  lemma MatchLimitsShrinks(s: State, taker: nat, maker: nat)
    requires taker in s.limits && maker in s.limits && taker != maker
    requires Sound(s.limits, s.assets) && FeesBounded(s.assets) && MatchLimits(s, taker, maker).Some?
    ensures Shrinks(s.limits, MatchLimits(s, taker, maker).value.0.limits, Some(taker))
  {
    hide FillLimit, Match, IsDust, Shrinks;
    var x, y := s.limits[taker], s.limits[maker];
    var trade := Match(x.forSale, y.forSale, y.price).value;
    MatchConsumes(x.forSale, y.forSale, y.price);
    FillLimitBook(s, taker, trade.takerPays, trade.makerPays, false);
    FillShrinks(s, taker, trade.takerPays, trade.makerPays, false);
    var t := FillLimit(s, taker, trade.takerPays, trade.makerPays, false).value.0;
    FillShrinks(t, maker, trade.makerPays, trade.takerPays, true);
    ShrinksWeaken(t.limits, FillLimit(t, maker, trade.makerPays, trade.takerPays, true).value.0.limits, Some(taker));
    ShrinksTransitive(s.limits, t.limits, FillLimit(t, maker, trade.makerPays, trade.takerPays, true).value.0.limits,
      Some(taker));
  }
}

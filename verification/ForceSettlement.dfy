// Working off the force-settlement requests that have come due.
// Source: libraries/chain/db_update.cpp:287-424, libraries/chain/asset_object.cpp:33-44.
module ForceSettlement {
  import opened Options
  import opened Arithmetic
  import opened Config
  import opened Prices
  import opened Totals
  import opened Ordering
  import opened Ledger
  import opened Book
  import opened Margin
  import opened Trading
  import opened Calls
  import opened Markets
  import opened Operations

  // ---------- how much may be settled in one interval ----------

  function VolumeLimit(all: int, percent: nat): int {
    if percent == 0 then 0
    else if percent == HUNDRED_PERCENT then all
    else all * percent / HUNDRED_PERCENT
  }

  // The share is taken of what was outstanding when the interval began.
  function MaxVolume(a: Asset): int
    requires a.bit.Some?
  {
    VolumeLimit(a.supply + a.bit.value.settledVolume, a.bit.value.maxVolumePercent)
  }

  lemma VolumeWithin(all: int, percent: nat)
    requires all >= 0 && percent <= HUNDRED_PERCENT
    ensures 0 <= VolumeLimit(all, percent) <= all
  {
    if 0 < percent < HUNDRED_PERCENT {
      FloorBounds(all, percent, HUNDRED_PERCENT);
      assert all * percent <= all * HUNDRED_PERCENT;
      CancelFactor(all * percent / HUNDRED_PERCENT, all, HUNDRED_PERCENT);
    }
  }

  // The limit is the whole part of the percentage.
  lemma VolumeLimitIff(all: int, percent: nat, limit: int)
    requires all >= 0 && percent <= HUNDRED_PERCENT && limit >= 0
    ensures limit == VolumeLimit(all, percent) <==>
            limit * HUNDRED_PERCENT <= all * percent < (limit + 1) * HUNDRED_PERCENT
  {
    FloorIff(all * percent, HUNDRED_PERCENT, limit);
    if percent == HUNDRED_PERCENT {
      DivExact(all, HUNDRED_PERCENT);
    }
  }

  // While the limit is not reached there is supply left, so there is a position to settle against.
  lemma RoomMeansSupply(s: State, m: nat, settled: nat)
    requires Good(s) && Open(s.assets, m) && settled < MaxVolume(s.assets[m])
    ensures settled < s.assets[m].supply + s.assets[m].bit.value.settledVolume
    ensures settled == s.assets[m].bit.value.settledVolume ==> s.assets[m].supply > 0
  {
    hide Solvent, DebtIsSupply;
    SupplyNonNegative(s, m);
    VolumeWithin(s.assets[m].supply + s.assets[m].bit.value.settledVolume, s.assets[m].bit.value.maxVolumePercent);
  }

  // ---------- what settling does to an asset ----------

  // Only the settled volume moves, in step with the supply, and never past the limit.
  ghost predicate WithinVolume(x: Asset, y: Asset) {
    && (x.bit == None <==> y.bit == None)
    && (x.bit.Some? ==>
          && y.bit.value == x.bit.value.(settledVolume := y.bit.value.settledVolume)
          && y.supply + y.bit.value.settledVolume == x.supply + x.bit.value.settledVolume
          && x.bit.value.settledVolume <= y.bit.value.settledVolume
          && (y.bit.value.settledVolume == x.bit.value.settledVolume || y.bit.value.settledVolume <= MaxVolume(x)))
  }

  // In numbers: what is settled is within the percentage of what was outstanding.
  lemma WithinPercentage(x: Asset, y: Asset)
    requires WithinVolume(x, y) && x.bit.Some? && x.supply >= 0 && x.bit.value.maxVolumePercent <= HUNDRED_PERCENT
    ensures y.bit.Some?
    ensures y.bit.value.settledVolume == x.bit.value.settledVolume
            || y.bit.value.settledVolume * HUNDRED_PERCENT
               <= x.bit.value.maxVolumePercent * (x.supply + x.bit.value.settledVolume)
  {
    var all, percent := x.supply + x.bit.value.settledVolume, x.bit.value.maxVolumePercent;
    VolumeWithin(all, percent);
    VolumeLimitIff(all, percent, VolumeLimit(all, percent));
  }

  ghost predicate VolumesKept(x: map<nat, Asset>, y: map<nat, Asset>) {
    x.Keys == y.Keys && forall m <- x :: WithinVolume(x[m], y[m])
  }

  lemma VolumesTransitive(x: map<nat, Asset>, y: map<nat, Asset>, z: map<nat, Asset>)
    requires VolumesKept(x, y) && VolumesKept(y, z)
    ensures VolumesKept(x, z)
  {
  }

  lemma SameVolumes(x: map<nat, Asset>)
    ensures VolumesKept(x, x)
  {
  }

  // ---------- one request ----------

  // `settled` of the request's asset have been settled so far; the volume itself is only written at the end.
  ghost predicate Settling(s: State, t: State, m: nat, settled: nat) {
    && Open(s.assets, m) && Trades(s, t, None) && SameBits(s.assets, t.assets)
    && t.assets[m].supply + settled == s.assets[m].supply + s.assets[m].bit.value.settledVolume
    && s.assets[m].bit.value.settledVolume <= settled
    && forall k <- s.assets :: k != m && s.assets[k].bit.Some? ==> t.assets[k].supply == s.assets[k].supply
  }

  lemma SettlingStart(s: State, m: nat)
    requires Good(s) && Open(s.assets, m)
    ensures Settling(s, s, m, s.assets[m].bit.value.settledVolume)
  {
    hide Trades, Good;
    TradesReflexive(s, None);
  }

  lemma SettlingOpen(s: State, t: State, m: nat, settled: nat)
    requires Settling(s, t, m, settled)
    ensures Good(t) && Open(t.assets, m) && t.settles.Keys <= s.settles.Keys
  {
    hide Good;
  }

  lemma SettlingFill(s: State, t: State, m: nat, settled: nat, c: nat, q: nat, usd: nat, core: nat)
    requires Settling(s, t, m, settled) && c in t.calls && q in t.settles && usd <= t.calls[c].debt
             && usd <= t.settles[q].balance
    requires t.calls[c].debtAsset == m == t.settles[q].asset && m in t.assets
             && t.calls[c].collateralAsset in t.assets && FeesBounded(t.assets)
    requires SettleFill(t, c, q, usd, core).Some?
    ensures var u := SettleFill(t, c, q, usd, core).value;
            && Settling(s, u, m, settled + usd)
            && (usd == t.settles[q].balance ==> u.settles == t.settles - {q})
            && (usd < t.settles[q].balance ==>
              u.settles == t.settles[q := t.settles[q].(balance := t.settles[q].balance - usd)])
  {
    hide Good, Trades, FillCall, FillSettle;
    TradesGood(s, t, None);
    SettleTrades(t, c, q, usd, core);
    var u := SettleFill(t, c, q, usd, core).value;
    TradesTransitive(s, t, u, None);
    FillCallAssets(t, c, core, usd);
    var v := FillCall(t, c, core, usd).value;
    FillSettleAssets(v, q, usd, t.calls[c].collateralAsset, core);
  }

  lemma SettlingCancel(s: State, t: State, m: nat, settled: nat, q: nat)
    requires Settling(s, t, m, settled) && q in t.settles
    ensures Settling(s, CancelSettle(t, q), m, settled) && CancelSettle(t, q).settles == t.settles - {q}
  {
    hide Good, Trades, CancelSettle, Surplus;
    TradesGood(s, t, None);
    CancelSettleTrades(t, q);
    CancelSettleEffect(t, q, CORE);
    TradesTransitive(s, t, CancelSettle(t, q), None);
  }

  function WithVolume(s: State, m: nat, settled: nat): State
    requires m in s.assets && s.assets[m].bit.Some?
  {
    s.(assets := s.assets[m := s.assets[m].(bit := Some(s.assets[m].bit.value.(settledVolume := settled)))])
  }

  // Recording the settled volume moves nothing.
  lemma RecordVolume(s: State, t: State, m: nat, settled: nat)
    requires Settling(s, t, m, settled) && m in t.assets && t.assets[m].bit.Some?
    ensures Trades(s, WithVolume(t, m, settled), None)
  {
    hide Surplus, Supply, Debt, SolventAsset, Shrinks, Moves;
    var u := WithVolume(t, m, settled);
    forall a
      ensures Surplus(u, a) == Surplus(t, a) && Gap(u, a) == Gap(t, a)
    {
      SetFundEffect(t, m, t.assets[m].bit.value.(settledVolume := settled), a);
      DebtOfCalls(t, u, a);
    }
    forall k | k in u.assets
      ensures SolventAsset(u.assets[k])
    {
      FeedKeepsSolvent(t.assets[k], u.assets[k]);
    }
    RecordedSound(t, m, settled);
    MovesFrom(t, u);
    ShrinksReflexive(t.limits);
    TradesFrom(t, u, None);
    TradesTransitive(s, t, u, None);
  }

  lemma RecordedSound(t: State, m: nat, settled: nat)
    requires SoundState(t) && m in t.assets && t.assets[m].bit.Some?
    ensures SoundState(WithVolume(t, m, settled))
  {
  }

  lemma MovesFrom(s: State, t: State)
    requires forall a :: Surplus(t, a) == Surplus(s, a) && Gap(t, a) == Gap(s, a)
    requires forall m :: Open(t.assets, m) ==> Open(s.assets, m)
    requires Solvent(t)
    ensures Moves(s, t)
  {
    hide Surplus, Gap;
  }

  lemma RecordedVolumes(s: State, t: State, m: nat, settled: nat)
    requires Settling(s, t, m, settled) && m in t.assets && t.assets[m].bit.Some?
    requires settled <= MaxVolume(s.assets[m])
    ensures VolumesKept(s.assets, WithVolume(t, m, settled).assets)
  {
    hide Trades;
  }

  // Requests other than `q` are as they were.
  ghost predicate OtherRequestsKept(x: map<nat, Settlement>, y: map<nat, Settlement>, q: nat) {
    && y.Keys <= x.Keys && (q in x && q in y ==> y[q].asset == x[q].asset && y[q].date == x[q].date)
    && forall r <- x :: r != q ==> r in y && y[r] == x[r]
  }

  // Requests other than `q`, and market-issued assets other than its own, are as they were.
  ghost predicate OthersKept(s: State, t: State, q: nat)
    requires q in s.settles
  {
    && OtherRequestsKept(s.settles, t.settles, q)
    && forall k <- s.assets :: k != s.settles[q].asset && s.assets[k].bit.Some? ==>
         k in t.assets && t.assets[k].bit == s.assets[k].bit && t.assets[k].supply == s.assets[k].supply
  }

  lemma RecordedOthers(s: State, t: State, m: nat, settled: nat, q: nat)
    requires Settling(s, t, m, settled) && m in t.assets && t.assets[m].bit.Some? && q in s.settles
             && s.settles[q].asset == m
    requires OtherRequestsKept(s.settles, t.settles, q)
    ensures OthersKept(s, WithVolume(t, m, settled), q)
  {
    hide Trades;
  }

  // ---------- what settling a request consists of ----------

  datatype Part = Part(position: nat, usd: nat, core: nat)

  // The part is settled against the least collateralized position, as much as there is room for, at the price.
  ghost predicate PartRight(s: State, q: nat, room: nat, price: Price, part: Part) {
    && q in s.settles && IsLeastCollateralized(s.calls, s.settles[q].asset, part.position)
    && s.settles[q].asset in s.assets && s.calls[part.position].collateralAsset in s.assets && FeesBounded(s.assets)
    && part.usd == Least(Least(s.settles[q].balance, room), s.calls[part.position].debt)
    && ToQuote(part.usd, price) == Some(part.core) && part.core < s.calls[part.position].collateral
  }

  ghost function PartsRun(s: State, q: nat, price: Price, settled: nat, limit: int,
                          parts: seq<Part>): Option<(State, nat)>
    decreases |parts|
  {
    if parts == [] then Some((s, settled))
    else
      match PartsRun(s, q, price, settled, limit, parts[..|parts| - 1])
      case None => None
      case Some(r) => PartRun(r.0, q, price, r.1, limit, parts[|parts| - 1])
  }

  ghost function PartRun(s: State, q: nat, price: Price, settled: nat, limit: int, part: Part): Option<(State, nat)> {
    if settled < limit && PartRight(s, q, limit - settled, price, part) then
      match SettleFill(s, part.position, q, part.usd, part.core)
      case None => None
      case Some(t) => Some((t, settled + part.usd))
    else None
  }

  lemma PartsNext(s: State, q: nat, price: Price, settled: nat, limit: int, parts: seq<Part>, t: State, now: nat,
                  part: Part)
    requires PartsRun(s, q, price, settled, limit, parts) == Some((t, now))
    ensures PartsRun(s, q, price, settled, limit, parts + [part]) == PartRun(t, q, price, now, limit, part)
  {
    hide PartRun;
    assert (parts + [part])[..|parts|] == parts;
  }

  // The request cannot be served: it asks for nothing, or the position would have to give up all its collateral.
  ghost predicate Unserved(s: State, q: nat, room: nat, price: Price) {
    && q in s.settles
    && (|| s.settles[q].balance == 0
        || exists c :: IsLeastCollateralized(s.calls, s.settles[q].asset, c)
             && var core := ToQuote(Least(Least(s.settles[q].balance, room), s.calls[c].debt), price);
                core.Some? && core.value >= s.calls[c].collateral)
  }

  // The price: what the request's balance is worth at the feed, less the offset.
  ghost predicate OffsetPrice(s: State, q: nat, price: Price)
    requires q in s.settles && Open(s.assets, s.settles[q].asset) && s.assets[s.settles[q].asset].bit.value.feed.Some?
  {
    var bit := s.assets[s.settles[q].asset].bit.value;
    var worth := ToQuote(s.settles[q].balance, bit.feed.value.price);
    worth.Some? && price.base == s.settles[q].balance
    && price.quote == worth.value * (HUNDRED_PERCENT - bit.offsetPercent) / HUNDRED_PERCENT
  }

  // In numbers: the base is the balance, the quote the whole part of the percentage the offset leaves of the whole
  // part of the balance's worth.
  lemma OffsetPriceIff(s: State, q: nat, price: Price, worth: nat)
    requires q in s.settles && Open(s.assets, s.settles[q].asset) && s.assets[s.settles[q].asset].bit.value.feed.Some?
    requires var bit := s.assets[s.settles[q].asset].bit.value;
             var feed := bit.feed.value.price;
             && feed.base > 0 && bit.offsetPercent <= HUNDRED_PERCENT && worth <= MAX_SHARE_SUPPLY
             && worth * feed.base <= s.settles[q].balance * feed.quote < (worth + 1) * feed.base
    ensures var kept := HUNDRED_PERCENT - s.assets[s.settles[q].asset].bit.value.offsetPercent;
            OffsetPrice(s, q, price) <==>
            && price.base == s.settles[q].balance
            && price.quote * HUNDRED_PERCENT <= worth * kept < (price.quote + 1) * HUNDRED_PERCENT
  {
    hide ToQuote;
    var bit := s.assets[s.settles[q].asset].bit.value;
    ToQuoteIff(s.settles[q].balance, bit.feed.value.price, worth);
    FloorIff(worth * (HUNDRED_PERCENT - bit.offsetPercent), HUNDRED_PERCENT, price.quote);
  }

  // Parts are settled until the request is gone, cannot be served, or the volume is used up; then the volume is
  // recorded.
  ghost predicate RequestSettled(s: State, t: State, q: nat, price: Price, parts: seq<Part>, dropped: bool) {
    && q in s.settles && Open(s.assets, s.settles[q].asset) && s.assets[s.settles[q].asset].bit.value.feed.Some?
    && OffsetPrice(s, q, price)
    && var m := s.settles[q].asset;
       var limit := MaxVolume(s.assets[m]);
       var r := PartsRun(s, q, price, s.assets[m].bit.value.settledVolume, limit, parts);
       && r.Some?
       && var u, settled := r.value.0, r.value.1;
          && (if dropped then settled < limit && Unserved(u, q, limit - settled, price)
              else settled >= limit || q !in u.settles)
          && var v := if dropped && q in u.settles then CancelSettle(u, q) else u;
             m in v.assets && v.assets[m].bit.Some? && t == WithVolume(v, m, settled)
  }

  // Settles a request against the least collateralized positions until it is gone or the volume is used up.
  method SettleRequest(db: Market, q: nat)
                       returns (ok: bool, ghost price: Price, ghost parts: seq<Part>, ghost dropped: bool)
    requires Good(db.S()) && q in db.settles && Open(db.assets, db.settles[q].asset)
    requires db.assets[db.settles[q].asset].bit.value.feed.Some?
    requires db.assets[db.settles[q].asset].bit.value.settledVolume < MaxVolume(db.assets[db.settles[q].asset])
    modifies db`balances, db`settles, db`calls, db`assets
    ensures ok ==> Trades(old(db.S()), db.S(), None) && VolumesKept(old(db.assets), db.assets)
    ensures ok ==> OthersKept(old(db.S()), db.S(), q)
    ensures ok ==> RequestSettled(old(db.S()), db.S(), q, price, parts, dropped)
    ensures Collateralized(old(db.calls)) ==>
              && (ok <==> ToQuote(old(db.settles[q]).balance,
                                  old(db.assets[db.settles[q].asset]).bit.value.feed.value.price).Some?)
              && (ok ==> Collateralized(db.calls))
    ensures ok && q in db.settles ==> db.settles[q].balance <= old(db.settles[q]).balance
    ensures ok && q in db.settles ==>
              var m := old(db.settles[q]).asset;
              m in db.assets && db.assets[m].bit.Some?
                && db.assets[m].bit.value.settledVolume == MaxVolume(old(db.assets[m]))
  {
    hide Good, Trades, Settling, FillCall, FillSettle, CancelSettle, ToQuote, VolumesKept, SameBits, PartsRun, PartRun,
         PartRight, Unserved, IsLeastCollateralized, WithVolume, MaxVolume, OtherRequestsKept, NotPriced,
         Collateralized, SettleFill;
    ghost var s0 := db.S();
    parts, dropped := [], false;
    var m := db.settles[q].asset;
    var bit := db.assets[m].bit.value;
    var limit := MaxVolume(db.assets[m]);
    var at;
    price := Price(0, 0);
    match ToQuote(db.settles[q].balance, bit.feed.value.price) {
      case None =>
        return false, price, [], false;
      case Some(worth) =>
        OffsetPercent(s0, m);
        at := Price(db.settles[q].balance, worth * (HUNDRED_PERCENT - bit.offsetPercent) / HUNDRED_PERCENT);
        OffsetWithin(db.settles[q].balance, bit.feed.value.price, bit.offsetPercent);
    }
    price := at;
    var settled: nat := bit.settledVolume;
    SettlingStart(s0, m);
    NoParts(s0, q, at, settled, limit);
    NothingChanged(s0.settles, q);
    var stop := false;
    while !stop && settled < limit && q in db.settles
      invariant !dropped ==>
                  Settling(s0, db.S(), m, settled)
                  && PartsRun(s0, q, at, bit.settledVolume, limit, parts) == Some((db.S(), settled))
      invariant Collateralized(s0.calls) ==> Collateralized(db.calls)
      invariant q in db.settles ==> db.settles[q].balance <= at.base
      invariant settled <= limit && OtherRequestsKept(s0.settles, db.settles, q) && stop == dropped
      invariant dropped ==> DroppedAfter(s0, db.S(), m, q, at, bit.settledVolume, limit, parts, settled)
      decreases !stop, limit - settled
    {
      ghost var s1 := db.S();
      SettlingOpen(s0, s1, m, settled);
      SettlingSupply(s0, s1, m, settled);
      OwnAsset(s0.settles, db.settles, q);
      var r, part := SettlePart(db, q, at, limit - settled);
      match r {
        case NoPart =>
          if Collateralized(s0.calls) {
            PartsArePriced(s1, q, limit - settled, at);
          }
          return false, price, parts, false;
        case NoService =>
          CancelKeepsCalls(s1, q);
          SettlingCancel(s0, s1, m, settled, q);
          CancelledOthers(s0.settles, s1.settles, q);
          DroppedNow(s0, s1, m, q, at, bit.settledVolume, limit, parts, settled);
          stop, dropped := true, true;
        case OnePart =>
          if Collateralized(s1.calls) {
            PartKeepsCollateral(s1, q, limit - settled, at, part);
          }
          PartSettles(s0, s1, m, q, at, bit.settledVolume, limit, parts, settled, part);
          FilledOthers(s0.settles, s1.settles, db.settles, q, part.usd);
          parts := parts + [part];
          settled := settled + part.usd;
      }
    }
    if dropped {
      DroppedSettling(s0, db.S(), m, q, at, bit.settledVolume, limit, parts, settled);
    }
    SettlingOpen(s0, db.S(), m, settled);
    RecordVolume(s0, db.S(), m, settled);
    RecordedVolumes(s0, db.S(), m, settled);
    RecordedOthers(s0, db.S(), m, settled, q);
    RecordedRequest(s0, db.S(), m, q, at, limit, parts, settled, dropped);
    SetVolume(db, m, settled);
    ok := true;
  }

  lemma OffsetWithin(balance: nat, feed: Price, offset: nat)
    requires ToQuote(balance, feed).Some? && offset <= HUNDRED_PERCENT
    ensures 0 <= ToQuote(balance, feed).value * (HUNDRED_PERCENT - offset) / HUNDRED_PERCENT <= MAX_SHARE_SUPPLY
  {
    var worth := ToQuote(balance, feed).value;
    FloorBounds(worth, HUNDRED_PERCENT - offset, HUNDRED_PERCENT);
    MulMonotone(HUNDRED_PERCENT - offset, HUNDRED_PERCENT, worth);
    CancelFactor(worth * (HUNDRED_PERCENT - offset) / HUNDRED_PERCENT, worth, HUNDRED_PERCENT);
  }

  method SetVolume(db: Market, m: nat, settled: nat)
    requires m in db.assets && db.assets[m].bit.Some?
    modifies db`assets
    ensures db.S() == WithVolume(old(db.S()), m, settled)
    ensures m in db.assets && db.assets[m].bit.Some? && db.assets[m].bit.value.settledVolume == settled
  {
    db.assets := db.assets[m := db.assets[m].(bit := Some(db.assets[m].bit.value.(settledVolume := settled)))];
  }

  datatype PartResult = NoPart | NoService | OnePart

  // One part against the least collateralized position; a request that cannot be served is cancelled.
  method SettlePart(db: Market, q: nat, at: Price, room: nat) returns (r: PartResult, part: Part)
    requires Good(db.S()) && q in db.settles && Open(db.assets, db.settles[q].asset)
             && db.assets[db.settles[q].asset].supply > 0
    requires room > 0
    modifies db`balances, db`settles, db`calls, db`assets
    ensures r.NoPart? <==> NotPriced(old(db.S()), q, room, at)
    ensures r.NoService? ==> db.S() == CancelSettle(old(db.S()), q) && Unserved(old(db.S()), q, room, at)
    ensures r.OnePart? ==>
      && PartRight(old(db.S()), q, room, at, part) && part.usd > 0
      && SettleFill(old(db.S()), part.position, q, part.usd, part.core) == Some(db.S())
      && part.usd <= old(db.settles[q]).balance
      && old(db.calls[part.position]).debtAsset == old(db.settles[q]).asset
  {
    hide Good, FillCall, FillSettle, CancelSettle, ToQuote, Precedes;
    part := Part(0, 0, 0);
    var m := db.settles[q].asset;
    var c := LeastCollateralized(db, m);
    OneLeast(db.calls, m, c);
    GoodCall(db.S(), c);
    var balance := db.settles[q].balance;
    if balance == 0 {
      db.CancelSettlement(q);
      return NoService, part;
    }
    if db.calls[c].collateral == 0 {
      return NoPart, part;
    }
    var usd := Least(Least(balance, room), db.calls[c].debt);
    match ToQuote(usd, at)
    case None =>
      r := NoPart;
    case Some(core) =>
      if core >= db.calls[c].collateral {
        db.CancelSettlement(q);
        return NoService, part;
      }
      Settleable(db.S(), c, q, usd, core);
      var ok := FillBoth(db, c, q, usd, core);
      return if ok then OnePart else NoPart, Part(c, usd, core);
  }

  // The position to settle against has no collateral, or the part is worth more than an amount can be.
  ghost predicate NotPriced(s: State, q: nat, room: nat, price: Price) {
    && q in s.settles && s.settles[q].balance > 0
    && exists c :: IsLeastCollateralized(s.calls, s.settles[q].asset, c)
         && (s.calls[c].collateral == 0
             || ToQuote(Least(Least(s.settles[q].balance, room), s.calls[c].debt), price) == None)
  }

  lemma Settleable(s: State, c: nat, q: nat, usd: nat, core: nat)
    requires c in s.calls && q in s.settles && usd <= s.calls[c].debt && usd <= s.settles[q].balance
    requires s.calls[c].debtAsset in s.assets && s.calls[c].collateralAsset in s.assets && FeesBounded(s.assets)
    requires core <= s.calls[c].collateral
    ensures SettleFill(s, c, q, usd, core).Some?
  {
  }

  // The price puts at most what the whole request is worth on a part of it.
  lemma PartsArePriced(s: State, q: nat, room: nat, price: Price)
    requires Collateralized(s.calls) && q in s.settles && s.settles[q].balance <= price.base
    requires price.quote <= MAX_SHARE_SUPPLY
    ensures !NotPriced(s, q, room, price)
  {
    hide IsLeastCollateralized;
    forall c | IsLeastCollateralized(s.calls, s.settles[q].asset, c) && s.settles[q].balance > 0
      ensures c in s.calls
      ensures ToQuote(Least(Least(s.settles[q].balance, room), s.calls[c].debt), price).Some?
    {
      LeastThere(s.calls, s.settles[q].asset, c);
      PartInRange(Least(Least(s.settles[q].balance, room), s.calls[c].debt), price);
    }
  }

  lemma LeastThere(calls: map<nat, CallOrder>, m: nat, c: nat)
    requires IsLeastCollateralized(calls, m, c)
    ensures c in calls && calls[c].debtAsset == m
  {
  }

  lemma PartInRange(usd: nat, price: Price)
    requires usd <= price.base && price.base > 0 && price.quote <= MAX_SHARE_SUPPLY
    ensures ToQuote(usd, price).Some?
  {
    MulMonotone(usd, price.base, price.quote);
    FloorBounds(usd, price.quote, price.base);
    CancelFactor(usd * price.quote / price.base, price.quote, price.base);
  }

  lemma PartKeepsCollateral(s: State, q: nat, room: nat, price: Price, part: Part)
    requires Collateralized(s.calls) && PartRight(s, q, room, price, part)
    requires SettleFill(s, part.position, q, part.usd, part.core).Some?
    ensures Collateralized(SettleFill(s, part.position, q, part.usd, part.core).value.calls)
  {
    hide FillCall, FillSettle, IsLeastCollateralized, ToQuote;
    LeastThere(s.calls, s.settles[q].asset, part.position);
    FillCallAssets(s, part.position, part.core, part.usd);
    var t := FillCall(s, part.position, part.core, part.usd).value;
    FillSettleAssets(t, q, part.usd, s.calls[part.position].collateralAsset, part.core);
  }

  lemma CancelKeepsCalls(s: State, q: nat)
    requires q in s.settles
    ensures CancelSettle(s, q).calls == s.calls
  {
  }

  lemma NoParts(s: State, q: nat, price: Price, settled: nat, limit: int)
    ensures PartsRun(s, q, price, settled, limit, []) == Some((s, settled))
  {
  }

  lemma NothingChanged(x: map<nat, Settlement>, q: nat)
    ensures OtherRequestsKept(x, x, q)
  {
  }

  lemma OwnAsset(x: map<nat, Settlement>, y: map<nat, Settlement>, q: nat)
    requires OtherRequestsKept(x, y, q) && q in x && q in y
    ensures y[q].asset == x[q].asset
  {
  }

  lemma CancelledOthers(x: map<nat, Settlement>, y: map<nat, Settlement>, q: nat)
    requires OtherRequestsKept(x, y, q)
    ensures OtherRequestsKept(x, y - {q}, q)
  {
  }

  lemma FilledOthers(x: map<nat, Settlement>, y: map<nat, Settlement>, z: map<nat, Settlement>, q: nat, usd: nat)
    requires OtherRequestsKept(x, y, q) && q in y && usd <= y[q].balance
    requires z == if usd == y[q].balance then y - {q} else y[q := y[q].(balance := y[q].balance - usd)]
    ensures OtherRequestsKept(x, z, q)
  {
  }

  // The request has just been cancelled, after the parts.
  ghost predicate DroppedAfter(s: State, t: State, m: nat, q: nat, price: Price, volume: nat, limit: int,
                               parts: seq<Part>, settled: nat) {
    && Settling(s, t, m, settled) && settled < limit && q !in t.settles
    && PartsRun(s, q, price, volume, limit, parts).Some?
    && var u := PartsRun(s, q, price, volume, limit, parts).value;
       u.1 == settled && Unserved(u.0, q, limit - settled, price) && q in u.0.settles && t == CancelSettle(u.0, q)
  }

  lemma DroppedNow(s: State, t: State, m: nat, q: nat, price: Price, volume: nat, limit: int, parts: seq<Part>,
                   settled: nat)
    requires Settling(s, t, m, settled) && settled < limit && q in t.settles && Unserved(t, q, limit - settled, price)
    requires PartsRun(s, q, price, volume, limit, parts) == Some((t, settled))
    ensures DroppedAfter(s, CancelSettle(t, q), m, q, price, volume, limit, parts, settled)
  {
    hide Settling, PartsRun, CancelSettle, Unserved;
    SettlingCancel(s, t, m, settled, q);
  }

  lemma DroppedSettling(s: State, t: State, m: nat, q: nat, price: Price, volume: nat, limit: int, parts: seq<Part>,
                        settled: nat)
    requires DroppedAfter(s, t, m, q, price, volume, limit, parts, settled)
    ensures Settling(s, t, m, settled) && q !in t.settles
  {
    hide Settling, PartsRun, CancelSettle;
  }

  lemma PartSettles(s: State, t: State, m: nat, q: nat, price: Price, volume: nat, limit: int, parts: seq<Part>,
                    settled: nat, part: Part)
    requires Settling(s, t, m, settled) && settled < limit && q in t.settles && t.settles[q].asset == m
    requires PartsRun(s, q, price, volume, limit, parts) == Some((t, settled))
    requires PartRight(t, q, limit - settled, price, part) && SettleFill(t, part.position, q, part.usd, part.core).Some?
    ensures var u := SettleFill(t, part.position, q, part.usd, part.core).value;
            && Settling(s, u, m, settled + part.usd)
            && PartsRun(s, q, price, volume, limit, parts + [part]) == Some((u, settled + part.usd))
            && u.settles == (if part.usd == t.settles[q].balance then t.settles - {q}
                             else t.settles[q := t.settles[q].(balance := t.settles[q].balance - part.usd)])
            && settled + part.usd <= limit
  {
    hide Settling, PartsRun, SettleFill, ToQuote, Precedes;
    SettlingFill(s, t, m, settled, part.position, q, part.usd, part.core);
    PartsNext(s, q, price, volume, limit, parts, t, settled, part);
  }

  lemma RecordedRequest(s: State, t: State, m: nat, q: nat, price: Price, limit: int, parts: seq<Part>, settled: nat,
                        dropped: bool)
    requires q in s.settles && s.settles[q].asset == m && Open(s.assets, m) && s.assets[m].bit.value.feed.Some?
             && OffsetPrice(s, q, price)
    requires limit == MaxVolume(s.assets[m]) && m in t.assets && t.assets[m].bit.Some?
    requires dropped ==> DroppedAfter(s, t, m, q, price, s.assets[m].bit.value.settledVolume, limit, parts, settled)
    requires !dropped ==> PartsRun(s, q, price, s.assets[m].bit.value.settledVolume, limit, parts) == Some((t, settled))
    requires !dropped ==> settled >= limit || q !in t.settles
    ensures RequestSettled(s, WithVolume(t, m, settled), q, price, parts, dropped)
  {
    hide PartsRun, Settling, CancelSettle, Unserved, OffsetPrice, MaxVolume;
  }

  lemma OffsetPercent(s: State, m: nat)
    requires Good(s) && m in s.assets && s.assets[m].bit.Some?
    ensures s.assets[m].bit.value.offsetPercent <= HUNDRED_PERCENT
  {
  }

  lemma SettlingSupply(s: State, t: State, m: nat, settled: nat)
    requires Good(s) && Settling(s, t, m, settled) && settled < MaxVolume(s.assets[m])
    ensures m in t.assets && t.assets[m].supply > 0
  {
    hide Trades, Good, MaxVolume;
    RoomMeansSupply(s, m, settled);
  }

  // Both sides of one settlement.
  method FillBoth(db: Market, c: nat, q: nat, usd: nat, core: nat) returns (ok: bool)
    requires Good(db.S()) && c in db.calls && q in db.settles && usd <= db.calls[c].debt && usd <= db.settles[q].balance
    requires db.calls[c].debtAsset in db.assets && db.calls[c].collateralAsset in db.assets && FeesBounded(db.assets)
    modifies db`balances, db`settles, db`calls, db`assets
    ensures ok <==> SettleFill(old(db.S()), c, q, usd, core).Some?
    ensures ok ==> db.S() == SettleFill(old(db.S()), c, q, usd, core).value
  {
    hide Good, FillCall, FillSettle;
    var paidIn := db.calls[c].collateralAsset;
    ghost var s0 := db.S();
    ok := db.FillCallOrder(c, core, usd);
    if ok {
      FillCallAssets(s0, c, core, usd);
      db.FillSettlement(q, usd, paidIn, core);
    }
  }

  // ---------- all requests ----------

  // By asset, then by date, then the older first.
  predicate DueBefore(q: Settlement, i: nat, r: Settlement, j: nat) {
    q.asset < r.asset || (q.asset == r.asset && (q.date < r.date || (q.date == r.date && i < j)))
  }

  ghost function From(settles: map<nat, Settlement>, a: nat): set<nat> {
    set q | q in settles && settles[q].asset >= a
  }

  // The first request in an asset from `a` on.
  method FirstRequest(db: Market, a: nat) returns (first: Option<nat>)
    ensures first == None <==> From(db.settles, a) == {}
    ensures first.Some? ==> first.value in From(db.settles, a)
    ensures first.Some? ==> forall r <- From(db.settles, a) :: r != first.value ==>
              DueBefore(db.settles[first.value], first.value, db.settles[r], r)
  {
    first := None;
    var todo := db.settles.Keys;
    while todo != {}
      invariant todo <= db.settles.Keys
      invariant first == None ==> forall r <- From(db.settles, a) :: r in todo
      invariant first.Some? ==> first.value in From(db.settles, a) && first.value !in todo
      invariant first.Some? ==> forall r <- From(db.settles, a) :: r !in todo && r != first.value ==>
                  DueBefore(db.settles[first.value], first.value, db.settles[r], r)
      decreases todo
    {
      var r :| r in todo;
      todo := todo - {r};
      if db.settles[r].asset >= a
         && (first == None || DueBefore(db.settles[r], r, db.settles[first.value], first.value)) {
        first := Some(r);
      }
    }
  }

  // How far the first request's asset is from its limit.
  ghost function Room(s: State, q: nat): nat
    requires q in s.settles
  {
    var m := s.settles[q].asset;
    if m in s.assets && s.assets[m].bit.Some? && s.assets[m].bit.value.settledVolume < MaxVolume(s.assets[m])
    then MaxVolume(s.assets[m]) - s.assets[m].bit.value.settledVolume else 0
  }

  datatype Verdict = Dropped | Worked | Later | Broken

  // What is done with the request that is first in line.
  method Process(db: Market, q: nat, now: nat)
                 returns (v: Verdict, ghost price: Price, ghost parts: seq<Part>, ghost dropped: bool)
    requires Good(db.S()) && q in db.settles
    modifies db`balances, db`settles, db`calls, db`assets
    ensures v != Broken ==> Trades(old(db.S()), db.S(), None) && VolumesKept(old(db.assets), db.assets)
    ensures v == Later ==> db.S() == old(db.S())
    ensures v == Later <==> DueLater(old(db.S()), q, now)
    ensures v == Dropped ==> db.settles == old(db.settles) - {q} && Cancelled(old(db.S()), db.S(), q, now)
    ensures v == Worked ==> RequestSettled(old(db.S()), db.S(), q, price, parts, dropped)
    ensures Collateralized(old(db.calls)) ==>
              && (v == Broken <==> WorthTooMuch(old(db.S()), q, now))
              && (v != Broken ==> Collateralized(db.calls))
    ensures v == Worked && q in db.settles ==> db.settles[q].balance <= old(db.settles[q]).balance
    ensures v == Dropped || v == Worked ==> OthersKept(old(db.S()), db.S(), q)
    ensures v == Worked ==>
      (q in db.settles ==> Room(db.S(), q) < Room(old(db.S()), q))
  {
    hide Good, Trades, CancelSettle, VolumesKept, WithinVolume, RequestSettled, Collateralized, ToQuote, MaxVolume;
    ghost var s0 := db.S();
    price, parts, dropped := Price(0, 0), [], false;
    var m := db.settles[q].asset;
    GoodRequest(s0, q);
    TradesReflexive(s0, None);
    SameVolumes(db.assets);
    var bit := db.assets[m].bit.value;
    if bit.settled.Some? {
      Drop(db, q);
      return Dropped, price, parts, dropped;
    }
    if db.settles[q].date > now {
      return Later, price, parts, dropped;
    }
    if bit.feed == None {
      Drop(db, q);
      return Dropped, price, parts, dropped;
    }
    if bit.settledVolume >= MaxVolume(db.assets[m]) {
      return Later, price, parts, dropped;
    }
    var ok;
    ok, price, parts, dropped := SettleRequest(db, q);
    if ok {
      NoRoomLeft(s0, db.S(), q);
    }
    v := if ok then Worked else Broken;
  }

  // A request is cancelled once its asset has been settled globally, or when it is due and there is no feed.
  ghost predicate Cancelled(s: State, t: State, q: nat, now: nat) {
    && q in s.settles && s.settles[q].asset in s.assets && s.assets[s.settles[q].asset].bit.Some?
    && t == CancelSettle(s, q)
    && var bit := s.assets[s.settles[q].asset].bit.value;
       bit.settled.Some? || (s.settles[q].date <= now && bit.feed == None)
  }

  // The request is due and there is room for it, but it is worth more than an amount can be.
  ghost predicate WorthTooMuch(s: State, q: nat, now: nat) {
    && q in s.settles && s.settles[q].date <= now
    && var m := s.settles[q].asset;
       && Open(s.assets, m) && s.assets[m].bit.value.feed.Some?
       && s.assets[m].bit.value.settledVolume < MaxVolume(s.assets[m])
       && ToQuote(s.settles[q].balance, s.assets[m].bit.value.feed.value.price) == None
  }

  // A request waits if its date has not come or its asset has no room left.
  ghost predicate DueLater(s: State, q: nat, now: nat)
    requires q in s.settles
  {
    var m := s.settles[q].asset;
    && Open(s.assets, m)
    && (s.settles[q].date > now
        || (s.assets[m].bit.value.feed.Some? && s.assets[m].bit.value.settledVolume >= MaxVolume(s.assets[m])))
  }

  method Drop(db: Market, q: nat)
    requires Good(db.S()) && q in db.settles
    modifies db`balances, db`settles
    ensures Trades(old(db.S()), db.S(), None) && db.settles == old(db.settles) - {q} && db.assets == old(db.assets)
    ensures db.S() == CancelSettle(old(db.S()), q)
  {
    hide Good, Trades, CancelSettle, Surplus;
    CancelSettleTrades(db.S(), q);
    CancelSettleEffect(db.S(), q, CORE);
    db.CancelSettlement(q);
  }

  lemma GoodRequest(s: State, q: nat)
    requires Good(s) && q in s.settles
    ensures s.settles[q].asset in s.assets && s.assets[s.settles[q].asset].bit.Some?
  {
  }

  lemma NoRoomLeft(s: State, t: State, q: nat)
    requires q in s.settles && s.settles[q].asset in s.assets && s.assets[s.settles[q].asset].bit.Some?
    requires s.assets[s.settles[q].asset].bit.value.settledVolume < MaxVolume(s.assets[s.settles[q].asset])
    requires VolumesKept(s.assets, t.assets)
    requires q in t.settles ==>
      var m := s.settles[q].asset;
      t.settles[q].asset == m && t.assets[m].bit.Some? && t.assets[m].bit.value.settledVolume == MaxVolume(s.assets[m])
    ensures q in t.settles ==> Room(t, q) < Room(s, q)
  {
    assert WithinVolume(s.assets[s.settles[q].asset], t.assets[s.settles[q].asset]);
  }

  // Some request in the asset keeps the others behind it waiting.
  ghost predicate Waiting(s: State, a: nat, now: nat) {
    exists r :: InLine(s.settles, r) && s.settles[r].asset == a && DueLater(s, r, now)
  }

  // In numbers: the date of the request has not come, or the next unit settled would go beyond the percentage.
  ghost predicate MustWait(s: State, q: nat, now: nat) {
    && q in s.settles && Open(s.assets, s.settles[q].asset)
    && var a := s.assets[s.settles[q].asset];
       var bit := a.bit.value;
       || s.settles[q].date > now
       || (bit.feed.Some?
           && (bit.settledVolume + 1) * HUNDRED_PERCENT > bit.maxVolumePercent * (a.supply + bit.settledVolume))
  }

  // What keeps the first request in line waiting keeps all requests in the asset waiting.
  lemma WaitingMeans(s: State, q: nat, now: nat)
    requires Good(s) && q in s.settles && Waiting(s, s.settles[q].asset, now)
    ensures MustWait(s, q, now)
  {
    hide Good;
    var r :| InLine(s.settles, r) && s.settles[r].asset == s.settles[q].asset && DueLater(s, r, now);
    assert r == q || DueBefore(s.settles[r], r, s.settles[q], q);
    FullMeans(s, s.settles[q].asset);
  }

  lemma FullMeans(s: State, m: nat)
    requires Good(s) && Open(s.assets, m)
    ensures var a := s.assets[m];
            var bit := a.bit.value;
            bit.settledVolume >= MaxVolume(a) ==>
              (bit.settledVolume + 1) * HUNDRED_PERCENT > bit.maxVolumePercent * (a.supply + bit.settledVolume)
  {
    hide Solvent, DebtIsSupply;
    SupplyNonNegative(s, m);
    var a := s.assets[m];
    var all, percent := a.supply + a.bit.value.settledVolume, a.bit.value.maxVolumePercent;
    VolumeWithin(all, percent);
    VolumeLimitIff(all, percent, VolumeLimit(all, percent));
  }

  lemma WaitingKept(s: State, t: State, q: nat, a: nat, now: nat)
    requires q in s.settles && OthersKept(s, t, q) && a != s.settles[q].asset && Waiting(s, a, now)
    ensures Waiting(t, a, now)
  {
    var r :| InLine(s.settles, r) && s.settles[r].asset == a && DueLater(s, r, now);
    assert InLine(t.settles, r) && DueLater(t, r, now);
  }

  lemma StillWaiting(s: State, t: State, q: nat, r: nat, v: Verdict, now: nat)
    requires q in s.settles && r in t.settles
    requires if v == Later then t == s && InLine(s.settles, q) && DueLater(s, q, now) else OthersKept(s, t, q)
    requires t.settles[r].asset < s.settles[q].asset || (v == Later && t.settles[r].asset == s.settles[q].asset)
    requires r in s.settles && s.settles[r].asset < s.settles[q].asset ==> Waiting(s, s.settles[r].asset, now)
    ensures Waiting(t, t.settles[r].asset, now)
  {
    hide DueLater, InLine;
    if v != Later {
      WaitingKept(s, t, q, t.settles[r].asset, now);
    }
  }

  lemma FirstMeans(settles: map<nat, Settlement>, a: nat, first: Option<nat>)
    requires first == None <==> From(settles, a) == {}
    requires first.Some? ==> first.value in From(settles, a)
    requires first.Some? ==> forall r <- From(settles, a) :: r != first.value ==>
               DueBefore(settles[first.value], first.value, settles[r], r)
    ensures first.Some? ==> first.value in settles && settles[first.value].asset >= a
    ensures first.Some? ==> InLine(settles, first.value)
    ensures forall r <- settles :: first == None || settles[r].asset < settles[first.value].asset ==>
            settles[r].asset < a
  {
    forall r | r in settles && settles[r].asset >= a
      ensures first.Some? && settles[first.value].asset <= settles[r].asset
    {
      assert r in From(settles, a);
    }
  }

  // Fewer requests, then fewer assets, then less room.
  ghost predicate Further(s: State, t: State, q: nat, next: nat)
    requires q in s.settles && next in t.settles
  {
    || t.settles.Keys < s.settles.Keys
    || (t.settles.Keys == s.settles.Keys
        && (|| From(t.settles, t.settles[next].asset) < From(s.settles, s.settles[q].asset)
            || (From(t.settles, t.settles[next].asset) == From(s.settles, s.settles[q].asset)
                && Room(t, next) < Room(s, q))))
  }

  // Requests, then assets, then volume: one of them gets fewer, the ones before it no more.
  lemma Progress(s: State, t: State, q: nat, v: Verdict, next: nat)
    requires q in s.settles && next in t.settles
    requires if v == Later then t == s && t.settles[next].asset > s.settles[q].asset
             else OthersKept(s, t, q) && t.settles[next].asset >= s.settles[q].asset
    requires v != Later && q in t.settles ==> t.settles[next].asset <= s.settles[q].asset && Room(t, q) < Room(s, q)
    ensures Further(s, t, q, next)
  {
    if v == Later {
      assert q in From(s.settles, s.settles[q].asset) && q !in From(t.settles, t.settles[next].asset);
    } else if q in t.settles {
      assert From(t.settles, t.settles[next].asset) == From(s.settles, s.settles[q].asset);
    }
  }

  // No request in the same asset is ahead.
  ghost predicate InLine(settles: map<nat, Settlement>, q: nat) {
    q in settles && forall r <- settles :: settles[r].asset == settles[q].asset && r != q ==>
      DueBefore(settles[q], q, settles[r], r)
  }

  // The first request in line of some asset was cancelled or worked on.
  ghost predicate Handled(s: State, t: State, now: nat) {
    exists q :: InLine(s.settles, q) && !DueLater(s, q, now)
      && (Cancelled(s, t, q, now) || exists price, parts, dropped :: RequestSettled(s, t, q, price, parts, dropped))
  }

  lemma HandledBy(s: State, t: State, q: nat, now: nat, v: Verdict, price: Price, parts: seq<Part>, dropped: bool)
    requires InLine(s.settles, q) && !DueLater(s, q, now) && (v == Dropped || v == Worked)
    requires v == Dropped ==> Cancelled(s, t, q, now)
    requires v == Worked ==> RequestSettled(s, t, q, price, parts, dropped)
    ensures Handled(s, t, now)
  {
    hide InLine, DueLater, Cancelled, RequestSettled;
  }

  // Works through the requests in order: each round drops or settles one, or passes on to the next asset.
  method ClearExpired(db: Market, now: nat) returns (ok: bool, ghost states: seq<State>)
    requires WellFormed(db)
    modifies db`balances, db`settles, db`calls, db`assets
    ensures ok ==> WellFormed(db) && Keeps(old(db.S()), db.S()) && VolumesKept(old(db.assets), db.assets)
    ensures ok ==> forall q <- db.settles :: Waiting(db.S(), db.settles[q].asset, now) && MustWait(db.S(), q, now)
    ensures |states| > 0 && states[0] == old(db.S())
    ensures forall i :: 0 <= i < |states| - 1 ==> Handled(states[i], states[i + 1], now)
    ensures ok ==> states[|states| - 1] == db.S()
    ensures !ok ==> StopsAt(states[|states| - 1], now)
    ensures AllPriced(old(db.S())) ==> ok
  {
    hide Good, Trades, Uncrossed, DustFree, Backed, Keeps, VolumesKept, Room, DueLater, Waiting, Handled, Chain,
         InLine, From, DueBefore, Collateralized, WorthTooMuch, AllPriced, StopsAt, MustWait;
    ghost var s0 := db.S();
    states := [s0];
    ChainStart(s0, now);
    var first := FirstRequest(db, 0);
    FirstMeans(db.settles, 0, first);
    while first.Some?
      invariant Chain(s0, db.S(), states, now) && Collateralized(db.calls)
      invariant AllPriced(s0) ==> AllPriced(db.S())
      invariant first.Some? ==> first.value in db.settles && InLine(db.settles, first.value)
      invariant WaitBefore(db.S(), first, now)
      decreases db.settles.Keys, if first.Some? then From(db.settles, db.settles[first.value].asset) else {},
                if first.Some? then Room(db.S(), first.value) else 0
    {
      ghost var s1 := db.S();
      var next;
      ok, next, states := WorkOff(db, first.value, now, s0, states);
      if !ok {
        ChainSoFar(s0, s1, states, now);
        return false, states;
      }
      first := next;
    }
    ChainGood(s0, db.S(), states, now);
    WaitEnds(db.S(), now);
    ChainSoFar(s0, db.S(), states, now);
    ChainEnd(s0, db.S(), states, now);
    ok := true;
  }

  // In every asset before that of the first request some request keeps the others waiting.
  ghost predicate WaitBefore(s: State, first: Option<nat>, now: nat) {
    forall r <- s.settles ::
      first == None || (first.value in s.settles && s.settles[r].asset < s.settles[first.value].asset) ==>
        Waiting(s, s.settles[r].asset, now)
  }

  lemma WaitEnds(s: State, now: nat)
    requires Good(s) && WaitBefore(s, None, now)
    ensures forall q <- s.settles :: Waiting(s, s.settles[q].asset, now) && MustWait(s, q, now)
  {
    hide Good, Waiting, MustWait;
    forall q | q in s.settles
      ensures MustWait(s, q, now)
    {
      WaitingMeans(s, q, now);
    }
  }

  // One round of the pass: the first request in line, and then the next one.
  method WorkOff(db: Market, q: nat, now: nat, ghost s0: State, ghost states: seq<State>)
    returns (ok: bool, next: Option<nat>, ghost states': seq<State>)
    requires Chain(s0, db.S(), states, now) && Collateralized(db.calls)
    requires q in db.settles && InLine(db.settles, q) && WaitBefore(db.S(), Some(q), now)
    modifies db`balances, db`settles, db`calls, db`assets
    ensures !ok ==> states' == states && StopsAt(old(db.S()), now) && !AllPriced(old(db.S()))
    ensures ok ==> Chain(s0, db.S(), states', now) && Collateralized(db.calls)
    ensures ok && AllPriced(old(db.S())) ==> AllPriced(db.S())
    ensures ok && next.Some? ==> next.value in db.settles && InLine(db.settles, next.value)
    ensures ok ==> WaitBefore(db.S(), next, now)
    ensures ok ==> db.settles.Keys <= old(db.settles).Keys
    ensures ok && next == None && db.settles.Keys == old(db.settles).Keys ==>
              From(old(db.settles), old(db.settles[q]).asset) != {}
    ensures ok && next.Some? ==> Further(old(db.S()), db.S(), q, next.value)
  {
    hide Good, Trades, VolumesKept, Room, DueLater, Waiting, Handled, Chain, InLine, From, DueBefore, Collateralized,
         WorthTooMuch, AllPriced, StopsAt, RequestSettled, Cancelled;
    states', next, ok := states, None, true;
    ghost var s1 := db.S();
    ChainGood(s0, s1, states, now);
    var m := db.settles[q].asset;
    var v;
    ghost var price, parts, dropped;
    v, price, parts, dropped := Process(db, q, now);
    if v == Broken {
      StopsHere(s1, q, now);
      return false, None, states;
    }
    StillPriced(s1, db.S(), q, v);
    states' := ChainStep(s0, s1, db.S(), states, q, now, v, price, parts, dropped);
    WaitFurther(s1, db.S(), q, v, now);
    next := FirstRequest(db, if v == Later then m + 1 else m);
    FirstMeans(db.settles, if v == Later then m + 1 else m, next);
    if next.Some? {
      Onward(s1, db.S(), q, v, next.value);
    } else {
      NoneLeft(s1.settles, q);
    }
  }

  // The assets passed have a request that waits.
  lemma WaitFurther(s: State, t: State, q: nat, v: Verdict, now: nat)
    requires q in s.settles && WaitBefore(s, Some(q), now)
    requires if v == Later then t == s && InLine(s.settles, q) && DueLater(s, q, now) else OthersKept(s, t, q)
    ensures forall r <- t.settles ::
              t.settles[r].asset < s.settles[q].asset || (v == Later && t.settles[r].asset == s.settles[q].asset) ==>
                Waiting(t, t.settles[r].asset, now)
  {
    hide DueLater, Waiting, InLine;
    forall r | r in t.settles
      && (t.settles[r].asset < s.settles[q].asset || (v == Later && t.settles[r].asset == s.settles[q].asset))
      ensures Waiting(t, t.settles[r].asset, now)
    {
      StillWaiting(s, t, q, r, v, now);
    }
  }

  // The first request in line of some asset cannot be worked on.
  ghost predicate StopsAt(s: State, now: nat) {
    exists q :: InLine(s.settles, q) && WorthTooMuch(s, q, now)
  }

  // No request is worth more at its feed than an amount can be.
  ghost predicate AllPriced(s: State) {
    forall q <- s.settles :: s.settles[q].asset in s.assets ==>
      Priced(s.settles[q].balance, s.assets[s.settles[q].asset])
  }

  ghost predicate Priced(balance: nat, a: Asset) {
    a.bit.Some? && a.bit.value.feed.Some? ==> ToQuote(balance, a.bit.value.feed.value.price).Some?
  }

  lemma StopsHere(s: State, q: nat, now: nat)
    requires InLine(s.settles, q) && WorthTooMuch(s, q, now)
    ensures StopsAt(s, now) && !AllPriced(s)
  {
    hide ToQuote, MaxVolume, InLine;
  }

  lemma LessIsPriced(x: nat, y: nat, p: Price)
    requires x <= y && ToQuote(y, p).Some?
    ensures ToQuote(x, p).Some?
  {
    MulMonotone(x, y, p.quote);
    FloorBounds(x, p.quote, p.base);
    FloorBounds(y, p.quote, p.base);
    LessFactor(x * p.quote / p.base, y * p.quote / p.base + 1, p.base);
  }

  // Working on a request leaves the feeds and the other requests, and no more of its own balance.
  lemma StillPriced(s: State, t: State, q: nat, v: Verdict)
    requires q in s.settles && VolumesKept(s.assets, t.assets)
    requires v == Later ==> t == s
    requires v == Dropped || v == Worked ==> OthersKept(s, t, q)
    requires v == Dropped ==> q !in t.settles
    requires v == Worked && q in t.settles ==> t.settles[q].balance <= s.settles[q].balance
    requires v != Broken
    ensures AllPriced(s) ==> AllPriced(t)
  {
    hide ToQuote, MaxVolume;
    forall r | AllPriced(s) && r in t.settles && t.settles[r].asset in t.assets
      ensures Priced(t.settles[r].balance, t.assets[t.settles[r].asset])
    {
      var m := t.settles[r].asset;
      assert r in s.settles && s.settles[r].asset == m && t.settles[r].balance <= s.settles[r].balance;
      assert WithinVolume(s.assets[m], t.assets[m]);
      if s.assets[m].bit.Some? && s.assets[m].bit.value.feed.Some? {
        LessIsPriced(t.settles[r].balance, s.settles[r].balance, s.assets[m].bit.value.feed.value.price);
      }
    }
  }

  lemma ChainSoFar(s: State, t: State, states: seq<State>, now: nat)
    requires Chain(s, t, states, now)
    ensures |states| > 0 && states[0] == s && states[|states| - 1] == t
    ensures forall i :: 0 <= i < |states| - 1 ==> Handled(states[i], states[i + 1], now)
  {
    hide Trades, Handled, VolumesKept;
  }

  // What the pass has done so far, round by round.
  ghost predicate Chain(s: State, t: State, states: seq<State>, now: nat) {
    && Trades(s, t, None) && VolumesKept(s.assets, t.assets)
    && |states| > 0 && states[0] == s && states[|states| - 1] == t
    && forall i :: 0 <= i < |states| - 1 ==> Handled(states[i], states[i + 1], now)
  }

  lemma ChainStart(s: State, now: nat)
    requires Good(s)
    ensures Chain(s, s, [s], now)
  {
    hide Good, Trades, VolumesKept;
    TradesReflexive(s, None);
    SameVolumes(s.assets);
  }

  lemma ChainGood(s: State, t: State, states: seq<State>, now: nat)
    requires Chain(s, t, states, now)
    ensures Good(t)
  {
    hide Trades, Handled, VolumesKept;
    TradesGood(s, t, None);
  }

  lemma ChainStep(s: State, t: State, u: State, states: seq<State>, q: nat, now: nat, v: Verdict, price: Price,
                  parts: seq<Part>, dropped: bool)
    returns (next: seq<State>)
    requires Chain(s, t, states, now) && Trades(t, u, None) && VolumesKept(t.assets, u.assets) && v != Broken
    requires InLine(t.settles, q) && (v == Later <==> DueLater(t, q, now)) && (v == Later ==> u == t)
    requires v == Dropped ==> Cancelled(t, u, q, now)
    requires v == Worked ==> RequestSettled(t, u, q, price, parts, dropped)
    ensures Chain(s, u, next, now)
  {
    hide Trades, Handled, VolumesKept, InLine, DueLater, RequestSettled, Cancelled;
    next := states;
    if v != Later {
      HandledBy(t, u, q, now, v, price, parts, dropped);
      TradesTransitive(s, t, u, None);
      VolumesTransitive(s.assets, t.assets, u.assets);
      next := states + [u];
    }
  }

  lemma ChainEnd(s: State, t: State, states: seq<State>, now: nat)
    requires Chain(s, t, states, now) && Backed(s)
    ensures Good(t) && Keeps(s, t) && Backed(t) && VolumesKept(s.assets, t.assets)
    ensures Uncrossed(s.limits) ==> Uncrossed(t.limits)
    ensures DustFree(s.limits) ==> DustFree(t.limits)
    ensures t.limits.Keys <= s.limits.Keys && t.calls.Keys <= s.calls.Keys && t.settles.Keys <= s.settles.Keys
    ensures |states| > 0 && states[0] == s && states[|states| - 1] == t
    ensures forall i :: 0 <= i < |states| - 1 ==> Handled(states[i], states[i + 1], now)
  {
    hide Trades, Handled, VolumesKept, Keeps, Backed;
    TradesKeep(s, t);
    TradesGood(s, t, None);
  }

  lemma NoneLeft(x: map<nat, Settlement>, q: nat)
    requires q in x
    ensures q in From(x, x[q].asset)
  {
  }

  lemma Onward(s: State, t: State, q: nat, v: Verdict, next: nat)
    requires q in s.settles && next in t.settles
    requires if v == Later then t == s && t.settles[next].asset > s.settles[q].asset
             else OthersKept(s, t, q) && t.settles[next].asset >= s.settles[q].asset
    requires v == Dropped ==> q !in t.settles
    requires v == Worked && q in t.settles ==> Room(t, q) < Room(s, q)
    requires v == Dropped || v == Worked || v == Later
    requires v == Worked && q in t.settles ==> t.settles[next].asset <= s.settles[q].asset
    ensures Further(s, t, q, next)
  {
    hide Room;
    Progress(s, t, q, v, next);
  }
}

// How margin calls go through a book: what their two cursors have yet to pass, when a bid is passed over, what the
// calls leave of the positions, and where they cannot go on.
// Source: libraries/chain/db_market.cpp:46-96, 537-667.
module Calls {
  import opened Options
  import opened Prices
  import opened Totals
  import opened Ordering
  import opened Ledger
  import opened Book
  import opened Margin
  import opened Trading
  import opened Events

  // Only position `c` changed, and if it is still there only its amounts.
  ghost predicate OnlyPosition(before: map<nat, CallOrder>, after: map<nat, CallOrder>, c: nat) {
    && c in before && after.Keys <= before.Keys
    && (forall d <- before :: d != c ==> d in after && after[d] == before[d])
    && (c in after ==> after[c] == before[c].(debt := after[c].debt, collateral := after[c].collateral))
  }

  // Positions only left.
  ghost predicate OnlyClosed(before: map<nat, CallOrder>, after: map<nat, CallOrder>) {
    after.Keys <= before.Keys && forall c <- after :: after[c] == before[c]
  }

  // Only order `o` changed, and if it is still there only its amounts.
  ghost predicate OnlyBid(before: map<nat, LimitOrder>, after: map<nat, LimitOrder>, o: nat) {
    && o in before && after.Keys <= before.Keys
    && (forall x <- before :: x != o ==> x in after && after[x] == before[x])
    && (o in after ==> Remainder(before[o], after[o]))
  }

  lemma CallTakesBid(s: State, c: nat, o: nat)
    requires Good(s) && Callable(s, c, o) && CallFilled(s, c, o).Some?
    ensures OnlyBid(s.limits, CallFilled(s, c, o).value.limits, o)
    ensures s.calls[c].debt >= s.limits[o].forSale ==> o !in CallFilled(s, c, o).value.limits
  {
    hide Good, FillCall, FillLimit, SameAssetsButFees, Less;
    GoodOrder(s, o);
    var usd := Offered(s.calls[c], s.limits[o]);
    var core := ToQuote(usd, s.limits[o].price).value;
    FillCallAssets(s, c, core, usd);
    FillLimitBook(FillCall(s, c, core, usd).value, o, usd, core, true);
  }

  // ---------- bids that are passed over ----------

  ghost predicate UsesUp(s: State, e: Event) {
    e.Called? && e.position in s.calls && e.bid in s.limits && s.calls[e.position].debt >= s.limits[e.bid].forSale
  }

  // Some call used its bid up, after which the bid cursor moves on after every call.
  ghost predicate UsedUp(s: State, events: seq<Event>)
    decreases |events|
  {
    events != []
    && var before := events[..|events| - 1];
       UsedUp(s, before) || (Replay(s, before).Some? && UsesUp(Replay(s, before).value, events[|events| - 1]))
  }

  // Some later call left its bid with something for sale: the cursor has passed that bid over.
  ghost predicate Skips(s: State, events: seq<Event>)
    decreases |events|
  {
    events != []
    && var before, last := events[..|events| - 1], events[|events| - 1];
       || Skips(s, before)
       || (UsedUp(s, before) && last.Called? && Replay(s, events).Some? && last.bid in Replay(s, events).value.limits)
  }

  lemma NoneUsed(s: State)
    ensures !UsedUp(s, []) && !Skips(s, [])
  {
  }

  lemma UsedNext(s: State, events: seq<Event>, t: State, c: nat, o: nat, u: State)
    requires Replay(s, events) == Some(t) && Replay(s, events + [Called(c, o)]) == Some(u)
    requires c in t.calls && o in t.limits
    ensures UsedUp(s, events + [Called(c, o)]) <==> UsedUp(s, events) || t.calls[c].debt >= t.limits[o].forSale
    ensures Skips(s, events + [Called(c, o)]) <==> Skips(s, events) || (UsedUp(s, events) && o in u.limits)
  {
    hide Replay;
    assert (events + [Called(c, o)])[..|events|] == events;
  }

  // ---------- what is still to be called ----------

  // Every bid that offers enough is still ahead of the cursor.
  ghost predicate BidsPending(s: State, m: nat, bids: map<nat, Price>) {
    && Open(s.assets, m) && s.assets[m].bit.value.feed.Some?
    && (forall o :: EligibleBid(s, m, o) ==> o in bids)
    && (forall o <- bids :: o in s.limits ==> EligibleBid(s, m, o) && bids[o] == Inverse(s.limits[o].price))
  }

  ghost predicate PositionsPending(calls: map<nat, CallOrder>, m: nat, todo: map<nat, Price>) {
    && (forall c :: c in calls && calls[c].debtAsset == m <==> c in todo)
    && (forall c <- todo :: todo[c] == calls[c].callPrice)
  }

  lemma BidsStart(s: State, m: nat, bids: map<nat, Price>)
    requires Open(s.assets, m) && s.assets[m].bit.value.feed.Some?
    requires bids == map o | o in s.limits && BidFor(s.limits[o], m, s.assets[m].bit.value.backing)
                             && !Less(s.limits[o].price, s.assets[m].bit.value.feed.value.squeeze) ::
                               Inverse(s.limits[o].price)
    ensures BidsPending(s, m, bids)
  {
    hide BidFor, Less;
  }

  lemma BidsMove(s: State, t: State, m: nat, bids: map<nat, Price>, bids': map<nat, Price>, o: nat)
    requires BidsPending(s, m, bids) && OnlyBid(s.limits, t.limits, o)
    requires m in t.assets && t.assets[m].bit == s.assets[m].bit
    requires bids' == bids || (bids' == bids - {o} && o !in t.limits)
    ensures BidsPending(t, m, bids')
  {
    hide Less;
  }

  lemma PositionsMove(calls: map<nat, CallOrder>, calls': map<nat, CallOrder>, m: nat, todo: map<nat, Price>, c: nat)
    requires PositionsPending(calls, m, todo) && OnlyPosition(calls, calls', c) && c in todo
    ensures PositionsPending(calls', m, if c in calls' then todo else todo - {c})
  {
  }

  lemma NobodyCalls(s: State, m: nat, bids: map<nat, Price>, todo: map<nat, Price>)
    requires BidsPending(s, m, bids) && PositionsPending(s.calls, m, todo) && (bids == map[] || todo == map[])
    ensures Calm(s, m)
  {
    hide Less, Precedes, BidFor;
  }

  lemma NotOpenCalm(s: State, m: nat)
    requires !(Open(s.assets, m) && s.assets[m].bit.value.feed.Some? && !s.assets[m].bit.value.predictionMarket)
    ensures Calm(s, m)
  {
  }

  // The first of the pending positions is the first position, and the first of the pending bids the best bid.
  lemma FirstPending(s: State, m: nat, bids: map<nat, Price>, todo: map<nat, Price>, c: nat, o: nat)
    requires BidsPending(s, m, bids) && PositionsPending(s.calls, m, todo) && c in todo && o in bids && o in s.limits
    requires forall k <- todo :: k != c ==> Precedes(todo[c], c, todo[k], k)
    requires forall k <- bids :: k != o ==> Precedes(bids[o], o, bids[k], k)
    ensures FirstPosition(s.calls, m, c) && BestEligible(s, m, o)
  {
    hide Less, Precedes, BidFor;
  }

  // The two decide.
  lemma StoppedAtFirst(s: State, m: nat, c: nat, o: nat)
    requires Open(s.assets, m) && s.assets[m].bit.value.feed.Some? && !s.assets[m].bit.value.predictionMarket
    requires FirstPosition(s.calls, m, c) && BestEligible(s, m, o)
    ensures Calm(s, m) <==>
            Less(Inverse(s.calls[c].callPrice), s.assets[m].bit.value.feed.value.price)
            || Less(Inverse(s.calls[c].callPrice), s.limits[o].price)
  {
    hide Less, Precedes, BidFor;
    forall d, x | FirstPosition(s.calls, m, d) && BestEligible(s, m, x)
      ensures d == c && x == o
    {
      if d != c {
        PrecedesAsymmetric(s.calls[c].callPrice, c, s.calls[d].callPrice, d);
      }
      if x != o {
        PrecedesAsymmetric(Inverse(s.limits[o].price), o, Inverse(s.limits[x].price), x);
      }
    }
  }

  // ---------- collateral ----------

  ghost predicate Collateralized(calls: map<nat, CallOrder>) {
    forall c <- calls :: calls[c].collateral > 0
  }

  // A call can take all collateral of a position that keeps some debt; that position is first in line then.
  ghost predicate CollateralizedButFirst(calls: map<nat, CallOrder>, m: nat) {
    forall c <- calls :: calls[c].collateral > 0 || FirstPosition(calls, m, c)
  }

  lemma CallKeepsCollateral(calls: map<nat, CallOrder>, calls': map<nat, CallOrder>, m: nat, c: nat)
    requires Collateralized(calls) && OnlyPosition(calls, calls', c) && FirstPosition(calls, m, c)
    ensures CollateralizedButFirst(calls', m)
  {
    hide Precedes;
  }

  // The next look for an uncovered position finds it.
  lemma NoSwanCollateral(s: State, m: nat)
    requires Open(s.assets, m) && s.assets[m].bit.value.feed.Some? && !Swan(s, m)
    requires CollateralizedButFirst(s.calls, m)
    ensures Collateralized(s.calls)
  {
    hide Precedes;
  }

  lemma ClosedCollateral(calls: map<nat, CallOrder>, calls': map<nat, CallOrder>, m: nat)
    requires CollateralizedButFirst(calls, m) && OnlyClosed(calls, calls') && PositionsIn(calls', m) == {}
    ensures Collateralized(calls')
  {
    hide Precedes;
    forall c | c in calls'
      ensures calls'[c].collateral > 0
    {
      assert c !in PositionsIn(calls', m);
    }
  }

  // ---------- where calls cannot go on ----------

  // What some position would have to hand over is beyond what an amount can be.
  ghost predicate Unpayable(calls: map<nat, CallOrder>, m: nat, p: Price) {
    exists c :: c in calls && calls[c].debtAsset == m && SwanPays(calls[c], p) == None
  }

  // The asset has to be settled, but that is not allowed or not possible.
  ghost predicate SwanFails(s: State, m: nat, enable: bool) {
    && Swan(s, m)
    && (!enable || exists c :: FirstPosition(s.calls, m, c)
                     && Unpayable(s.calls, m, Price(s.calls[c].debt, s.calls[c].collateral)))
  }

  // The position is due, but the amounts are out of range, a seller cannot pay its exchange, or the position is short
  // and the asset cannot be settled.
  ghost predicate CallFails(s: State, c: nat, o: nat, enable: bool) {
    && Callable(s, c, o)
    && (|| ToQuote(s.calls[c].debt, s.limits[o].price) == None
        || (Short(s, c, o)
            && (!enable || Unpayable(s.calls, s.calls[c].debtAsset,
                                     s.assets[s.calls[c].debtAsset].bit.value.feed.value.price)))
        || (!Short(s, c, o) && CallFilled(s, c, o) == None))
  }

  // The calls did `events` and then could not go on: an uncovered asset cannot be settled, the first position cannot be
  // called, or the bid that was called last has been refunded as too small while the cursor stands on it.
  ghost predicate GivesUp(s: State, events: seq<Event>, m: nat, enable: bool) {
    && Replay(s, events).Some?
    && var t := Replay(s, events).value;
       || SwanFails(t, m, enable)
       || (exists c, o :: FirstPosition(t.calls, m, c) && CallFails(t, c, o, enable))
       || (!UsedUp(s, events) && LostBid(t, events))
  }

  ghost predicate LostBid(t: State, events: seq<Event>) {
    events != [] && events[|events| - 1].Called? && events[|events| - 1].bid !in t.limits
  }

  // The calls in the one asset or, after those, the calls in the other could not go on.
  ghost predicate BothGiveUp(s: State, events: seq<Event>, a: nat, b: nat) {
    || GivesUp(s, events, a, true)
    || exists k: nat :: k <= |events| && Replay(s, events[..k]).Some?
         && GivesUp(Replay(s, events[..k]).value, events[k..], b, true)
  }

  lemma FirstGivesUp(s: State, events: seq<Event>, a: nat, b: nat)
    requires GivesUp(s, events, a, true)
    ensures BothGiveUp(s, events, a, b)
  {
    hide GivesUp;
  }

  lemma SecondGivesUp(s: State, first: seq<Event>, t: State, second: seq<Event>, a: nat, b: nat)
    requires Replay(s, first) == Some(t) && GivesUp(t, second, b, true)
    ensures BothGiveUp(s, first + second, a, b)
  {
    hide GivesUp, Replay;
    assert (first + second)[..|first|] == first && (first + second)[|first|..] == second;
  }

  // After the trades in `events` the taker meets an order, but the amounts of the trade are out of range or one of the
  // sellers cannot pay its exchange.
  ghost predicate MatchFails(s: State, events: seq<Event>, taker: nat) {
    && Replay(s, events).Some?
    && var t := Replay(s, events).value;
       exists maker :: taker in t.limits && maker in t.limits && taker != maker
         && Meets(t.limits[taker], t.limits[maker]) && Sound(t.limits, t.assets) && FeesBounded(t.assets)
         && MatchLimits(t, taker, maker) == None
  }

  // A new order can fail in the calls before the trade, in the trade, in the calls after it, or when it is worked out
  // what is left of it would buy.
  ghost predicate OrderFails(s: State, id: nat, tr: OrderTrace) {
    && id in s.limits
    && var sells, wants := s.limits[id].sells, s.limits[id].wants;
       || BothGiveUp(s, tr.before, sells, wants)
       || (CalledBoth(s, tr.before, tr.called, sells, wants) && id in tr.called.limits
           && (|| MatchFails(tr.called, tr.matched, id)
               || (TookFromBook(tr.called, tr.matched, tr.traded, id)
                   && (|| BothGiveUp(tr.traded, tr.after, sells, wants)
                       || (CalledBoth(tr.traded, tr.after, tr.final, sells, wants) && id in tr.final.limits
                           && ToQuote(tr.final.limits[id].forSale, tr.final.limits[id].price) == None)))))
  }

  lemma GivesUpAtSwan(s: State, events: seq<Event>, t: State, m: nat, enable: bool)
    requires Replay(s, events) == Some(t) && SwanFails(t, m, enable)
    ensures GivesUp(s, events, m, enable)
  {
  }

  lemma GivesUpAtCall(s: State, events: seq<Event>, t: State, m: nat, c: nat, o: nat, enable: bool)
    requires Replay(s, events) == Some(t) && FirstPosition(t.calls, m, c) && CallFails(t, c, o, enable)
    ensures GivesUp(s, events, m, enable)
  {
    hide FirstPosition, CallFails;
  }

  // ---------- the loop over the two cursors ----------

  // After `events` the state is `t`, and the cursors have `bids` and `todo` yet to pass.
  ghost predicate Turning(s: State, events: seq<Event>, t: State, m: nat, bids: map<nat, Price>, todo: map<nat, Price>,
                          passing: bool) {
    && Replay(s, events) == Some(t)
    && (passing <==> UsedUp(s, events))
    && (!Skips(s, events) ==> BidsPending(t, m, bids))
    && PositionsPending(t.calls, m, todo)
    && (forall x <- bids :: x !in t.limits ==> !passing && Current(bids, x) && LastCalled(events, x))
    && (Collateralized(s.calls) ==> CollateralizedButFirst(t.calls, m))
  }

  ghost predicate Current(bids: map<nat, Price>, x: nat)
    requires x in bids
  {
    forall k <- bids :: k != x ==> Precedes(bids[x], x, bids[k], k)
  }

  ghost predicate LastCalled(events: seq<Event>, x: nat) {
    events != [] && events[|events| - 1].Called? && events[|events| - 1].bid == x
  }

  lemma TurnsStart(s: State, m: nat, bids: map<nat, Price>, todo: map<nat, Price>)
    requires BidsPending(s, m, bids) && PositionsPending(s.calls, m, todo) && forall o <- bids :: o in s.limits
    ensures Turning(s, [], s, m, bids, todo, false)
  {
    hide BidsPending, PositionsPending, FirstPosition;
    NoneUsed(s);
  }

  lemma TurnReplays(s: State, events: seq<Event>, t: State, m: nat, bids: map<nat, Price>, todo: map<nat, Price>,
                    passing: bool)
    requires Turning(s, events, t, m, bids, todo, passing)
    ensures Replay(s, events) == Some(t)
  {
  }

  lemma TurnSettled(s: State, events: seq<Event>, t: State, u: State, m: nat, bids: map<nat, Price>,
                    todo: map<nat, Price>, passing: bool)
    requires Turning(s, events, t, m, bids, todo, passing) && OnlyClosed(t.calls, u.calls)
    requires PositionsIn(u.calls, m) == {}
    ensures Collateralized(s.calls) ==> Collateralized(u.calls)
  {
    hide Collateralized, CollateralizedButFirst, OnlyClosed, PositionsIn, BidsPending, PositionsPending, Skips, UsedUp,
         Replay;
    if Collateralized(s.calls) {
      ClosedCollateral(t.calls, u.calls, m);
    }
  }

  lemma TurnCovered(s: State, events: seq<Event>, t: State, m: nat, bids: map<nat, Price>, todo: map<nat, Price>,
                    passing: bool)
    requires Turning(s, events, t, m, bids, todo, passing) && !Swan(t, m)
    requires Open(t.assets, m) && t.assets[m].bit.value.feed.Some?
    ensures Collateralized(s.calls) ==> Collateralized(t.calls)
  {
    hide Collateralized, CollateralizedButFirst, BidsPending, PositionsPending, Skips, UsedUp, Replay, Swan;
    if Collateralized(s.calls) {
      NoSwanCollateral(t, m);
    }
  }

  lemma TurnIdle(s: State, events: seq<Event>, t: State, m: nat, bids: map<nat, Price>, todo: map<nat, Price>,
                 passing: bool)
    requires Turning(s, events, t, m, bids, todo, passing) && (bids == map[] || todo == map[])
    ensures !Skips(s, events) ==> Calm(t, m)
  {
    hide BidsPending, PositionsPending, Skips, UsedUp, Replay, Calm;
    if !Skips(s, events) {
      NobodyCalls(t, m, bids, todo);
    }
  }

  lemma TurnLost(s: State, events: seq<Event>, t: State, m: nat, bids: map<nat, Price>, todo: map<nat, Price>,
                 passing: bool, o: nat, enable: bool)
    requires Turning(s, events, t, m, bids, todo, passing) && o in bids && o !in t.limits
    ensures GivesUp(s, events, m, enable) && events != []
  {
    hide BidsPending, PositionsPending, Skips, UsedUp, Replay, SwanFails, FirstPosition, CallFails;
  }

  // The first pending position is called first, and if no bid was passed over it is the best bid that calls it.
  lemma TurnFirst(s: State, events: seq<Event>, t: State, m: nat, bids: map<nat, Price>, todo: map<nat, Price>,
                  passing: bool, c: nat, o: nat)
    requires Turning(s, events, t, m, bids, todo, passing)
    requires Open(t.assets, m) && t.assets[m].bit.value.feed.Some? && !t.assets[m].bit.value.predictionMarket
    requires c in todo && (forall k <- todo :: k != c ==> Precedes(todo[c], c, todo[k], k))
    requires o in bids && o in t.limits && Current(bids, o)
    ensures FirstPosition(t.calls, m, c)
    ensures !Skips(s, events) ==>
              (Calm(t, m) <==> Less(Inverse(t.calls[c].callPrice), t.assets[m].bit.value.feed.value.price)
                               || Less(Inverse(t.calls[c].callPrice), t.limits[o].price))
  {
    hide Skips, UsedUp, Replay, Calm, BidsPending, Precedes, BestEligible, Less;
    if !Skips(s, events) {
      FirstPending(t, m, bids, todo, c, o);
      StoppedAtFirst(t, m, c, o);
    }
  }

  // One position has been called.
  lemma TurnNext(s: State, events: seq<Event>, t: State, u: State, m: nat, bids: map<nat, Price>, todo: map<nat, Price>,
                 passing: bool, c: nat, o: nat)
    requires Turning(s, events, t, m, bids, todo, passing) && Good(t)
    requires Callable(t, c, o) && !Short(t, c, o) && CallFilled(t, c, o) == Some(u)
    requires OnlyPosition(t.calls, u.calls, c) && c in todo && FirstPosition(t.calls, m, c)
    requires o in bids && Current(bids, o)
    requires m in u.assets && m in t.assets && u.assets[m].bit == t.assets[m].bit
    requires Collateralized(s.calls) ==> Collateralized(t.calls)
    ensures c in t.calls && o in t.limits
    ensures var passing' := passing || t.calls[c].debt >= t.limits[o].forSale;
            Turning(s, events + [Called(c, o)], u, m, if passing' then bids - {o} else bids,
                    if c in u.calls then todo else todo - {c}, passing')
  {
    hide Good, BidsPending, PositionsPending, Skips, UsedUp, Replay, CallFilled, Collateralized, CollateralizedButFirst,
         OnlyPosition, FirstPosition, Precedes, Callable, Short;
    CallableThere(t, c, o);
    var passing' := passing || t.calls[c].debt >= t.limits[o].forSale;
    var bids' := if passing' then bids - {o} else bids;
    CallReplays(t, u, c, o);
    ReplayThen(s, events, t, [Called(c, o)]);
    UsedNext(s, events, t, c, o, u);
    CallTakesBid(t, c, o);
    if !Skips(s, events + [Called(c, o)]) {
      BidsMove(t, u, m, bids, bids', o);
    }
    PositionsMove(t.calls, u.calls, m, todo, c);
    forall x | x in bids' && x !in u.limits
      ensures !passing' && Current(bids', x) && LastCalled(events + [Called(c, o)], x)
    {
      if x != o && x !in t.limits {
        PrecedesAsymmetric(bids[x], x, bids[o], o);
      }
    }
    if Collateralized(s.calls) {
      CallKeepsCollateral(t.calls, u.calls, m, c);
    }
  }

  lemma CallableThere(s: State, c: nat, o: nat)
    requires Callable(s, c, o)
    ensures c in s.calls && o in s.limits
  {
  }

  lemma CallReplays(s: State, t: State, c: nat, o: nat)
    requires Callable(s, c, o) && !Short(s, c, o) && CallFilled(s, c, o) == Some(t)
    ensures Replay(s, [Called(c, o)]) == Some(t)
  {
    hide CallFilled;
    ReplayOne(s, Called(c, o));
  }

  lemma PositionsStart(calls: map<nat, CallOrder>, m: nat, todo: map<nat, Price>)
    requires todo == map c | c in calls && calls[c].debtAsset == m :: calls[c].callPrice
    ensures PositionsPending(calls, m, todo)
  {
  }

  // A settled asset has nothing to call, and settling it takes no collateral off the positions in others.
  lemma SettledCalm(s: State, t: State, m: nat)
    requires !Open(t.assets, m)
    ensures Calm(t, m)
    ensures OnlyClosed(s.calls, t.calls) && Collateralized(s.calls) ==> Collateralized(t.calls)
  {
    NotOpenCalm(t, m);
  }

  lemma SwanOpen(s: State, m: nat)
    ensures Swan(s, m) ==> Open(s.assets, m)
  {
  }

  // ---------- a book in which a bid is passed over ----------

  const PAR: Price := Price(1, 1)
  const CROWDED_ASSETS: map<nat, Asset> :=
    map[CORE := Asset(1000, 0, 0, 0, None),
        1 := Asset(30, 0, 0, 0, Some(BitAsset(CORE, Some(Feed(PAR, Price(1, 2))), false, 0, None, 0, 0, 0)))]

  function Debtor(who: nat): CallOrder {
    CallOrder(who, 1, CORE, 10, 100, PAR)
  }

  function Seller(forSale: nat): LimitOrder {
    LimitOrder(7, 1, CORE, forSale, PAR, 0, None)
  }

  // Three positions of 10 are due, and two bids of 10 and 20 offer what they need.
  const CROWDED: State :=
    State(map[], map[0 := Seller(10), 1 := Seller(20)], map[0 := Debtor(0), 1 := Debtor(1), 2 := Debtor(2)], map[],
          CROWDED_ASSETS, 0, map[])
  const ONE_CALLED: State :=
    State(map[(0, CORE) := 90, (7, CORE) := 10], map[1 := Seller(20)], map[1 := Debtor(1), 2 := Debtor(2)], map[],
          CROWDED_ASSETS[1 := CROWDED_ASSETS[1].(supply := 20)], 0, map[])
  const TWO_CALLED: State :=
    State(map[(0, CORE) := 90, (7, CORE) := 20, (1, CORE) := 90], map[1 := Seller(10)], map[2 := Debtor(2)], map[],
          CROWDED_ASSETS[1 := CROWDED_ASSETS[1].(supply := 10)], 0, map[])

  lemma FirstCallDue()
    ensures Callable(CROWDED, 0, 0) && !Short(CROWDED, 0, 0)
  {
  }

  lemma FirstCallFills()
    ensures Callable(CROWDED, 0, 0) && !Short(CROWDED, 0, 0) && CallFilled(CROWDED, 0, 0) == Some(ONE_CALLED)
  {
    hide Callable, Short;
    FirstCallDue();
    var t := FillCall(CROWDED, 0, 10, 10).value;
    assert t.balances == map[(0, CORE) := 90];
    assert t.calls == ONE_CALLED.calls;
    assert t.assets == ONE_CALLED.assets;
    var u := PayProceeds(t, Seller(10), 10).value;
    assert u.balances == ONE_CALLED.balances;
    assert u.assets == t.assets;
    assert u.limits - {0} == ONE_CALLED.limits;
  }

  lemma SecondCallDue()
    ensures Callable(ONE_CALLED, 1, 1) && !Short(ONE_CALLED, 1, 1)
  {
  }

  lemma SecondCallFills()
    ensures Callable(ONE_CALLED, 1, 1) && !Short(ONE_CALLED, 1, 1) && CallFilled(ONE_CALLED, 1, 1) == Some(TWO_CALLED)
  {
    hide Callable, Short;
    SecondCallDue();
    var t := FillCall(ONE_CALLED, 1, 10, 10).value;
    assert t.calls == TWO_CALLED.calls;
    assert t.assets == TWO_CALLED.assets;
    var u := PayProceeds(t, Seller(20), 10).value;
    assert u.balances == TWO_CALLED.balances;
    assert u.assets == t.assets;
    assert u.limits[1 := Seller(10)] == TWO_CALLED.limits;
  }

  lemma CrowdedGood(s: State)
    requires s == CROWDED || s == ONE_CALLED
    ensures Good(s) && Collateralized(s.calls)
  {
    hide SoundState, DebtIsSupply, Solvent;
    CrowdedSound(s);
    CrowdedSolvent(s);
    CrowdedDebt(s);
  }

  lemma CrowdedSound(s: State)
    requires s == CROWDED || s == ONE_CALLED
    ensures SoundState(s)
  {
    if s == CROWDED {
      assert s.limits.Keys == {0, 1};
    } else {
      assert s.limits.Keys == {1};
    }
  }

  lemma CrowdedSolvent(s: State)
    requires s == CROWDED || s == ONE_CALLED
    ensures Solvent(s)
  {
  }

  lemma CrowdedDebt(s: State)
    requires s == CROWDED || s == ONE_CALLED
    ensures DebtIsSupply(s)
  {
    hide Debt;
    DebtsAddUp();
  }

  lemma DebtsAddUp()
    ensures Debt(CROWDED, 1) == 30 && Debt(ONE_CALLED, 1) == 20
  {
    hide Total;
    var none: map<nat, CallOrder> := map[];
    TotalZero(none, DebtIn(1));
    TotalUpdate(none, 2, Debtor(2), DebtIn(1));
    var two := none[2 := Debtor(2)];
    TotalUpdate(two, 1, Debtor(1), DebtIn(1));
    assert two[1 := Debtor(1)] == ONE_CALLED.calls;
    TotalUpdate(ONE_CALLED.calls, 0, Debtor(0), DebtIn(1));
    assert ONE_CALLED.calls[0 := Debtor(0)] == CROWDED.calls;
  }

  lemma CrowdedStarts()
    ensures Turning(CROWDED, [], CROWDED, 1, map[0 := PAR, 1 := PAR], map[0 := PAR, 1 := PAR, 2 := PAR], false)
  {
    hide Turning;
    TurnsStart(CROWDED, 1, map[0 := PAR, 1 := PAR], map[0 := PAR, 1 := PAR, 2 := PAR]);
  }

  lemma FirstTurn()
    ensures Turning(CROWDED, [Called(0, 0)], ONE_CALLED, 1, map[1 := PAR], map[1 := PAR, 2 := PAR], true)
  {
    hide Good, CallFilled, Callable, Short, Replay, UsedUp, Skips, Turning, Collateralized, CollateralizedButFirst;
    var bids, todo := map[0 := PAR, 1 := PAR], map[0 := PAR, 1 := PAR, 2 := PAR];
    CrowdedGood(CROWDED);
    CrowdedStarts();
    FirstCallFills();
    TurnNext(CROWDED, [], CROWDED, ONE_CALLED, 1, bids, todo, false, 0, 0);
    assert [] + [Called(0, 0)] == [Called(0, 0)];
    assert bids - {0} == map[1 := PAR] && todo - {0} == map[1 := PAR, 2 := PAR];
  }

  lemma SecondTurn()
    ensures Turning(CROWDED, [Called(0, 0), Called(1, 1)], TWO_CALLED, 1, map[], map[2 := PAR], true)
  {
    hide Good, CallFilled, Callable, Short, Replay, UsedUp, Skips, Turning, Collateralized, CollateralizedButFirst;
    var bids, todo := map[1 := PAR], map[1 := PAR, 2 := PAR];
    CrowdedGood(ONE_CALLED);
    FirstTurn();
    SecondCallFills();
    TurnNext(CROWDED, [Called(0, 0)], ONE_CALLED, TWO_CALLED, 1, bids, todo, true, 1, 1);
    assert [Called(0, 0)] + [Called(1, 1)] == [Called(0, 0), Called(1, 1)];
    assert bids - {1} == map[] && todo - {1} == map[2 := PAR];
  }

  lemma StillDue()
    ensures FirstPosition(TWO_CALLED.calls, 1, 2) && BestEligible(TWO_CALLED, 1, 1) && !Calm(TWO_CALLED, 1)
  {
    hide Calm;
    StoppedAtFirst(TWO_CALLED, 1, 2, 1);
  }

  // The first call uses up its bid and its position. The second fills its position from a bid that has 10 left, and
  // the cursor moves past that bid: it stands at the end, though the third position is due and the bid would serve it.
  lemma BidPassedOver()
    ensures Good(CROWDED) && Collateralized(CROWDED.calls)
    ensures var events := [Called(0, 0), Called(1, 1)];
            && Turning(CROWDED, events, TWO_CALLED, 1, map[], map[2 := PAR], true) && Skips(CROWDED, events)
            && FirstPosition(TWO_CALLED.calls, 1, 2) && BestEligible(TWO_CALLED, 1, 1) && !Calm(TWO_CALLED, 1)
  {
    hide Good, CallFilled, Callable, Short, Replay, UsedUp, Skips, Turning, Collateralized, CollateralizedButFirst,
         FirstPosition, BestEligible, Calm;
    CrowdedGood(CROWDED);
    FirstTurn();
    SecondTurn();
    StillDue();
    TurnReplays(CROWDED, [Called(0, 0)], ONE_CALLED, 1, map[1 := PAR], map[1 := PAR, 2 := PAR], true);
    TurnReplays(CROWDED, [Called(0, 0), Called(1, 1)], TWO_CALLED, 1, map[], map[2 := PAR], true);
    TurnUsed(CROWDED, [Called(0, 0)], ONE_CALLED, 1, map[1 := PAR], map[1 := PAR, 2 := PAR]);
    assert [Called(0, 0)] + [Called(1, 1)] == [Called(0, 0), Called(1, 1)];
    UsedNext(CROWDED, [Called(0, 0)], ONE_CALLED, 1, 1, TWO_CALLED);
  }

  lemma TurnUsed(s: State, events: seq<Event>, t: State, m: nat, bids: map<nat, Price>, todo: map<nat, Price>)
    requires Turning(s, events, t, m, bids, todo, true)
    ensures UsedUp(s, events)
  {
  }
}

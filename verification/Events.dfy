// What may happen on the market between two operations of a user, event by event. The loops of the node are
// proved to do exactly a list of such events.
// Source: libraries/chain/db_market.cpp:46-96, 174-193, 290-328, 584-664, libraries/chain/db_update.cpp:200-255.
module Events {
  import opened Options
  import opened Prices
  import opened Ordering
  import opened Ledger
  import opened Book
  import opened Margin
  import opened Trading

  datatype Event =
    | Matched(taker: nat, maker: nat)
    | Called(position: nat, bid: nat)
    | Closed(asset: nat, price: Price, order: seq<nat>)
    | Culled(id: nat)

  // ---------- margin calls ----------

  function Offered(c: CallOrder, o: LimitOrder): nat {
    if c.debt >= o.forSale then o.forSale else c.debt
  }

  // The bid offers at least the squeeze price, and neither it nor the feed is better than the call price.
  ghost predicate Callable(s: State, c: nat, o: nat) {
    && c in s.calls && o in s.limits && FeesBounded(s.assets)
    && Open(s.assets, s.calls[c].debtAsset) && s.assets[s.calls[c].debtAsset].bit.value.feed.Some?
    && !s.assets[s.calls[c].debtAsset].bit.value.predictionMarket
    && BidFor(s.limits[o], s.calls[c].debtAsset, s.calls[c].collateralAsset) && s.limits[o].wants in s.assets
    && var feed := s.assets[s.calls[c].debtAsset].bit.value.feed.value;
       var callPrice := Inverse(s.calls[c].callPrice);
       !Less(s.limits[o].price, feed.squeeze) && !Less(callPrice, feed.price) && !Less(callPrice, s.limits[o].price)
  }

  // Even all of the collateral would not buy back the debt from the bid.
  ghost predicate Short(s: State, c: nat, o: nat) {
    && Callable(s, c, o)
    && ToQuote(s.calls[c].debt, s.limits[o].price).Some?
    && ToQuote(s.calls[c].debt, s.limits[o].price).value > s.calls[c].collateral
  }

  ghost function CallFilled(s: State, c: nat, o: nat): Option<State>
    requires Callable(s, c, o)
  {
    match ToQuote(Offered(s.calls[c], s.limits[o]), s.limits[o].price)
    case None => None
    case Some(core) =>
      match MarginFill(s, c, o, Offered(s.calls[c], s.limits[o]), core)
      case None => None
      case Some(r) => Some(r.0)
  }

  // ---------- global settlement ----------

  // Positions of `m` closed one after the other, and the collateral gathered.
  ghost function ClosedSeq(s: State, m: nat, p: Price, order: seq<nat>): Option<(State, nat)>
    decreases |order|
  {
    if order == [] then Some((s, 0))
    else
      match ClosedSeq(s, m, p, order[..|order| - 1])
      case None => None
      case Some(r) => ClosedOne(r.0, m, p, order[|order| - 1], r.1)
  }

  ghost function ClosedOne(s: State, m: nat, p: Price, c: nat, gathered: nat): Option<(State, nat)> {
    if c !in s.calls || s.calls[c].debtAsset != m || m !in s.assets then None
    else
      match SwanPays(s.calls[c], p)
      case None => None
      case Some(pays) =>
        match FillCall(s, c, pays, s.calls[c].debt)
        case None => None
        case Some(t) => Some((t, gathered + pays))
  }

  // All of them, whereupon what was gathered becomes the fund and the supply is what it was.
  ghost function GloballySettled(s: State, m: nat, p: Price, order: seq<nat>): Option<State> {
    match ClosedSeq(s, m, p, order)
    case None => None
    case Some(r) =>
      if Open(s.assets, m) && s.assets[m].supply >= 0 && Open(r.0.assets, m) && PositionsIn(r.0.calls, m) == {}
      then Some(FinishGlobalSettlement(r.0, m, r.1, s.assets[m].supply)) else None
  }

  // Why an asset may be settled: its first position is not covered, or a call came up short.
  ghost predicate Doomed(s: State, m: nat, p: Price) {
    && Open(s.assets, m) && s.assets[m].bit.value.feed.Some?
    && (|| (Swan(s, m)
            && exists c :: FirstPosition(s.calls, m, c) && p == Price(s.calls[c].debt, s.calls[c].collateral))
        || (p == s.assets[m].bit.value.feed.value.price && exists c, o :: Short(s, c, o) && s.calls[c].debtAsset == m))
  }

  // ---------- events in sequence ----------

  // None: the event could not have happened.
  ghost function After(s: State, e: Event): Option<State> {
    match e
    case Matched(taker, maker) =>
      if taker in s.limits && maker in s.limits && taker != maker && Meets(s.limits[taker], s.limits[maker])
         && Sound(s.limits, s.assets) && FeesBounded(s.assets)
      then
        match MatchLimits(s, taker, maker)
        case None => None
        case Some(r) => Some(r.0)
      else None
    case Called(c, o) => if Callable(s, c, o) && !Short(s, c, o) then CallFilled(s, c, o) else None
    case Closed(m, p, order) => if Doomed(s, m, p) then GloballySettled(s, m, p, order) else None
    case Culled(id) =>
      if id in s.limits && ToQuote(s.limits[id].forSale, s.limits[id].price) == Some(0) then Some(CancelLimit(s, id))
        else None
  }

  ghost function Replay(s: State, events: seq<Event>): Option<State>
    decreases |events|
  {
    if events == [] then Some(s)
    else
      match Replay(s, events[..|events| - 1])
      case None => None
      case Some(t) => After(t, events[|events| - 1])
  }

  lemma ReplayOne(s: State, e: Event)
    ensures Replay(s, [e]) == After(s, e)
  {
    hide After;
    assert [e][..0] == [];
  }

  lemma {:induction false} ReplayThen(s: State, first: seq<Event>, t: State, second: seq<Event>)
    requires Replay(s, first) == Some(t)
    ensures Replay(s, first + second) == Replay(t, second)
    decreases |second|
  {
    hide After;
    if second == [] {
      assert first + second == first;
    } else {
      assert (first + second)[..|first + second| - 1] == first + second[..|second| - 1];
      ReplayThen(s, first, t, second[..|second| - 1]);
    }
  }

  lemma ReplayNext(s: State, events: seq<Event>, t: State, e: Event)
    requires Replay(s, events) == Some(t)
    ensures Replay(s, events + [e]) == After(t, e)
  {
    hide After;
    ReplayThen(s, events, t, [e]);
    ReplayOne(t, e);
  }

  lemma ClosedNext(s: State, m: nat, p: Price, order: seq<nat>, t: State, gathered: nat, c: nat)
    requires ClosedSeq(s, m, p, order) == Some((t, gathered))
    ensures ClosedSeq(s, m, p, order + [c]) == ClosedOne(t, m, p, c, gathered)
  {
    hide ClosedOne;
    assert (order + [c])[..|order|] == order;
  }

  // ---------- when nothing is to be called ----------

  ghost predicate EligibleBid(s: State, m: nat, o: nat)
    requires Open(s.assets, m) && s.assets[m].bit.value.feed.Some?
  {
    && o in s.limits && BidFor(s.limits[o], m, s.assets[m].bit.value.backing)
    && !Less(s.limits[o].price, s.assets[m].bit.value.feed.value.squeeze)
  }

  // The best of the bids that offer enough.
  ghost predicate BestEligible(s: State, m: nat, o: nat)
    requires Open(s.assets, m) && s.assets[m].bit.value.feed.Some?
  {
    EligibleBid(s, m, o)
    && forall x :: EligibleBid(s, m, x) && x != o ==>
      Precedes(Inverse(s.limits[o].price), o, Inverse(s.limits[x].price), x)
  }

  // The first position and the best bid, if there are both, do not call for a trade.
  ghost predicate Calm(s: State, m: nat) {
    Open(s.assets, m) && s.assets[m].bit.value.feed.Some? && !s.assets[m].bit.value.predictionMarket ==>
      forall c, o :: FirstPosition(s.calls, m, c) && BestEligible(s, m, o) ==>
        var callPrice := Inverse(s.calls[c].callPrice);
        Less(callPrice, s.assets[m].bit.value.feed.value.price) || Less(callPrice, s.limits[o].price)
  }

  // ---------- the life of a new order ----------

  // Margin calls in both assets; if none came about, none was due.
  ghost predicate CalledBoth(s: State, events: seq<Event>, t: State, a: nat, b: nat) {
    Replay(s, events) == Some(t) && (events == [] ==> Calm(t, a) && Calm(t, b))
  }

  // The order took from the book until it was gone or nothing met it.
  ghost predicate TookFromBook(s: State, events: seq<Event>, t: State, id: nat) {
    && Replay(s, events) == Some(t)
    && (forall e <- events :: e.Matched? && e.taker == id)
    && (id in t.limits ==> forall i <- t.limits :: !Meets(t.limits[id], t.limits[i]))
  }

  datatype OrderTrace = OrderTrace(before: seq<Event>, called: State, matched: seq<Event>, traded: State,
                                   after: seq<Event>, final: State)

  // Calls, then the book, then calls again, then what is left is refunded if it buys nothing. An order that the
  // first calls used up goes no further.
  ghost predicate OrderApplied(s: State, t: State, id: nat, tr: OrderTrace) {
    && id in s.limits
    && var sells, wants := s.limits[id].sells, s.limits[id].wants;
       && CalledBoth(s, tr.before, tr.called, sells, wants)
       && if id !in tr.called.limits then t == tr.called
          else
            && TookFromBook(tr.called, tr.matched, tr.traded, id)
            && CalledBoth(tr.traded, tr.after, tr.final, sells, wants)
            && t == if id in tr.final.limits
                       && ToQuote(tr.final.limits[id].forSale, tr.final.limits[id].price) == Some(0)
                    then CancelLimit(tr.final, id) else tr.final
  }
}

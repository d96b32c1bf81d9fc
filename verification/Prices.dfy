// Price arithmetic and the matching of two limit orders.
// Source: libraries/chain/protocol/asset.cpp, libraries/chain/db_market.cpp:290-328.
module Prices {
  import opened Options
  import opened Arithmetic
  import opened Config

  // `base` units of the one asset against `quote` units of the other; order prices are validated positive.
  datatype Price = Price(base: nat, quote: nat)

  ghost predicate ValidPrice(p: Price) {
    p.base > 0 && p.quote > 0
  }

  function Capped(x: nat): Option<nat> {
    if x <= MAX_SHARE_SUPPLY then Some(x) else None
  }

  // An amount of the base asset times the price, in the quote asset; None is a failed check.
  function ToQuote(a: nat, p: Price): Option<nat> {
    if p.base == 0 then None else Capped(a * p.quote / p.base)
  }

  // An amount of the quote asset times the price, in the base asset.
  function ToBase(a: nat, p: Price): Option<nat> {
    if p.quote == 0 then None else Capped(a * p.base / p.quote)
  }

  // An amount of the quote asset is what the price gives for `a` if it is the whole part, and within the share limit.
  lemma ToQuoteIff(a: nat, p: Price, x: nat)
    ensures ToQuote(a, p) == Some(x) <==>
            p.base > 0 && x <= MAX_SHARE_SUPPLY && x * p.base <= a * p.quote < (x + 1) * p.base
  {
    if p.base > 0 {
      FloorIff(a * p.quote, p.base, x);
    }
  }

  lemma ToBaseIff(a: nat, p: Price, x: nat)
    ensures ToBase(a, p) == Some(x) <==>
            p.quote > 0 && x <= MAX_SHARE_SUPPLY && x * p.quote <= a * p.base < (x + 1) * p.quote
  {
    if p.quote > 0 {
      FloorIff(a * p.base, p.quote, x);
    }
  }

  // Prices of one market compare by cross multiplication.
  predicate Less(p: Price, q: Price) {
    p.base * q.quote < q.base * p.quote
  }

  function Inverse(p: Price): Price {
    Price(p.quote, p.base)
  }

  // Two opposite orders meet when the maker's price is at least the inverse of the taker's.
  predicate Crosses(taker: Price, maker: Price) {
    maker.base * taker.base >= taker.quote * maker.quote
  }

  // As fractions: the order of prices, and that the maker offers at least the inverse of the taker's price.
  lemma LessAsFractions(p: Price, q: Price)
    requires p.quote > 0 && q.quote > 0
    ensures Less(p, q) <==> p.base as real / p.quote as real < q.base as real / q.quote as real
  {
    FractionsCompare(p.base as real, p.quote as real, q.base as real, q.quote as real);
  }

  lemma FractionsCompare(a: real, b: real, c: real, d: real)
    requires b > 0.0 && d > 0.0
    ensures a / b < c / d <==> a * d < c * b
  {
    var x, y := a / b, c / d;
    assert x * b * d == a * d && y * d * b == c * b;
    if x < y {
      assert (y - x) * (b * d) > 0.0;
    } else {
      assert (x - y) * (b * d) >= 0.0;
    }
  }

  lemma CrossesAsFractions(taker: Price, maker: Price)
    requires ValidPrice(taker) && ValidPrice(maker)
    ensures Crosses(taker, maker) <==>
            maker.base as real / maker.quote as real >= taker.quote as real / taker.base as real
  {
    FractionsCompare(maker.base as real, maker.quote as real, taker.quote as real, taker.base as real);
  }

  // ---------- one match ----------

  datatype Trade = Trade(takerPays: nat, makerPays: nat)

  // The trade at the maker's price: the maker sells the price's base asset, the taker its quote asset.
  function Match(takerForSale: nat, makerForSale: nat, p: Price): Option<Trade> {
    match ToQuote(makerForSale, p)
    case None => None
    case Some(makerWants) =>
      if takerForSale <= makerWants then
        match ToBase(takerForSale, p)
        case None => None
        case Some(got) => Some(Trade(takerForSale, got))
      else
        Some(Trade(makerWants, makerForSale))
  }

  // Multiplying floors back never exceeds what was there.
  lemma FloorRoundTrip(t: nat, m: nat, p: Price)
    requires ValidPrice(p) && t <= m * p.quote / p.base
    ensures t * p.base / p.quote <= m
  {
    FloorBounds(m, p.quote, p.base);
    FloorBounds(t, p.base, p.quote);
    assert t * p.base <= (m * p.quote / p.base) * p.base <= m * p.quote;
    CancelFactor(t * p.base / p.quote, m, p.quote);
  }

  // Neither order pays more than it has for sale and at least one pays all of it.
  lemma MatchConsumes(t: nat, m: nat, p: Price)
    requires ValidPrice(p) && Match(t, m, p).Some?
    ensures var r := Match(t, m, p).value;
            && r.takerPays <= t && r.makerPays <= m
            && (r.takerPays == t || r.makerPays == m)
            && (r.takerPays < t ==> r.makerPays == m)
  {
    if t <= m * p.quote / p.base {
      FloorRoundTrip(t, m, p);
    }
  }

  // The order that is not used up never trades at worse than the match price, and rounding costs
  // the order that is used up less than one unit.
  lemma MatchIsFair(t: nat, m: nat, p: Price)
    requires ValidPrice(p) && Match(t, m, p).Some?
    ensures var r := Match(t, m, p).value;
            && (r.makerPays < m ==>
                 r.takerPays == t && r.makerPays * p.quote <= t * p.base < (r.makerPays + 1) * p.quote)
            && (r.takerPays < t ==>
                 r.makerPays == m && r.takerPays * p.base <= m * p.quote < (r.takerPays + 1) * p.base)
  {
    MatchConsumes(t, m, p);
    FloorBounds(m, p.quote, p.base);
    FloorBounds(t, p.base, p.quote);
  }

  // The trade in numbers: if all the taker has is worth no more than what the maker has, it pays all of it for the
  // whole part of its worth; otherwise the maker pays all it has for the whole part of its worth. It fails only if
  // a worth exceeds the share limit.
  lemma MatchIff(t: nat, m: nat, p: Price, trade: Trade)
    requires ValidPrice(p)
    ensures Match(t, m, p) == Some(trade) <==>
            && m * p.quote < (MAX_SHARE_SUPPLY + 1) * p.base
            && if t * p.base <= m * p.quote
               then
                 && trade.takerPays == t && trade.makerPays <= MAX_SHARE_SUPPLY
                 && trade.makerPays * p.quote <= t * p.base < (trade.makerPays + 1) * p.quote
               else
                 && trade.makerPays == m
                 && trade.takerPays * p.base <= m * p.quote < (trade.takerPays + 1) * p.base
  {
    var wants := m * p.quote / p.base;
    FloorIff(m * p.quote, p.base, wants);
    FloorIff(m * p.quote, p.base, trade.takerPays);
    FloorIff(t * p.base, p.quote, trade.makerPays);
    FloorIff(t * p.base, p.quote, t * p.base / p.quote);
    if t <= wants {
      MulMonotone(t, wants, p.base);
    } else {
      MulMonotone(wants + 1, t, p.base);
    }
    if wants <= MAX_SHARE_SUPPLY {
      MulMonotone(wants + 1, MAX_SHARE_SUPPLY + 1, p.base);
    } else {
      MulMonotone(MAX_SHARE_SUPPLY + 1, wants, p.base);
    }
  }

  // An order whose whole amount would buy nothing at its own price.
  predicate IsDust(forSale: int, p: Price) {
    forSale * p.quote < p.base
  }

  lemma AtLeastOne(x: nat, d: nat)
    requires d > 0
    ensures x / d >= 1 <==> x >= d
  {
  }

  lemma DustBuysNothing(forSale: nat, p: Price)
    requires ValidPrice(p)
    ensures IsDust(forSale, p) <==> forSale * p.quote / p.base == 0
  {
    AtLeastOne(forSale * p.quote, p.base);
  }

  // More than the floor of a share is more than the share.
  lemma AboveFloor(t: nat, x: nat, d: nat)
    requires d > 0 && t > x / d
    ensures t * d > x
  {
    assert x == d * (x / d) + x % d;
    assert t * d >= (x / d + 1) * d;
  }

  lemma Grows(m: nat, q: nat)
    requires m > 0
    ensures m * q >= q
  {
  }

  // Against a maker that is not dust the taker always pays something; it pays for nothing exactly
  // when its whole remainder is worth less than one unit of the maker's asset at the maker's price.
  lemma PaysForNothingIff(t: nat, m: nat, p: Price)
    requires ValidPrice(p) && t > 0 && m > 0 && !IsDust(m, p) && Match(t, m, p).Some?
    ensures var r := Match(t, m, p).value;
            r.takerPays > 0 && (r.makerPays == 0 <==> t * p.base < p.quote)
  {
    DustBuysNothing(m, p);
    if t <= m * p.quote / p.base {
      AtLeastOne(t * p.base, p.quote);
    } else {
      AboveFloor(t, m * p.quote, p.base);
      Grows(m, p.quote);
    }
  }
}

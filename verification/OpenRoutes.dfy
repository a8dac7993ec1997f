/**
 When a route is open, in terms of the quotes, the fees and the funding records alone, and what
 follows for the routes that are active after a tick and for the point query.
 */
module OpenRoutes {
  import opened Wrappers
  import opened Numbers
  import opened Text
  import opened Domain
  import opened Config
  import opened Funding
  import opened FundingVerdicts
  import opened Search
  import opened Aggregator
  import opened Shards
  import opened Runs

  /** Received within the last `ttl`, and not later than now. */
  predicate Recent(q: Quote, now: Time, ttl: int) { q.receivedAt != 0 && now - ttl <= q.receivedAt <= now }

  predicate HasQuote(book: Book, exchange: string, market: Market) { exchange in book && market in book[exchange] }

  predicate HasRecent(book: Book, exchange: string, market: Market, now: Time, ttl: int) {
    HasQuote(book, exchange, market) && Recent(book[exchange][market], now, ttl)
  }

  function RateOf(f: FundingState, exchange: string, symbol: string): real {
    var r := Get(f.rates, NormalKey(exchange, symbol)); if r.Some? then r.value.rate else 0.0
  }

  function NextOf(f: FundingState, exchange: string, symbol: string): Time {
    var r := Get(f.rates, NormalKey(exchange, symbol)); if r.Some? then r.value.nextFunding else 0
  }

  // ---- The gain of a route ----

  lemma SignOfProduct(x: real, y: real)
    requires y > 0.0
    ensures (x > 0.0 ==> x * y > 0.0) && (x < 0.0 ==> x * y < 0.0)
  {
  }

  lemma RelativeDifference(ask: real, bid: real)
    requires ask > 0.0
    ensures (bid - ask) / ask == bid / ask - 1.0
  {
    var q, r := bid / ask, (bid - ask) / ask;
    assert q * ask == bid && r * ask == bid - ask;
    var d := r - (q - 1.0);
    SignOfProduct(d, ask);
    assert d * ask == r * ask - q * ask + ask;
  }

  /** The gain is the relative price difference less both fees, up to half a unit of the sixteenth digit. */
  lemma GainIsExact(c: Settings, ask: real, bid: real, buyEx: string, sellEx: string)
    requires ask > 0.0
    ensures -0.5 / SCALE <= FeeNetSpread(c, ask, bid, buyEx, sellEx) - (bid / ask - 1.0 - FeeFor(c, buyEx) - FeeFor(c, sellEx)) <= 0.5 / SCALE
  {
    hide Div;
    hide FeeFor;
    DivError(bid - ask, ask);
    RelativeDifference(ask, bid);
  }

  // ---- Exactly when a route is open ----

  predicate CrossOpen(env: Env, book: Book, symbol: string, now: Time, buyEx: string, sellEx: string) {
    && buyEx != sellEx && HasRecent(book, buyEx, Futures, now, env.ttl) && HasRecent(book, sellEx, Futures, now, env.ttl)
    && env.funding.Some? && Reliable(env.funding.value, buyEx, symbol, now) && Reliable(env.funding.value, sellEx, symbol, now)
    && Sensible(buyEx, symbol, 0.0, now) && sellEx != ""
    && var f, gain := env.funding.value, FeeNetSpread(env.settings, book[buyEx][Futures].ask, book[sellEx][Futures].bid, buyEx, sellEx);
      gain > 0.0 && gain - RateOf(f, buyEx, symbol) + RateOf(f, sellEx, symbol) >= f.config.minSpread
  }

  predicate IntraOpen(env: Env, book: Book, symbol: string, now: Time, exchange: string) {
    && HasRecent(book, exchange, Spot, now, env.ttl) && HasRecent(book, exchange, Futures, now, env.ttl)
    && env.funding.Some? && Reliable(env.funding.value, exchange, symbol, now) && Sensible(exchange, symbol, 0.0, now)
    && var f, gain := env.funding.value, FeeNetSpread(env.settings, book[exchange][Spot].ask, book[exchange][Futures].bid, exchange, exchange);
      gain > 0.0 && gain + RateOf(f, exchange, symbol) >= f.config.minSpread
  }

  /**
   The search finds a cross route exactly when both quotes are recent, both records are reliable, the prices
   gain after the fees, and that gain less the buyer's rate plus the seller's reaches the minimum; the event
   carries that net spread, the two prices, the smaller volume, and each leg's own funding.
   */
  lemma CrossEventExactly(env: Env, book: Book, symbol: string, now: Time, buyEx: string, sellEx: string)
    ensures var found := CrossEvent(env, book, symbol, now, buyEx, sellEx);
      && (found.Some? <==> CrossOpen(env, book, symbol, now, buyEx, sellEx))
      && (found.Some? ==>
          var a, b, f, e := book[buyEx][Futures], book[sellEx][Futures], env.funding.value, found.value;
          && e.symbol == symbol && e.kind == CrossExchange && e.timestamp == now && e.lifecycle == Untagged
          && e.buyExchange == buyEx && e.sellExchange == sellEx && e.buyMarket == e.sellMarket == Futures
          && e.spread == FeeNetSpread(env.settings, a.ask, b.bid, buyEx, sellEx) - RateOf(f, buyEx, symbol) + RateOf(f, sellEx, symbol)
          && e.buyAsk == a.ask && e.sellBid == b.bid
          && e.quoteVolume == (if a.volume24h <= b.volume24h then a.volume24h else b.volume24h)
          && e.buyFundingRate == RateOf(f, buyEx, symbol) && e.sellFundingRate == RateOf(f, sellEx, symbol)
          && e.buyNextFunding == NextOf(f, buyEx, symbol) && e.sellNextFunding == NextOf(f, sellEx, symbol))
  {
    hide NormalKey;
    hide Reliable;
    hide FeeNetSpread;
    hide EvaluateFuturesPair;
    if HasQuote(book, buyEx, Futures) && HasQuote(book, sellEx, Futures) && env.funding.Some? {
      var a, b := book[buyEx][Futures], book[sellEx][Futures];
      var gain := FeeNetSpread(env.settings, a.ask, b.bid, buyEx, sellEx);
      if gain > 0.0 {
        PositiveSpreadMeansGap(env.settings, a, b, buyEx, sellEx);
        SenselessIsRefused(env.funding.value, buyEx, sellEx, symbol, gain, now);
        if Sensible(buyEx, symbol, gain, now) && sellEx != "" {
          PairVerdict(env.funding.value, buyEx, sellEx, symbol, gain, now);
        }
      }
      ReliableHasRecord(env.funding.value, buyEx, symbol, now);
      ReliableHasRecord(env.funding.value, sellEx, symbol, now);
    }
  }

  lemma ReliableHasRecord(f: FundingState, exchange: string, symbol: string, now: Time)
    ensures Reliable(f, exchange, symbol, now) ==> Get(f.rates, NormalKey(exchange, symbol)).Some?
  {
  }

  /** The same for the intra-exchange route, whose spot leg is bought without funding. */
  lemma IntraEventExactly(env: Env, book: Book, symbol: string, now: Time, exchange: string)
    ensures var found := IntraEvent(env, book, exchange, symbol, now);
      && (found.Some? <==> IntraOpen(env, book, symbol, now, exchange))
      && (found.Some? ==>
          var a, b, f, e := book[exchange][Spot], book[exchange][Futures], env.funding.value, found.value;
          && e.symbol == symbol && e.kind == IntraExchange && e.timestamp == now && e.lifecycle == Untagged
          && e.buyExchange == e.sellExchange == exchange && e.buyMarket == Spot && e.sellMarket == Futures
          && e.spread == FeeNetSpread(env.settings, a.ask, b.bid, exchange, exchange) + RateOf(f, exchange, symbol)
          && e.buyAsk == a.ask && e.sellBid == b.bid
          && e.quoteVolume == (if a.volume24h <= b.volume24h then a.volume24h else b.volume24h)
          && e.buyFundingRate == 0.0 && e.sellFundingRate == RateOf(f, exchange, symbol)
          && e.buyNextFunding == 0 && e.sellNextFunding == NextOf(f, exchange, symbol))
  {
    hide NormalKey;
    hide Reliable;
    hide FeeNetSpread;
    hide EvaluateSpotFutures;
    if HasQuote(book, exchange, Spot) && HasQuote(book, exchange, Futures) && env.funding.Some? {
      var a, b := book[exchange][Spot], book[exchange][Futures];
      var gain := FeeNetSpread(env.settings, a.ask, b.bid, exchange, exchange);
      if gain > 0.0 {
        PositiveSpreadMeansGap(env.settings, a, b, exchange, exchange);
        SenselessIsRefused(env.funding.value, exchange, exchange, symbol, gain, now);
        if Sensible(exchange, symbol, gain, now) {
          LoneVerdict(env.funding.value, exchange, symbol, gain, now);
        }
      }
      ReliableHasRecord(env.funding.value, exchange, symbol, now);
    }
  }

  /** An accepted update's record. */
  predicate Taken(f: FundingState, op: FundingOp, now: Time) {
    && op.UpdateOp? && op.exchange != "" && NormalKey(op.exchange, op.symbol).exchange != "" && NormalKey(op.exchange, op.symbol).symbol != ""
    && !OutOfOrder(f.rates, NormalKey(op.exchange, op.symbol), op.event)
    && op.next != 0 && op.now != 0 && 0 < StalenessFor(f.config, op.exchange) && now - op.now <= StalenessFor(f.config, op.exchange)
  }

  /**
   Over any funding history that ends with accepted updates of both exchanges: a cross route with recent quotes
   that gain after the fees is found exactly when the gain, plus the rate told of the seller less the rate told
   of the buyer, reaches the minimum, and then that is its spread.
   */
  lemma CrossEventAfterUpdates(env: Env, ops: seq<FundingOp>, config: FundingConfig, book: Book, symbol: string, now: Time,
                               buy: FundingOp, sell: FundingOp)
    requires Taken(History(config, ops), buy, now) && Taken(History(config, ops), sell, now)
    requires buy.symbol == sell.symbol == symbol != "" && NormalName(buy.exchange) != NormalName(sell.exchange) && now != 0
    requires env.funding == Some(Apply(Apply(History(config, ops), buy), sell))
    requires HasRecent(book, buy.exchange, Futures, now, env.ttl) && HasRecent(book, sell.exchange, Futures, now, env.ttl)
    requires FeeNetSpread(env.settings, book[buy.exchange][Futures].ask, book[sell.exchange][Futures].bid, buy.exchange, sell.exchange) > 0.0
    ensures var gain := FeeNetSpread(env.settings, book[buy.exchange][Futures].ask, book[sell.exchange][Futures].bid, buy.exchange, sell.exchange);
      var found := CrossEvent(env, book, symbol, now, buy.exchange, sell.exchange);
      && (found.Some? <==> gain + sell.rate - buy.rate >= History(config, ops).config.minSpread)
      && (found.Some? ==>
          && found.value.spread == gain + sell.rate - buy.rate
          && found.value.buyFundingRate == buy.rate && found.value.sellFundingRate == sell.rate)
  {
    var f := History(config, ops);
    TakenIsReliable(f, buy, sell, symbol, now);
    CrossEventExactly(env, book, symbol, now, buy.exchange, sell.exchange);
    hide CrossEvent;
    hide Reliable;
    hide FeeNetSpread;
    hide NormalName;
    hide NormalKey;
  }

  lemma TakenIsReliable(f: FundingState, buy: FundingOp, sell: FundingOp, symbol: string, now: Time)
    requires Taken(f, buy, now) && Taken(f, sell, now) && buy.symbol == sell.symbol == symbol
    requires NormalName(buy.exchange) != NormalName(sell.exchange)
    ensures var after := Apply(Apply(f, buy), sell);
      && after.config == f.config
      && Reliable(after, buy.exchange, symbol, now) && Reliable(after, sell.exchange, symbol, now)
      && RateOf(after, buy.exchange, symbol) == buy.rate && RateOf(after, sell.exchange, symbol) == sell.rate
  {
    hide NormalName;
  }

  // ---- The age of quotes ----

  /** The same book with every quote received at this moment. */
  function Renewed(book: Book, now: Time): Book {
    map ex | ex in book :: map m | m in book[ex] :: book[ex][m].(receivedAt := now)
  }

  lemma RenewedQuote(book: Book, exchange: string, market: Market, now: Time, ttl: int)
    ensures HasQuote(Renewed(book, now), exchange, market) <==> HasQuote(book, exchange, market)
    ensures HasQuote(book, exchange, market) ==>
      && Renewed(book, now)[exchange][market] == book[exchange][market].(receivedAt := now)
      && (HasRecent(Renewed(book, now), exchange, market, now, ttl) <==> now != 0 && ttl >= 0)
  {
  }

  /** A route that would be open on renewed quotes is open exactly when both its quotes are recent. */
  lemma AgeDecides(env: Env, book: Book, symbol: string, now: Time, buyEx: string, sellEx: string)
    ensures
      var recent := HasRecent(book, buyEx, Futures, now, env.ttl) && HasRecent(book, sellEx, Futures, now, env.ttl);
      var renewed := CrossEvent(env, Renewed(book, now), symbol, now, buyEx, sellEx).Some?;
      CrossEvent(env, book, symbol, now, buyEx, sellEx).Some? <==> renewed && recent
    ensures
      var recent := HasRecent(book, buyEx, Spot, now, env.ttl) && HasRecent(book, buyEx, Futures, now, env.ttl);
      var renewed := IntraEvent(env, Renewed(book, now), buyEx, symbol, now).Some?;
      IntraEvent(env, book, buyEx, symbol, now).Some? <==> renewed && recent
  {
    hide CrossEvent;
    hide IntraEvent;
    hide Renewed;
    hide FeeNetSpread;
    hide Reliable;
    RenewedQuote(book, buyEx, Spot, now, env.ttl);
    RenewedQuote(book, buyEx, Futures, now, env.ttl);
    RenewedQuote(book, sellEx, Futures, now, env.ttl);
    CrossEventExactly(env, book, symbol, now, buyEx, sellEx);
    CrossEventExactly(env, Renewed(book, now), symbol, now, buyEx, sellEx);
    IntraEventExactly(env, book, symbol, now, buyEx);
    IntraEventExactly(env, Renewed(book, now), symbol, now, buyEx);
  }

  /** Both legs of the signal's route have a recent quote. */
  predicate LegsRecent(book: Book, s: Signal, now: Time, ttl: int) {
    HasRecent(book, s.buyExchange, s.buyMarket, now, ttl) && HasRecent(book, s.sellExchange, s.sellMarket, now, ttl)
  }

  /** The point query answers exactly when it would answer on renewed quotes and both quotes of the route are recent. */
  lemma QueryAgeDecides(env: Env, prices: map<string, Book>, s: Signal, now: Time)
    requires NormalSymbol(s.symbol) in prices
    ensures var symbol := NormalSymbol(s.symbol);
      var renewed := Revalidate(env, prices[symbol := Renewed(prices[symbol], now)], s, now).Some?;
      Revalidate(env, prices, s, now).Some? <==> renewed && LegsRecent(prices[symbol], s, now, env.ttl)
  {
    hide NormalSymbol;
    hide CrossEvent;
    hide IntraEvent;
    hide Renewed;
    hide Revalidate;
    var symbol := NormalSymbol(s.symbol);
    QueryIsOpen(env, prices, s, now);
    QueryIsOpen(env, prices[symbol := Renewed(prices[symbol], now)], s, now);
    AgeDecides(env, prices[symbol], s.symbol, now, s.buyExchange, s.sellExchange);
  }

  predicate IsCross(s: Signal) { s.kind == CrossExchange && s.buyMarket == Futures == s.sellMarket }

  predicate IsIntra(s: Signal) {
    s.kind == IntraExchange && s.buyMarket == Spot && s.sellMarket == Futures && s.buyExchange == s.sellExchange
  }

  lemma QueryIsOpen(env: Env, prices: map<string, Book>, s: Signal, now: Time)
    requires NormalSymbol(s.symbol) in prices
    ensures var book := prices[NormalSymbol(s.symbol)];
      var cross := IsCross(s) && CrossEvent(env, book, s.symbol, now, s.buyExchange, s.sellExchange).Some?;
      var intra := IsIntra(s) && IntraEvent(env, book, s.buyExchange, s.symbol, now).Some?;
      Revalidate(env, prices, s, now).Some? <==> cross || intra
  {
    hide NormalSymbol;
    var book := prices[NormalSymbol(s.symbol)];
    if Revalidate(env, prices, s, now).Some? {
      var ev := RevalidateFinds(env, prices, s, now);
    }
  }

  /** A signal opened from a route the search holds is found again at that moment, unchanged, for a symbol in normal form. */
  lemma OpenedIsFoundAgain(env: Env, prices: map<string, Book>, ev: SpreadEvent, id: nat, now: Time)
    requires NormalSymbol(ev.symbol) == ev.symbol && ev.symbol in prices && InSearch(env, prices[ev.symbol], ev.symbol, now, ev)
    ensures var s := NewSignal(ev.(lifecycle := Opened), id, now); Revalidate(env, prices, s, now) == Some(s)
  {
    hide NormalSymbol;
    FoundRoute(env, prices[ev.symbol], ev.symbol, now, ev);
    var s := NewSignal(ev.(lifecycle := Opened), id, now);
    assert HoldsRoute(env, prices, s, now, ev);
    RevalidateIsSearch(env, prices, s, now);
    hide Revalidate;
  }

  /** The answer is the signal with the spread, volume and funding that the route has now, whatever they were before. */
  lemma QueryAnswersInPresentFigures(env: Env, prices: map<string, Book>, s: Signal, now: Time, ev: SpreadEvent)
    requires HoldsRoute(env, prices, s, now, ev)
    ensures Revalidate(env, prices, s, now).Some?
    ensures var r := Revalidate(env, prices, s, now).value;
      && r.peakSpread == ev.spread && r.quoteVolume == ev.quoteVolume
      && r.buyFundingRate == ev.buyFundingRate && r.sellFundingRate == ev.sellFundingRate
      && r.buyNextFunding == ev.buyNextFunding && r.sellNextFunding == ev.sellNextFunding
      && r.id == s.id && r.symbol == s.symbol && r.kind == s.kind && r.buyExchange == s.buyExchange && r.sellExchange == s.sellExchange
      && r.buyMarket == s.buyMarket && r.sellMarket == s.sellMarket && r.openedAt == s.openedAt && r.initialSpread == s.initialSpread
  {
    hide HoldsRoute;
    hide Revalidate;
    RevalidateIsSearch(env, prices, s, now);
  }

  // ---- After a tick ----

  /** After an accepted tick every active route of its symbol rests on two recent quotes that gain after the fees. */
  lemma ActiveRestsOnRecentQuotes(s: ShardState, env: Env, t: MarketTick, s': ShardState, out: seq<SpreadEvent>, key: string)
    requires Keyed(s) && Tidy(s) && CleanTick(t) && TidyTick(t) && !Outdated(s.prices, t)
    requires Commits(s, TickOp(env, t), s', out)
    requires key in s'.active && FirstField(key) == t.symbol && t.symbol + ":" <= key
    ensures t.symbol in s'.prices
    ensures var e, book, now := s'.active[key].last, s'.prices[t.symbol], TickTime(t);
      && HasQuote(book, e.buyExchange, e.buyMarket) && HasQuote(book, e.sellExchange, e.sellMarket)
      && var a, b := book[e.buyExchange][e.buyMarket], book[e.sellExchange][e.sellMarket];
        && a.receivedAt != 0 && b.receivedAt != 0
        && now - env.ttl <= a.receivedAt <= now && now - env.ttl <= b.receivedAt <= now
        && b.bid / a.ask - 1.0 - FeeFor(env.settings, e.buyExchange) - FeeFor(env.settings, e.sellExchange) > -0.5 / SCALE
  {
    hide RouteKey;
    hide Commits;
    hide Outdated;
    hide Tidy;
    hide Keyed;
    hide FeeFor;
    hide LegFunded;
    hide FeeNetSpread;
    hide CloseThreshold;
    ActiveMeansObservedNow(s, env, t, s', out, key);
    var e: SpreadEvent := s'.active[key].last;
    var book: Book := s'.prices[t.symbol];
    GainIsExact(env.settings, book[e.buyExchange][e.buyMarket].ask, book[e.sellExchange][e.sellMarket].bid, e.buyExchange, e.sellExchange);
  }

  /** The search observes the route at or above the opening threshold. */
  ghost predicate ObservedOpen(env: Env, book: Book, t: MarketTick, key: string, ev: SpreadEvent) {
    Observed(env, book, t, key, ev) && ev.spread >= env.settings.hardMin
  }

  /** An accepted tick opens a route exactly when it observes it at or above the opening threshold. */
  lemma TickOpensExactly(s: ShardState, env: Env, t: MarketTick, s': ShardState, out: seq<SpreadEvent>, key: string)
    requires Keyed(s) && Tidy(s) && CleanTick(t) && TidyTick(t) && !Outdated(s.prices, t)
    requires Commits(s, TickOp(env, t), s', out) && key !in s.active
    ensures key in s'.active <==> exists ev :: ObservedOpen(env, BookAfter(s.prices, t), t, key, ev)
  {
    hide CrossEvent;
    hide IntraEvent;
    hide IsCandidate;
    hide RouteKey;
    var book := BookAfter(s.prices, t);
    BookAfterIsTidy(s, t);
    assert RouteCommits(s, TickOp(env, t), s', out, key);
    if forall ev :: !Observed(env, book, t, key, ev) {
      InputWhenAbsent(env, book, t, key);
    } else {
      var ev :| Observed(env, book, t, key, ev);
      InputOfObserved(env, book, t, ev);
      forall other | Observed(env, book, t, key, other) ensures other == ev {
        CandidatesDiffer(env, book, t, ev, other);
      }
      assert key in s'.active <==> ev.spread >= env.settings.hardMin;
      assert ObservedOpen(env, book, t, key, ev) <==> ev.spread >= env.settings.hardMin;
    }
  }

  lemma CandidateIsFound(env: Env, book: Book, t: MarketTick, ev: SpreadEvent)
    requires IsCandidate(env, book, t.exchange, t.symbol, TickTime(t), ev)
    ensures InSearch(env, book, t.symbol, TickTime(t), ev)
  {
    hide CrossEvent;
    hide SymbolMayPass;
    hide RouteEligible;
  }

  /** The next accepted tick of its symbol closes an active route one of whose quotes is missing or no longer recent. */
  lemma OldQuoteClosesTheRoute(s: ShardState, env: Env, t: MarketTick, s': ShardState, out: seq<SpreadEvent>, e: SpreadEvent)
    requires Keyed(s) && Tidy(s) && CleanTick(t) && TidyTick(t) && !Outdated(s.prices, t)
    requires Commits(s, TickOp(env, t), s', out)
    requires e.symbol == t.symbol && ColonFree(e.buyExchange) && ColonFree(e.sellExchange) && e.buyExchange != "" && e.sellExchange != ""
    requires var book := BookAfter(s.prices, t);
      || !HasRecent(book, e.buyExchange, e.buyMarket, TickTime(t), env.ttl)
      || !HasRecent(book, e.sellExchange, e.sellMarket, TickTime(t), env.ttl)
    ensures RouteKey(e) !in s'.active
  {
    hide Observed;
    hide HasRecent;
    hide RouteKey;
    var key, book := RouteKey(e), BookAfter(s.prices, t);
    assert t.symbol + ":" <= key by { PrefixMeansSymbol(t.symbol, e); }
    BookAfterIsTidy(s, t);
    assert RouteCommits(s, TickOp(env, t), s', out, key);
    forall ev ensures !Observed(env, book, t, key, ev) {
      if Observed(env, book, t, key, ev) {
        ObservedIsRecent(env, book, t, e, ev);
      }
    }
    InputWhenAbsent(env, book, t, key);
  }

  /** Whatever a tick observes under the key of a route has recent quotes on that route's legs. */
  lemma ObservedIsRecent(env: Env, book: Book, t: MarketTick, e: SpreadEvent, ev: SpreadEvent)
    requires Observed(env, book, t, RouteKey(e), ev) && TidyBook(book) && TidyTick(t)
    requires ColonFree(e.buyExchange) && ColonFree(e.sellExchange) && e.buyExchange != "" && e.sellExchange != ""
    ensures HasRecent(book, e.buyExchange, e.buyMarket, TickTime(t), env.ttl)
    ensures HasRecent(book, e.sellExchange, e.sellMarket, TickTime(t), env.ttl)
  {
    CandidateIsFound(env, book, t, ev);
    FoundRoute(env, book, t.symbol, TickTime(t), ev);
    CandidateIsTidy(env, book, t, ev);
    RouteKeyInjective(e.symbol, e.kind, e.buyExchange, e.sellExchange, e.buyMarket, e.sellMarket,
                      ev.symbol, ev.kind, ev.buyExchange, ev.sellExchange, ev.buyMarket, ev.sellMarket);
    hide InSearch;
    hide IsCandidate;
    hide KeyOf;
  }
}

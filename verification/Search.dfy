/**
 The route search over one symbol's quotes: which cross-exchange and intra-exchange routes are
 open at a given moment, with fees and funding taken off, and the two volume prefilters.
 */
module Search {
  import opened Wrappers
  import opened Numbers
  import opened Text
  import opened Domain
  import opened Config
  import opened Funding
  import opened Volume

  datatype Quote = Quote(bid: real, ask: real, receivedAt: Time, volume24h: real)

  /** A stored quote passed the tick validation. */
  type PriceState = q: Quote | 0.0 < q.bid <= q.ask witness Quote(1.0, 1.0, 0, 0.0)

  /** exchange -> market -> latest quote */
  type Book = map<string, map<Market, PriceState>>

  /** What a critical section reads from the other components. */
  datatype Env = Env(settings: Settings, funding: Option<FundingState>, users: Option<map<int, User>>,
                     volume: Option<VolumeData>, ttl: int)

  function Leg(book: Book, exchange: string, market: Market): Option<PriceState> {
    if exchange in book then Get(book[exchange], market) else None
  }

  /** A quote from the future is not fresh, nor is one without a receive time. */
  predicate Fresh(s: Option<PriceState>, now: Time, ttl: int) {
    s.Some? && s.value.receivedAt != 0 && now >= s.value.receivedAt && now - s.value.receivedAt <= ttl
  }

  /** The relative price difference less the taker fees of both sides. */
  function FeeNetSpread(c: Settings, buyAsk: real, sellBid: real, buyEx: string, sellEx: string): real
    requires buyAsk > 0.0
  {
    Div(sellBid - buyAsk, buyAsk) - FeeFor(c, buyEx) - FeeFor(c, sellEx)
  }

  function EventFor(symbol: string, kind: SpreadKind, buyEx: string, sellEx: string, buyMarket: Market,
                    buy: PriceState, sell: PriceState, fund: ArbResult, now: Time): SpreadEvent
  {
    SpreadEvent(symbol, kind, fund.netSpread, buyEx, sellEx, "", "", buyMarket, Futures, buy.ask, sell.bid,
                Min(buy.volume24h, sell.volume24h), fund.buyRate, fund.sellRate, fund.buyNext, fund.sellNext,
                now, Untagged)
  }

  /**
   The cross-exchange route that buys futures on one exchange and sells them on another: both
   quotes fresh, buy ask below sell bid, positive after fees, profitable after funding.
   */
  function CrossEvent(env: Env, book: Book, symbol: string, now: Time, buyEx: string, sellEx: string): Option<SpreadEvent> {
    var buy, sell := Leg(book, buyEx, Futures), Leg(book, sellEx, Futures);
    if buyEx == sellEx || !Fresh(buy, now, env.ttl) || !Fresh(sell, now, env.ttl) then None
    else if !(buy.value.ask < sell.value.bid) then None
    else
      var spread := FeeNetSpread(env.settings, buy.value.ask, sell.value.bid, buyEx, sellEx);
      if !(spread > 0.0) || env.funding.None? then None
      else
        var fund := EvaluateFuturesPair(env.funding.value, buyEx, symbol, sellEx, symbol, spread, now);
        if !fund.profitable then None
        else Some(EventFor(symbol, CrossExchange, buyEx, sellEx, Futures, buy.value, sell.value, fund, now))
  }

  /** The one intra-exchange route of an exchange: buy spot, sell futures. */
  function IntraEvent(env: Env, book: Book, exchange: string, symbol: string, now: Time): Option<SpreadEvent> {
    var spot, fut := Leg(book, exchange, Spot), Leg(book, exchange, Futures);
    if !Fresh(spot, now, env.ttl) || !Fresh(fut, now, env.ttl) then None
    else if !(fut.value.bid > spot.value.ask) then None
    else
      var spread := FeeNetSpread(env.settings, spot.value.ask, fut.value.bid, exchange, exchange);
      if !(spread > 0.0) || env.funding.None? then None
      else
        var fund := EvaluateSpotFutures(env.funding.value, exchange, symbol, spread, now);
        if !fund.profitable then None
        else Some(EventFor(symbol, IntraExchange, exchange, exchange, Spot, spot.value, fut.value, fund, now))
  }

  /** The full search at a moment contains this route with these figures. */
  predicate InSearch(env: Env, book: Book, symbol: string, now: Time, ev: SpreadEvent) {
    || CrossEvent(env, book, symbol, now, ev.buyExchange, ev.sellExchange) == Some(ev)
    || IntraEvent(env, book, ev.buyExchange, symbol, now) == Some(ev)
  }

  lemma FoundIntra(env: Env, book: Book, symbol: string, now: Time, ev: SpreadEvent)
    requires IntraEvent(env, book, ev.buyExchange, symbol, now) == Some(ev)
    ensures InSearch(env, book, symbol, now, ev)
  {
  }

  /** What every route found by the search satisfies. */
  lemma FoundRoute(env: Env, book: Book, symbol: string, now: Time, ev: SpreadEvent)
    requires InSearch(env, book, symbol, now, ev)
    ensures ev.symbol == symbol != "" && ev.timestamp == now != 0 && ev.lifecycle == Untagged
    ensures env.funding.Some? && ev.spread >= env.funding.value.config.minSpread
    ensures ev.buyExchange != "" && ev.sellExchange != ""
    ensures var buy, sell := Leg(book, ev.buyExchange, ev.buyMarket), Leg(book, ev.sellExchange, ev.sellMarket);
      && Fresh(buy, now, env.ttl) && Fresh(sell, now, env.ttl)
      && FeeNetSpread(env.settings, buy.value.ask, sell.value.bid, ev.buyExchange, ev.sellExchange) > 0.0
    ensures ev.sellMarket == Futures && LegFunded(env.funding.value, ev.sellExchange, symbol, now)
    ensures ev.buyMarket == Futures ==> LegFunded(env.funding.value, ev.buyExchange, symbol, now)
  {
    if CrossEvent(env, book, symbol, now, ev.buyExchange, ev.sellExchange) == Some(ev) {
      var buy, sell := Leg(book, ev.buyExchange, Futures), Leg(book, ev.sellExchange, Futures);
      var spread := FeeNetSpread(env.settings, buy.value.ask, sell.value.bid, ev.buyExchange, ev.sellExchange);
      ProfitableMeansFunded(env.funding.value, ev.buyExchange, ev.sellExchange, symbol, spread, now);
    } else {
      var spot, fut := Leg(book, ev.buyExchange, Spot), Leg(book, ev.buyExchange, Futures);
      var spread := FeeNetSpread(env.settings, spot.value.ask, fut.value.bid, ev.buyExchange, ev.buyExchange);
      ProfitableMeansFunded(env.funding.value, ev.buyExchange, ev.buyExchange, symbol, spread, now);
    }
  }

  // ---- The point query ----

  predicate SameRoute(ev: SpreadEvent, s: Signal) {
    && ev.symbol == s.symbol && ev.kind == s.kind && ev.buyExchange == s.buyExchange && ev.sellExchange == s.sellExchange
    && ev.buyMarket == s.buyMarket && ev.sellMarket == s.sellMarket
  }

  /** The signal as it is announced: with the figures of the moment. */
  function Refreshed(s: Signal, ev: SpreadEvent): Signal {
    s.(peakSpread := ev.spread, quoteVolume := ev.quoteVolume,
       buyFundingRate := ev.buyFundingRate, sellFundingRate := ev.sellFundingRate,
       buyNextFunding := ev.buyNextFunding, sellNextFunding := ev.sellNextFunding)
  }

  /** Recomputes one route from the latest quotes, without the price comparison of the cross search. */
  function Revalidate(env: Env, prices: map<string, Book>, s: Signal, now: Time): Option<Signal> {
    var symbol := NormalSymbol(s.symbol);
    if symbol !in prices then None
    else
      var book := prices[symbol];
      if s.kind == CrossExchange && s.buyMarket == Futures && s.sellMarket == Futures then
        var buy, sell := Leg(book, s.buyExchange, Futures), Leg(book, s.sellExchange, Futures);
        if !Fresh(buy, now, env.ttl) || !Fresh(sell, now, env.ttl) || !(buy.value.ask > 0.0) || !(sell.value.bid > 0.0) then None
        else
          var spread := FeeNetSpread(env.settings, buy.value.ask, sell.value.bid, s.buyExchange, s.sellExchange);
          if !(spread > 0.0) || env.funding.None? then None
          else
            var fund := EvaluateFuturesPair(env.funding.value, s.buyExchange, s.symbol, s.sellExchange, s.symbol, spread, now);
            if !fund.profitable then None
            else Some(Refreshed(s, EventFor(s.symbol, s.kind, s.buyExchange, s.sellExchange, Futures,
                                            buy.value, sell.value, fund, now)))
      else if s.kind == IntraExchange && s.buyMarket == Spot && s.sellMarket == Futures && s.buyExchange == s.sellExchange then
        var spot, fut := Leg(book, s.buyExchange, Spot), Leg(book, s.buyExchange, Futures);
        if !Fresh(spot, now, env.ttl) || !Fresh(fut, now, env.ttl) || !(fut.value.bid > spot.value.ask) || env.funding.None? then None
        else
          var spread := FeeNetSpread(env.settings, spot.value.ask, fut.value.bid, s.buyExchange, s.sellExchange);
          if !(spread > 0.0) then None
          else
            var fund := EvaluateSpotFutures(env.funding.value, s.buyExchange, s.symbol, spread, now);
            if !fund.profitable then None
            else Some(Refreshed(s, EventFor(s.symbol, s.kind, s.buyExchange, s.sellExchange, Spot,
                                            spot.value, fut.value, fund, now)))
      else None
  }

  /** A spread that survives the fees needs a real price difference, so distinct exchanges too. */
  lemma PositiveSpreadMeansGap(c: Settings, buy: PriceState, sell: PriceState, buyEx: string, sellEx: string)
    requires FeeNetSpread(c, buy.ask, sell.bid, buyEx, sellEx) > 0.0
    ensures buy.ask < sell.bid
  {
  }

  /** The search for the signal's symbol, over the quotes filed under the symbol's normal form, contains the signal's route. */
  ghost predicate HoldsRoute(env: Env, prices: map<string, Book>, s: Signal, now: Time, ev: SpreadEvent) {
    NormalSymbol(s.symbol) in prices && InSearch(env, prices[NormalSymbol(s.symbol)], s.symbol, now, ev) && SameRoute(ev, s)
  }

  /**
   For every symbol the point query succeeds exactly when the search over the quotes under the
   symbol's normal form contains the route, and then returns that search's own spread, volume and funding.
   */
  lemma RevalidateIsSearch(env: Env, prices: map<string, Book>, s: Signal, now: Time)
    ensures Revalidate(env, prices, s, now).Some? <==> exists ev :: HoldsRoute(env, prices, s, now, ev)
    ensures forall ev | HoldsRoute(env, prices, s, now, ev) :: Revalidate(env, prices, s, now) == Some(Refreshed(s, ev))
  {
    if Revalidate(env, prices, s, now).Some? {
      var ev := RevalidateFinds(env, prices, s, now);
    }
    forall ev | HoldsRoute(env, prices, s, now, ev) ensures Revalidate(env, prices, s, now) == Some(Refreshed(s, ev)) {
      SearchRevalidates(env, prices, s, now, ev);
    }
  }

  lemma RevalidateFinds(env: Env, prices: map<string, Book>, s: Signal, now: Time) returns (ev: SpreadEvent)
    requires Revalidate(env, prices, s, now).Some?
    ensures HoldsRoute(env, prices, s, now, ev)
  {
    hide NormalSymbol;
    var book := prices[NormalSymbol(s.symbol)];
    if s.kind == CrossExchange {
      var buy, sell := Leg(book, s.buyExchange, Futures).value, Leg(book, s.sellExchange, Futures).value;
      PositiveSpreadMeansGap(env.settings, buy, sell, s.buyExchange, s.sellExchange);
      ev := CrossEvent(env, book, s.symbol, now, s.buyExchange, s.sellExchange).value;
    } else {
      ev := IntraEvent(env, book, s.buyExchange, s.symbol, now).value;
    }
  }

  lemma SearchRevalidates(env: Env, prices: map<string, Book>, s: Signal, now: Time, ev: SpreadEvent)
    requires HoldsRoute(env, prices, s, now, ev)
    ensures Revalidate(env, prices, s, now) == Some(Refreshed(s, ev))
  {
    hide NormalSymbol;
  }

  // ---- A book with one open route ----

  /** Funding for one exchange and symbol, and the default fees. */
  function LoneEnv(symbol: string, users: Option<map<int, User>>, volume: Option<VolumeData>): Env {
    var key := NormalKey("A", symbol);
    Env(Settings(HARD_MIN_SPREAD, map[]),
        Some(FundingState(map[key := FundingRecord(0.0, 2, 1, 1)], map[NormalName("A") := true], FundingConfig(0.0, 10, map[]))),
        users, volume, 10)
  }

  /** Spot at 1, futures at 2, both received at time 1. */
  function LoneBook(volume24h: real): Book {
    map["A" := map[Spot := Quote(1.0, 1.0, 1, volume24h), Futures := Quote(2.0, 2.0, 1, volume24h)]]
  }

  lemma LoneSpread(symbol: string, users: Option<map<int, User>>, volume: Option<VolumeData>, volume24h: real)
    requires symbol != ""
    ensures var ev := IntraEvent(LoneEnv(symbol, users, volume), LoneBook(volume24h), "A", symbol, 1);
      ev.Some? && ev.value.spread >= 0.4
  {
    var env, book := LoneEnv(symbol, users, volume), LoneBook(volume24h);
    assert Leg(book, "A", Spot) == Some(Quote(1.0, 1.0, 1, volume24h));
    assert Leg(book, "A", Futures) == Some(Quote(2.0, 2.0, 1, volume24h));
    assert Div(1.0, 1.0) >= 0.5 by {
      assert 1.0 / 1.0 * SCALE == SCALE;
      assert RoundHalfAway(SCALE) as real > SCALE - 1.0;
    }
    assert FeeNetSpread(env.settings, 1.0, 2.0, "A", "A") >= 0.4;
  }

  lemma LoneRoute(symbol: string, users: Option<map<int, User>>, volume: Option<VolumeData>, volume24h: real) returns (ev: SpreadEvent)
    requires symbol != ""
    ensures IntraEvent(LoneEnv(symbol, users, volume), LoneBook(volume24h), "A", symbol, 1) == Some(ev)
    ensures ev.symbol == symbol && ev.timestamp == 1 && ev.kind == IntraExchange && ev.quoteVolume == volume24h
    ensures ev.buyExchange == "A" == ev.sellExchange && ev.buyMarket == Spot && ev.sellMarket == Futures
  {
    LoneSpread(symbol, users, volume, volume24h);
    ev := IntraEvent(LoneEnv(symbol, users, volume), LoneBook(volume24h), "A", symbol, 1).value;
  }

  // ---- The band between the thresholds ----

  /** Every found spread reaches the funding threshold. */
  lemma FoundReachesMinimum(env: Env, book: Book, symbol: string, now: Time, ev: SpreadEvent)
    requires InSearch(env, book, symbol, now, ev)
    ensures env.funding.Some? && ev.spread >= env.funding.value.config.minSpread
  {
  }

  /** With these thresholds no search ever finds a spread above the closing and below the opening threshold. */
  ghost predicate NeverInBand(hardMin: HardMin, minSpread: NonNegative) {
    forall env: Env, book, symbol, now, ev ::
      Thresholds(env, hardMin, minSpread) && InSearch(env, book, symbol, now, ev) ==> !InBand(env.settings, ev)
  }

  predicate Thresholds(env: Env, hardMin: HardMin, minSpread: NonNegative) {
    env.settings.hardMin == hardMin && env.funding.Some? && env.funding.value.config.minSpread == minSpread
  }

  predicate InBand(c: Settings, ev: SpreadEvent) { CloseThreshold(c) < ev.spread < c.hardMin }

  /** The lone route with a funding rate that leaves the given net spread. */
  lemma BandRoute(hardMin: HardMin, minSpread: NonNegative, net: real) returns (env: Env, ev: SpreadEvent)
    requires net >= minSpread
    ensures Thresholds(env, hardMin, minSpread)
    ensures InSearch(env, LoneBook(0.0), "X", 1, ev) && ev.spread == net
  {
    var book, settings := LoneBook(0.0), Settings(hardMin, map[]);
    assert Leg(book, "A", Spot) == Some(Quote(1.0, 1.0, 1, 0.0));
    assert Leg(book, "A", Futures) == Some(Quote(2.0, 2.0, 1, 0.0));
    assert Div(1.0, 1.0) >= 0.5 by {
      assert 1.0 / 1.0 * SCALE == SCALE;
      assert RoundHalfAway(SCALE) as real > SCALE - 1.0;
    }
    var spread := FeeNetSpread(settings, 1.0, 2.0, "A", "A");
    assert spread > 0.0;
    var key := NormalKey("A", "X");
    env := LoneEnv("X", None, None).(settings := settings,
      funding := Some(FundingState(map[key := FundingRecord(net - spread, 2, 1, 1)], map[NormalName("A") := true],
                                   FundingConfig(minSpread, 10, map[]))));
    ev := IntraEvent(env, book, "A", "X", 1).value;
  }

  /** The band is never reached exactly when the funding threshold is at least the opening threshold. */
  lemma NeverInBandExactly(hardMin: HardMin, minSpread: NonNegative)
    ensures NeverInBand(hardMin, minSpread) <==> minSpread >= hardMin
  {
    hide InSearch;
    if minSpread >= hardMin {
      forall env: Env, book, symbol, now, ev
        | Thresholds(env, hardMin, minSpread) && InSearch(env, book, symbol, now, ev)
        ensures !InBand(env.settings, ev)
      {
        FoundReachesMinimum(env, book, symbol, now, ev);
      }
    } else {
      var settings := Settings(hardMin, map[]);
      CloseBelowOpen(settings);
      var close := CloseThreshold(settings);
      var net := if minSpread > close then minSpread else (close + hardMin) / 2.0;
      var env, ev := BandRoute(hardMin, minSpread, net);
      assert InBand(env.settings, ev);
    }
  }

  // ---- The exact condition of the point query ----

  ghost predicate QueryMatches(env: Env, prices: map<string, Book>, s: Signal, now: Time) {
    Revalidate(env, prices, s, now).Some?
    <==> s.symbol in prices && exists ev :: InSearch(env, prices[s.symbol], s.symbol, now, ev) && SameRoute(ev, s)
  }

  /** For signals of this symbol the point query always answers as the full search does. */
  ghost predicate QueryIsSearch(symbol: string) {
    forall env, prices, s: Signal, now :: s.symbol == symbol ==> QueryMatches(env, prices, s, now)
  }

  /** A route that the search holds and the point query misses, for any symbol with another normal form. */
  lemma QueryMisses(symbol: string) returns (env: Env, prices: map<string, Book>, s: Signal, now: Time, ev: SpreadEvent)
    requires NormalSymbol(symbol) != symbol
    ensures s.symbol == symbol && symbol in prices && InSearch(env, prices[symbol], symbol, now, ev) && SameRoute(ev, s)
    ensures Revalidate(env, prices, s, now).None?
  {
    assert NormalSymbol("") == "";
    ev := LoneRoute(symbol, None, None, 0.0);
    env, prices, s, now := LoneEnv(symbol, None, None), map[symbol := LoneBook(0.0)], NewSignal(ev, 1, 1), 1;
  }

  /** The point query agrees with the full search exactly for the symbols that are their own normal form. */
  lemma QueryIsSearchExactly(symbol: string)
    ensures QueryIsSearch(symbol) <==> NormalSymbol(symbol) == symbol
  {
    hide Revalidate;
    hide InSearch;
    if NormalSymbol(symbol) == symbol {
      forall env, prices, s: Signal, now | s.symbol == symbol ensures QueryMatches(env, prices, s, now) {
        RevalidateIsSearch(env, prices, s, now);
        if s.symbol in prices && exists ev :: InSearch(env, prices[s.symbol], s.symbol, now, ev) && SameRoute(ev, s) {
          var ev :| InSearch(env, prices[s.symbol], s.symbol, now, ev) && SameRoute(ev, s);
          assert HoldsRoute(env, prices, s, now, ev);
        }
      }
    } else {
      var env, prices, s, now, ev := QueryMisses(symbol);
      assert !QueryMatches(env, prices, s, now);
    }
  }

  // ---- The volume prefilters ----

  function LegVolume(env: Env, exchange: string, symbol: string, market: Market, q: PriceState, u: User, now: Time): real {
    if u.timeframe == TF24h then q.volume24h
    else if env.volume.Some? then MarketEstimate(env.volume.value, exchange, symbol, market, u.timeframe, now, 0).volume
    else 0.0
  }

  /** Some fresh leg of the symbol alone reaches the user's minimum. */
  predicate LegPasses(env: Env, book: Book, symbol: string, now: Time, u: User, exchange: string, market: Market) {
    && Fresh(Leg(book, exchange, market), now, env.ttl)
    && LegVolume(env, exchange, symbol, market, Leg(book, exchange, market).value, u, now) >= u.minVolume
  }

  ghost predicate UserMayPass(env: Env, book: Book, symbol: string, now: Time, u: User) {
    u.minVolume <= 0.0 || exists exchange, market :: LegPasses(env, book, symbol, now, u, exchange, market)
  }

  ghost predicate SymbolMayPass(env: Env, book: Book, symbol: string, now: Time) {
    env.users.None? || exists id :: id in env.users.value && UserMayPass(env, book, symbol, now, env.users.value[id])
  }

  function RouteVolume(env: Env, ev: SpreadEvent, u: User): real {
    if u.timeframe == TF24h then ev.quoteVolume
    else if env.volume.Some? then
      RouteEstimate(env.volume.value, ev.buyExchange, ev.buyMarket, ev.sellExchange, ev.sellMarket,
                    ev.symbol, u.timeframe, ev.timestamp, 0).volume
    else 0.0
  }

  predicate RouteEligible(env: Env, ev: SpreadEvent) {
    env.users.None? || exists id :: id in env.users.value && RouteVolume(env, ev, env.users.value[id]) >= env.users.value[id].minVolume
  }

  /** The notification router's own volume test for a signal. */
  function RouterVolume(volume: Option<VolumeData>, s: Signal, u: User): real {
    if u.timeframe != TF24h && volume.Some? then
      RouteEstimate(volume.value, s.buyExchange, s.buyMarket, s.sellExchange, s.sellMarket,
                    s.symbol, u.timeframe, s.openedAt, 0).volume
    else s.quoteVolume
  }

  /** The prefilters and the router measure the user's volume by the same figures, or need none. */
  predicate Alike(volume: Option<VolumeData>, u: User) { volume.Some? || u.timeframe == TF24h || u.minVolume <= 0.0 }

  predicate MeasuredAlike(env: Env, u: User) { Alike(env.volume, u) }

  /**
   The prefilters hide nothing: when a user's own test accepts the signal of a found route, the
   route was eligible and its symbol was searched.  This takes the shared volume engine, or a
   user who filters by the 24-hour volume or not at all.
   */
  lemma PrefiltersHideNothing(env: Env, book: Book, now: Time, ev: SpreadEvent, id: int, signalId: nat)
    requires env.users.Some? && id in env.users.value && MeasuredAlike(env, env.users.value[id])
    ensures InSearch(env, book, ev.symbol, now, ev) && UserAccepts(env, ev, env.users.value[id], signalId)
      ==> RouteEligible(env, ev) && SymbolMayPass(env, book, ev.symbol, now)
  {
    var u := env.users.value[id];
    if InSearch(env, book, ev.symbol, now, ev) && UserAccepts(env, ev, u, signalId) {
      FoundRoute(env, book, ev.symbol, now, ev);
      assert RouteVolume(env, ev, u) >= u.minVolume;
      if u.minVolume > 0.0 {
        assert LegPasses(env, book, ev.symbol, now, u, ev.buyExchange, ev.buyMarket);
      }
      assert UserMayPass(env, book, ev.symbol, now, u);
    }
  }

  /** The router's volume test for a signal opened by the event. */
  predicate UserAccepts(env: Env, ev: SpreadEvent, u: User, signalId: nat) {
    RouterVolume(env.volume, NewSignal(ev, signalId, ev.timestamp), u) >= u.minVolume
  }

  /** With these users and this engine no route that some user accepts is hidden, whatever the quotes, fees and funding. */
  ghost predicate NeverHides(users: map<int, User>, volume: Option<VolumeData>) {
    forall env: Env, book, now, ev, id, signalId ::
      env.users == Some(users) && env.volume == volume && id in users && AcceptedRoute(env, book, now, ev, users[id], signalId) ==>
        Passes(env, book, now, ev)
  }

  /** Both prefilters let the route through. */
  ghost predicate Passes(env: Env, book: Book, now: Time, ev: SpreadEvent) {
    RouteEligible(env, ev) && SymbolMayPass(env, book, ev.symbol, now)
  }

  predicate AcceptedRoute(env: Env, book: Book, now: Time, ev: SpreadEvent, u: User, signalId: nat) {
    InSearch(env, book, ev.symbol, now, ev) && UserAccepts(env, ev, u, signalId)
  }

  /** For every user there is one, perhaps the same, who is measured alike and asks for no more. */
  predicate Covered(users: map<int, User>, volume: Option<VolumeData>) {
    forall id :: id in users ==> CoveredBy(users, volume, users[id])
  }

  predicate CoveredBy(users: map<int, User>, volume: Option<VolumeData>, u: User) {
    exists other :: other in users && Alike(volume, users[other]) && (users[other].minVolume <= u.minVolume)
  }

  /** Whoever accepts a route, a covering user accepts it too. */
  lemma CoveringUserAccepts(env: Env, ev: SpreadEvent, u: User, other: User, signalId: nat)
    requires env.volume.None? && other.minVolume <= u.minVolume && UserAccepts(env, ev, u, signalId)
    ensures UserAccepts(env, ev, other, signalId)
  {
  }

  /** A lone route that the user accepts by its 24-hour volume and the prefilters hide. */
  lemma HiddenRoute(users: map<int, User>, id: int) returns (env: Env, book: Book, ev: SpreadEvent)
    requires id in users && !CoveredBy(users, None, users[id])
    ensures env.users == Some(users) && env.volume.None? && AcceptedRoute(env, book, 1, ev, users[id], 1) && !RouteEligible(env, ev)
  {
    var v := users[id].minVolume;
    ev := LoneRoute("X", Some(users), None, v);
    env, book := LoneEnv("X", Some(users), None), LoneBook(v);
    assert !Alike(None, users[id]);
    forall other | other in users ensures RouteVolume(env, ev, users[other]) < users[other].minVolume {
      assert !(Alike(None, users[other]) && users[other].minVolume <= v);
    }
  }

  lemma CoveredHidesNothing(users: map<int, User>, env: Env, book: Book, now: Time, ev: SpreadEvent, id: int, signalId: nat)
    requires Covered(users, env.volume) && env.users == Some(users) && id in users
    requires AcceptedRoute(env, book, now, ev, users[id], signalId)
    ensures Passes(env, book, now, ev)
  {
    hide InSearch;
    hide SymbolMayPass;
    hide RouteEligible;
    hide UserAccepts;
    var other :| other in users && Alike(env.volume, users[other]) && (users[other].minVolume <= users[id].minVolume);
    if env.volume.Some? {
      PrefiltersHideNothing(env, book, now, ev, id, signalId);
    } else {
      CoveringUserAccepts(env, ev, users[id], users[other], signalId);
      PrefiltersHideNothing(env, book, now, ev, other, signalId);
    }
  }

  /** Exactly for covered users the prefilters never hide a route. */
  lemma PrefiltersExactlyForCovered(users: map<int, User>, volume: Option<VolumeData>)
    ensures NeverHides(users, volume) <==> Covered(users, volume)
  {
    hide InSearch;
    hide SymbolMayPass;
    hide RouteEligible;
    hide UserAccepts;
    if Covered(users, volume) {
      forall env: Env, book, now, ev, id, signalId: nat
        | env.users == Some(users) && env.volume == volume && id in users && AcceptedRoute(env, book, now, ev, users[id], signalId)
        ensures Passes(env, book, now, ev)
      {
        CoveredHidesNothing(users, env, book, now, ev, id, signalId);
      }
    } else {
      var id :| id in users && !CoveredBy(users, volume, users[id]);
      assert volume.None?;
      var env, book, ev := HiddenRoute(users, id);
      assert AcceptedRoute(env, book, 1, ev, users[id], 1) && !Passes(env, book, 1, ev);
    }
  }

  // ---- The candidates of one tick ----

  predicate HasUsers(env: Env) { env.users.None? || env.users.value != map[] }

  /** The routes a tick from `exchange` observes: every cross route of the symbol, and that exchange's intra route. */
  ghost predicate IsCandidate(env: Env, book: Book, exchange: string, symbol: string, now: Time, ev: SpreadEvent) {
    && HasUsers(env) && SymbolMayPass(env, book, symbol, now) && RouteEligible(env, ev)
    && (|| CrossEvent(env, book, symbol, now, ev.buyExchange, ev.sellExchange) == Some(ev)
        || IntraEvent(env, book, exchange, symbol, now) == Some(ev))
  }
}

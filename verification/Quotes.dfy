/** Which quotes a shard holds after ticks, and what the janitor leaves of quotes and routes. */
module Quotes {
  import opened Wrappers
  import opened Text
  import opened Domain
  import opened Routes
  import opened Search
  import opened Aggregator

  function QuoteAt(prices: map<string, Book>, symbol: string, exchange: string, market: Market): Option<PriceState> {
    if symbol in prices && exchange in prices[symbol] && market in prices[symbol][exchange] then Some(prices[symbol][exchange][market])
    else None
  }

  /** A tick is accepted exactly when its names and its time are known, its market is one of the two, and its prices are in order. */
  lemma AcceptedExactly(t: MarketTick)
    ensures ValidTick(t) <==>
      && Normalized(t).exchange != "" && TrimSpace(t.symbol) != "" && t.market in {Spot, Futures}
      && 0.0 < t.bid <= t.ask && TickTime(Normalized(t)) != 0
  {
    ToUpperAt(TrimSpace(t.exchange));
    hide ToUpper;
    hide TrimSpace;
  }

  /** Known times are kept; a tick that knows when it was received or when it happened gets all its times; nothing else changes but the spelling. */
  lemma NormalTickHasTimes(t: MarketTick)
    ensures var n := Normalized(t);
      && (t.receivedAt != 0 ==> n.receivedAt == t.receivedAt) && (t.eventTime != 0 ==> n.eventTime == t.eventTime)
      && (t.timestamp != 0 ==> n.timestamp == t.timestamp)
      && (t.receivedAt == 0 ==> n.receivedAt == t.eventTime) && (t.eventTime == 0 ==> n.eventTime == t.receivedAt)
      && (t.receivedAt != 0 || t.eventTime != 0 ==> n.receivedAt != 0 && n.eventTime != 0 && n.timestamp != 0)
      && n.market == t.market && n.bid == t.bid && n.ask == t.ask && n.quoteVolume == t.quoteVolume
  {
  }

  // ---- The newest quote wins ----

  predicate IsOf(t: MarketTick, symbol: string, exchange: string, market: Market) {
    t.symbol == symbol && t.exchange == exchange && t.market == market
  }

  predicate QuoteOf(q: PriceState, t: MarketTick) {
    q.bid == t.bid && q.ask == t.ask && q.receivedAt == t.receivedAt && q.volume24h == t.quoteVolume
  }

  /** The quotes after these ticks, which all carry a receive time. */
  function AfterTicks(env: Env, ticks: seq<MarketTick>): map<string, Book> {
    if ticks == [] then map[] else PricesAfter(TickOp(env, ticks[|ticks| - 1]), AfterTicks(env, ticks[..|ticks| - 1]))
  }

  predicate Received(ticks: seq<MarketTick>) { forall t :: t in ticks ==> CleanTick(t) && t.receivedAt > 0 }

  /** The i-th tick of this market was received latest, and is the last of those received at that time. */
  predicate IsLatest(ticks: seq<MarketTick>, i: nat, symbol: string, exchange: string, market: Market, q: PriceState) {
    && i < |ticks| && IsOf(ticks[i], symbol, exchange, market) && QuoteOf(q, ticks[i])
    && (forall j :: 0 <= j < i && IsOf(ticks[j], symbol, exchange, market) ==> ticks[j].receivedAt <= ticks[i].receivedAt)
    && (forall j :: i < j < |ticks| && IsOf(ticks[j], symbol, exchange, market) ==> ticks[j].receivedAt < ticks[i].receivedAt)
  }

  lemma TickAtMarket(env: Env, prices: map<string, Book>, t: MarketTick, symbol: string, exchange: string, market: Market)
    requires CleanTick(t) && t.receivedAt > 0
    ensures var q, q' := QuoteAt(prices, symbol, exchange, market), QuoteAt(PricesAfter(TickOp(env, t), prices), symbol, exchange, market);
      if IsOf(t, symbol, exchange, market) && (q.Some? ==> q.value.receivedAt <= t.receivedAt || q.value.receivedAt == 0)
      then q'.Some? && QuoteOf(q'.value, t)
      else q' == q
  {
  }

  lemma LatestOfMore(ticks: seq<MarketTick>, t: MarketTick, i: nat, symbol: string, exchange: string, market: Market, q: PriceState, q': PriceState)
    requires IsLatest(ticks, i, symbol, exchange, market, q)
    requires if IsOf(t, symbol, exchange, market) && q.receivedAt <= t.receivedAt then QuoteOf(q', t) else q' == q
    ensures exists k: nat :: IsLatest(ticks + [t], k, symbol, exchange, market, q')
  {
    var all := ticks + [t];
    assert all[i] == ticks[i] && all[|ticks|] == t;
    if IsOf(t, symbol, exchange, market) && q.receivedAt <= t.receivedAt {
      forall j | 0 <= j < |ticks| && IsOf(all[j], symbol, exchange, market) ensures all[j].receivedAt <= t.receivedAt {
        assert all[j] == ticks[j];
      }
      assert IsLatest(all, |ticks|, symbol, exchange, market, q');
    } else {
      assert IsLatest(all, i, symbol, exchange, market, q');
    }
  }

  /** A shard quotes of each market the tick received latest; a market without ticks has no quote. */
  lemma {:induction false} QuoteIsLatest(env: Env, ticks: seq<MarketTick>, symbol: string, exchange: string, market: Market)
    requires Received(ticks)
    ensures var q := QuoteAt(AfterTicks(env, ticks), symbol, exchange, market);
      && (q.None? ==> forall t :: t in ticks ==> !IsOf(t, symbol, exchange, market))
      && (q.Some? ==> exists i: nat :: IsLatest(ticks, i, symbol, exchange, market, q.value))
  {
    hide PricesAfter;
    hide QuoteAt;
    hide IsOf;
    hide IsLatest;
    hide QuoteOf;
    if ticks == [] {
      assert QuoteAt(map[], symbol, exchange, market) == None by { NoQuotes(symbol, exchange, market); }
    } else {
      var front, t := ticks[..|ticks| - 1], ticks[|ticks| - 1];
      assert ticks == front + [t] && t in ticks;
      assert Received(front);
      QuoteIsLatest(env, front, symbol, exchange, market);
      var prices := AfterTicks(env, front);
      TickAtMarket(env, prices, t, symbol, exchange, market);
      var q, q' := QuoteAt(prices, symbol, exchange, market), QuoteAt(AfterTicks(env, ticks), symbol, exchange, market);
      if q.Some? {
        var i: nat :| IsLatest(front, i, symbol, exchange, market, q.value);
        LatestIsReceived(front, i, symbol, exchange, market, q.value);
        LatestOfMore(front, t, i, symbol, exchange, market, q.value, q'.value);
      } else if q'.Some? {
        OnlyIsLatest(front, t, symbol, exchange, market, q'.value);
      }
    }
  }

  lemma NoQuotes(symbol: string, exchange: string, market: Market)
    ensures QuoteAt(map[], symbol, exchange, market) == None
  {
  }

  lemma LatestIsReceived(ticks: seq<MarketTick>, i: nat, symbol: string, exchange: string, market: Market, q: PriceState)
    requires Received(ticks) && IsLatest(ticks, i, symbol, exchange, market, q)
    ensures q.receivedAt != 0
  {
    assert ticks[i] in ticks;
  }

  lemma OnlyIsLatest(front: seq<MarketTick>, t: MarketTick, symbol: string, exchange: string, market: Market, q: PriceState)
    requires (forall e :: e in front ==> !IsOf(e, symbol, exchange, market)) && IsOf(t, symbol, exchange, market) && QuoteOf(q, t)
    ensures IsLatest(front + [t], |front|, symbol, exchange, market, q)
  {
    assert forall j :: 0 <= j < |front| ==> (front + [t])[j] in front;
  }

  // ---- The janitor ----

  /**
   The janitor keeps exactly the routes sighted within the last ten minutes and exactly the quotes received within
   the last twelve lifetimes of a quote, all as they were, and leaves no empty map.
   */
  lemma JanitorKeepsExactly(s: ShardState, now: Time, ttl: int, s': ShardState, out: seq<SpreadEvent>, key: string,
                            symbol: string, exchange: string, market: Market)
    requires Commits(s, JanitorOp(now, ttl), s', out)
    ensures key in s.active && s.active[key].last.timestamp != 0 ==>
      Get(s'.active, key) == if s.active[key].last.timestamp >= now - 600 * SECOND then Some(s.active[key]) else None
    ensures key !in s.active ==> key !in s'.active
    ensures var q := QuoteAt(s.prices, symbol, exchange, market);
      QuoteAt(s'.prices, symbol, exchange, market) == if q.Some? && q.value.receivedAt >= now - 12 * ttl then q else None
    ensures symbol in s'.prices ==> s'.prices[symbol] != map[] && (exchange in s'.prices[symbol] ==> s'.prices[symbol][exchange] != map[])
  {
    hide Commits;
    hide Kept;
    hide QuoteAt;
    JanitorAtRoute(s, now, ttl, s', out, key);
    JanitorPrices(s, now, ttl, s', out);
    KeptQuotes(s.prices, now - ttl * 12, symbol, exchange, market);
  }

  lemma JanitorPrices(s: ShardState, now: Time, ttl: int, s': ShardState, out: seq<SpreadEvent>)
    requires Commits(s, JanitorOp(now, ttl), s', out)
    ensures s'.prices == Kept(s.prices, now - ttl * 12)
  {
    hide Kept;
    hide RouteCommits;
  }

  lemma JanitorAtRoute(s: ShardState, now: Time, ttl: int, s': ShardState, out: seq<SpreadEvent>, key: string)
    requires Commits(s, JanitorOp(now, ttl), s', out)
    ensures key in s.active && s.active[key].last.timestamp != 0 ==>
      Get(s'.active, key) == if s.active[key].last.timestamp >= now - 600 * SECOND then Some(s.active[key]) else None
    ensures key !in s.active ==> key !in s'.active
  {
    assert RouteCommits(s, JanitorOp(now, ttl), s', out, key);
    hide Proj;
    hide PricesAfter;
  }

  lemma KeptQuotes(prices: map<string, Book>, cut: Time, symbol: string, exchange: string, market: Market)
    ensures var q := QuoteAt(prices, symbol, exchange, market);
      QuoteAt(Kept(prices, cut), symbol, exchange, market) == if q.Some? && q.value.receivedAt >= cut then q else None
    ensures var kept := Kept(prices, cut);
      symbol in kept ==> kept[symbol] != map[] && (exchange in kept[symbol] ==> kept[symbol][exchange] != map[])
  {
    if symbol in prices {
      KeptInBook(prices[symbol], cut, exchange, market);
      hide KeptMarkets;
    }
  }

  lemma KeptInBook(book: Book, cut: Time, exchange: string, market: Market)
    ensures exchange in KeptBook(book, cut) ==> exchange in book && KeptBook(book, cut)[exchange] == KeptMarkets(book[exchange], cut) != map[]
    ensures exchange in book && market in KeptMarkets(book[exchange], cut) ==> exchange in KeptBook(book, cut)
  {
  }
}

/**
 What one locked section of the aggregator does to one route, and the loops of the search: the
 pairs of exchanges and the volume prefilter.
 */
module Aggregator {
  import opened Wrappers
  import opened Text
  import opened Domain
  import opened Config
  import opened Search
  import opened Routes
  import F = Funding

  const STALE_ROUTE: int := 10 * MINUTE

  datatype ShardState = ShardState(prices: map<string, Book>, active: map<string, RouteState>)

  /** The events of a log that belong to one route. */
  function Proj(log: seq<SpreadEvent>, key: string): seq<SpreadEvent> {
    if log == [] then []
    else
      var e := log[|log| - 1];
      Proj(log[..|log| - 1], key) + if RouteKey(e) == key then [e] else []
  }

  lemma {:induction false} ProjConcat(a: seq<SpreadEvent>, b: seq<SpreadEvent>, key: string)
    ensures Proj(a + b, key) == Proj(a, key) + Proj(b, key)
  {
    hide RouteKey;
    if b == [] {
      assert a + b == a;
    } else {
      var front, all := b[..|b| - 1], a + b;
      assert all[..|all| - 1] == a + front;
      ProjConcat(a, front, key);
    }
  }

  lemma ProjSnoc(log: seq<SpreadEvent>, e: SpreadEvent, key: string)
    ensures Proj(log + [e], key) == Proj(log, key) + if RouteKey(e) == key then [e] else []
  {
    hide RouteKey;
    assert (log + [e])[..|log|] == log;
  }

  // ---- Ticks ----

  predicate ValidTick(t: MarketTick) {
    && TrimSpace(t.exchange) != "" && TrimSpace(t.symbol) != ""
    && t.market != OtherMarket
    && t.bid > 0.0 && t.ask > 0.0 && t.bid <= t.ask
    && (t.receivedAt != 0 || t.eventTime != 0 || t.timestamp != 0)
  }

  /** Canonical names, and each missing time taken from the next one known. */
  function Normalized(t: MarketTick): MarketTick {
    var received := if t.receivedAt == 0 then t.eventTime else t.receivedAt;
    var event := if t.eventTime == 0 then received else t.eventTime;
    t.(exchange := NormalName(t.exchange), symbol := NormalSymbol(t.symbol), receivedAt := received,
       eventTime := event, timestamp := if t.timestamp == 0 then event else t.timestamp)
  }

  function TickTime(t: MarketTick): Time {
    if t.receivedAt != 0 then t.receivedAt else if t.eventTime != 0 then t.eventTime else t.timestamp
  }

  /** A tick that passed validation and normalization. */
  predicate CleanTick(t: MarketTick) {
    0.0 < t.bid <= t.ask && t.symbol != "" && t.market != OtherMarket && TickTime(t) != 0
  }

  function BookOf(prices: map<string, Book>, symbol: string): Book {
    if symbol in prices then prices[symbol] else map[]
  }

  /** The stored quote was received later than this tick. */
  predicate Outdated(prices: map<string, Book>, t: MarketTick) {
    var stored := Leg(BookOf(prices, t.symbol), t.exchange, t.market);
    stored.Some? && stored.value.receivedAt != 0 && t.receivedAt < stored.value.receivedAt
  }

  function BookAfter(prices: map<string, Book>, t: MarketTick): Book
    requires CleanTick(t)
  {
    var book := BookOf(prices, t.symbol);
    var markets := if t.exchange in book then book[t.exchange] else map[];
    book[t.exchange := markets[t.market := Quote(t.bid, t.ask, t.receivedAt, t.quoteVolume)]]
  }

  // ---- Symbols that are not their own normal form ----

  function RawTick(market: Market, price: real): MarketTick {
    MarketTick("A", "- A", market, price, price, 0.0, 0, 1, 0)
  }

  /**
   Two accepted ticks for the raw symbol "- A" leave a book whose search holds a route, and the
   point query for that route's signal answers that there is none.
   */
  lemma AcceptedRouteIsNotFoundAgain() returns (env: Env, prices: map<string, Book>, ev: SpreadEvent)
    ensures var spot, fut := Normalized(RawTick(Spot, 1.0)), Normalized(RawTick(Futures, 2.0));
      && ValidTick(RawTick(Spot, 1.0)) && ValidTick(RawTick(Futures, 2.0)) && CleanTick(spot) && CleanTick(fut)
      && spot.symbol == fut.symbol == ev.symbol
      && prices == map[fut.symbol := BookAfter(map[spot.symbol := BookAfter(map[], spot)], fut)]
    ensures InSearch(env, prices[ev.symbol], ev.symbol, 1, ev)
    ensures Revalidate(env, prices, NewSignal(ev, 1, 1), 1).None?
  {
    hide InSearch;
    hide IntraEvent;
    NormalSymbolNotIdempotent();
    assert TrimSpace("- A") == "- A" && TrimSpace("A") == "A" && NormalName("A") == "A";
    var spot, fut := Normalized(RawTick(Spot, 1.0)), Normalized(RawTick(Futures, 2.0));
    assert spot.symbol == " A" && spot.exchange == "A";
    var book := BookAfter(map[spot.symbol := BookAfter(map[], spot)], fut);
    assert book == LoneBook(0.0);
    ev := LoneRoute(" A", None, None, 0.0);
    env, prices := LoneEnv(" A", None, None), map[" A" := book];
    assert InSearch(env, book, " A", 1, ev) by { FoundIntra(env, book, " A", 1, ev); }
  }

  // ---- What one commit does to one route ----

  datatype Op = TickOp(env: Env, tick: MarketTick) | JanitorOp(now: Time, ttl: int) | FlushOp(now: Time)

  function LastSeen(s: RouteState): Time { if s.last.timestamp != 0 then s.last.timestamp else s.openedAt }

  predicate Expired(s: RouteState, now: Time) { LastSeen(s) == 0 || now - LastSeen(s) > STALE_ROUTE }

  ghost predicate Observed(env: Env, book: Book, t: MarketTick, key: string, ev: SpreadEvent) {
    IsCandidate(env, book, t.exchange, t.symbol, TickTime(t), ev) && RouteKey(ev) == key
  }

  /** A route of the tick's symbol is observed or missing; every other route is left alone. */
  ghost function TickInput(env: Env, book: Book, t: MarketTick, key: string): RouteInput {
    if exists ev :: Observed(env, book, t, key, ev) then
      var ev :| Observed(env, book, t, key, ev);
      Observation(ev, env.settings.hardMin, CloseThreshold(env.settings))
    else if t.symbol + ":" <= key then Missing(TickTime(t))
    else Untouched
  }

  ghost function InputFor(op: Op, s: ShardState, key: string): RouteInput {
    match op
    case TickOp(env, t) =>
      if !CleanTick(t) || Outdated(s.prices, t) then Untouched
      else TickInput(env, BookAfter(s.prices, t), t, key)
    case JanitorOp(now, _) => if key in s.active && Expired(s.active[key], now) then Missing(now) else Untouched
    case FlushOp(now) => Missing(now)
  }

  /** Quotes received at or after the cut, without the empty maps that deletion leaves behind. */
  function Kept(prices: map<string, Book>, cut: Time): map<string, Book> {
    map sym | sym in prices && KeptBook(prices[sym], cut) != map[] :: KeptBook(prices[sym], cut)
  }

  function KeptBook(book: Book, cut: Time): Book {
    map ex | ex in book && KeptMarkets(book[ex], cut) != map[] :: KeptMarkets(book[ex], cut)
  }

  function KeptMarkets(markets: map<Market, PriceState>, cut: Time): map<Market, PriceState> {
    map m | m in markets && markets[m].receivedAt >= cut :: markets[m]
  }

  function PricesAfter(op: Op, prices: map<string, Book>): map<string, Book> {
    match op
    case TickOp(_, t) => if !CleanTick(t) || Outdated(prices, t) then prices else prices[t.symbol := BookAfter(prices, t)]
    case JanitorOp(now, ttl) => Kept(prices, now - ttl * 12)
    case FlushOp(_) => prices
  }

  /** A commit moves every route by its own input and emits, per route, exactly that step's event. */
  ghost predicate Commits(s: ShardState, op: Op, s': ShardState, out: seq<SpreadEvent>) {
    && s'.prices == PricesAfter(op, s.prices)
    && forall key :: RouteCommits(s, op, s', out, key)
  }

  ghost predicate RouteCommits(s: ShardState, op: Op, s': ShardState, out: seq<SpreadEvent>, key: string) {
    RouteStep(Get(s.active, key), InputFor(op, s, key)) == (Get(s'.active, key), Proj(out, key))
  }

  // ---- Names without colons, and routes stored under their own keys ----

  predicate ColonFreeRoute(e: SpreadEvent) {
    ColonFree(e.symbol) && ColonFree(BuySide(e)) && ColonFree(SellSide(e))
  }

  predicate TidyBook(book: Book) { forall ex :: ex in book ==> ColonFree(ex) }

  predicate Tidy(s: ShardState) {
    && (forall sym :: sym in s.prices ==> TidyBook(s.prices[sym]))
    && (forall key :: key in s.active ==> ColonFreeRoute(s.active[key].last))
  }

  predicate TidyTick(t: MarketTick) { ColonFree(t.exchange) && ColonFree(t.symbol) }

  predicate Keyed(s: ShardState) { forall key :: key in s.active ==> RouteKey(s.active[key].last) == key }

  lemma CandidateIsTidy(env: Env, book: Book, t: MarketTick, ev: SpreadEvent)
    requires IsCandidate(env, book, t.exchange, t.symbol, TickTime(t), ev)
    requires TidyBook(book) && TidyTick(t)
    ensures ev.symbol == t.symbol && ColonFreeRoute(ev)
    ensures BuySide(ev) == ev.buyExchange && SellSide(ev) == ev.sellExchange
  {
    FoundRoute(env, book, t.symbol, TickTime(t), ev);
  }

  /** With colon-free names two candidates of one tick never share a key. */
  lemma CandidatesDiffer(env: Env, book: Book, t: MarketTick, a: SpreadEvent, b: SpreadEvent)
    requires IsCandidate(env, book, t.exchange, t.symbol, TickTime(t), a)
    requires IsCandidate(env, book, t.exchange, t.symbol, TickTime(t), b)
    requires TidyBook(book) && TidyTick(t) && RouteKey(a) == RouteKey(b)
    ensures a == b
  {
    CandidateIsTidy(env, book, t, a);
    CandidateIsTidy(env, book, t, b);
    RouteKeyInjective(a.symbol, a.kind, BuySide(a), SellSide(a), a.buyMarket, a.sellMarket,
                      b.symbol, b.kind, BuySide(b), SellSide(b), b.buyMarket, b.sellMarket);
  }

  lemma InputOfObserved(env: Env, book: Book, t: MarketTick, ev: SpreadEvent)
    requires IsCandidate(env, book, t.exchange, t.symbol, TickTime(t), ev)
    requires TidyBook(book) && TidyTick(t)
    ensures TickInput(env, book, t, RouteKey(ev)) == Observation(ev, env.settings.hardMin, CloseThreshold(env.settings))
    ensures t.symbol + ":" <= RouteKey(ev)
  {
    assert Observed(env, book, t, RouteKey(ev), ev);
    forall other | Observed(env, book, t, RouteKey(ev), other) ensures other == ev {
      CandidatesDiffer(env, book, t, ev, other);
    }
    CandidateIsTidy(env, book, t, ev);
    PrefixMeansSymbol(t.symbol, ev);
  }

  // ---- The cross search as nested loops ----

  /** Lists every exchange once, in an arbitrary order. */
  method Exchanges(book: Book) returns (order: seq<string>)
    ensures forall ex :: ex in order <==> ex in book
    ensures forall i, j :: 0 <= i < j < |order| ==> order[i] != order[j]
  {
    order := [];
    var todo := book.Keys;
    while todo != {}
      invariant todo <= book.Keys
      invariant forall ex :: ex in order <==> ex in book && ex !in todo
      invariant forall i, j :: 0 <= i < j < |order| ==> order[i] != order[j]
    {
      var ex := Pick(todo);
      order := order + [ex];
      todo := todo - {ex};
    }
  }

  /** The pair (a, b) of positions comes before the pair (i, j) of the loops. */
  predicate Before(a: int, b: int, i: int, j: int) { a < i || (a == i && b < j) }

  /** Event n was found at the pair of positions at[n]. */
  predicate FoundAt(env: Env, book: Book, symbol: string, now: Time, order: seq<string>, e: SpreadEvent, at: (int, int)) {
    && 0 <= at.0 < at.1 < |order|
    && (|| (e.buyExchange == order[at.0] && e.sellExchange == order[at.1])
        || (e.buyExchange == order[at.1] && e.sellExchange == order[at.0]))
    && CrossEvent(env, book, symbol, now, e.buyExchange, e.sellExchange) == Some(e)
  }

  predicate PairDone(env: Env, book: Book, symbol: string, now: Time, order: seq<string>, a: int, b: int, events: seq<SpreadEvent>)
    requires 0 <= a < |order| && 0 <= b < |order|
  {
    PairCovered(env, book, symbol, now, order[a], order[b], events) && PairCovered(env, book, symbol, now, order[b], order[a], events)
  }

  /** The events found so far are those of the pairs of positions before (i, j), each once. */
  ghost predicate FoundBefore(env: Env, book: Book, symbol: string, now: Time, order: seq<string>,
                              i: int, j: int, events: seq<SpreadEvent>, at: seq<(int, int)>)
  {
    && |at| == |events|
    && (forall n :: 0 <= n < |at| ==> FoundAt(env, book, symbol, now, order, events[n], at[n]))
    && (forall n :: 0 <= n < |at| ==> Before(at[n].0, at[n].1, i, j))
    && (forall n, m :: 0 <= n < m < |at| ==> Before(at[n].0, at[n].1, at[m].0, at[m].1))
    && (forall a, b :: 0 <= a < b < |order| && Before(a, b, i, j) ==> PairDone(env, book, symbol, now, order, a, b, events))
  }

  predicate PairCovered(env: Env, book: Book, symbol: string, now: Time, buy: string, sell: string, events: seq<SpreadEvent>) {
    var r := CrossEvent(env, book, symbol, now, buy, sell);
    r.Some? ==> r.value in events
  }

  /** Both directions of one pair of exchanges: at most one of them can be open. */
  lemma OneDirection(env: Env, book: Book, symbol: string, now: Time, a: string, b: string)
    ensures CrossEvent(env, book, symbol, now, a, b).None? || CrossEvent(env, book, symbol, now, b, a).None?
  {
  }

  /** One pair of the search: the first direction whose prices cross is the only one examined. */
  method ExaminePair(env: Env, book: Book, symbol: string, now: Time, a: string, b: string) returns (found: Option<SpreadEvent>)
    requires a != b
    requires Fresh(Leg(book, a, Futures), now, env.ttl) && Fresh(Leg(book, b, Futures), now, env.ttl)
    ensures found == if CrossEvent(env, book, symbol, now, a, b).Some? then CrossEvent(env, book, symbol, now, a, b)
                     else CrossEvent(env, book, symbol, now, b, a)
  {
    var left, right := Leg(book, a, Futures).value, Leg(book, b, Futures).value;
    var buyEx, sellEx, buy, sell;
    if left.ask < right.bid {
      buyEx, sellEx, buy, sell := a, b, left, right;
    } else if right.ask < left.bid {
      buyEx, sellEx, buy, sell := b, a, right, left;
    } else {
      return None;
    }
    OneDirection(env, book, symbol, now, a, b);
    var spread := FeeNetSpread(env.settings, buy.ask, sell.bid, buyEx, sellEx);
    if !(spread > 0.0) {
      return None;
    }
    if env.funding.None? {
      return None;
    }
    var fund := F.EvaluateFuturesPair(env.funding.value, buyEx, symbol, sellEx, symbol, spread, now);
    if !fund.profitable {
      return None;
    }
    return Some(EventFor(symbol, CrossExchange, buyEx, sellEx, Futures, buy, sell, fund, now));
  }

  lemma CrossNames(env: Env, book: Book, symbol: string, now: Time, a: string, b: string)
    ensures CrossEvent(env, book, symbol, now, a, b).Some? ==>
      && a != b && a in book && b in book
      && Fresh(Leg(book, a, Futures), now, env.ttl) && Fresh(Leg(book, b, Futures), now, env.ttl)
      && CrossEvent(env, book, symbol, now, a, b).value.buyExchange == a
      && CrossEvent(env, book, symbol, now, a, b).value.sellExchange == b
  {
  }

  /** One more pair examined: its own two directions are covered afterwards, and so are those before. */
  lemma DoneNext(env: Env, book: Book, symbol: string, now: Time, order: seq<string>, i: int, j: int,
                 events: seq<SpreadEvent>, found: Option<SpreadEvent>)
    requires 0 <= i < j < |order|
    requires forall a, b :: 0 <= a < b < |order| && Before(a, b, i, j) ==> PairDone(env, book, symbol, now, order, a, b, events)
    requires IsFound(env, book, symbol, now, order[i], order[j], found)
    ensures forall a, b :: 0 <= a < b < |order| && Before(a, b, i, j + 1)
              ==> PairDone(env, book, symbol, now, order, a, b, Extended(events, found))
  {
    hide CrossEvent;
    forall a, b | 0 <= a < b < |order| && Before(a, b, i, j + 1)
      ensures PairDone(env, book, symbol, now, order, a, b, Extended(events, found))
    {
      if Before(a, b, i, j) {
        assert PairDone(env, book, symbol, now, order, a, b, events);
        CoveredGrows(env, book, symbol, now, order[a], order[b], events, found);
        CoveredGrows(env, book, symbol, now, order[b], order[a], events, found);
      } else {
        assert a == i && b == j;
        assert found.Some? ==> Extended(events, found)[|events|] == found.value;
      }
    }
  }

  function Extended(events: seq<SpreadEvent>, found: Option<SpreadEvent>): seq<SpreadEvent> {
    if found.Some? then events + [found.value] else events
  }

  /** `found` is the open direction of the pair, if there is one. */
  predicate IsFound(env: Env, book: Book, symbol: string, now: Time, a: string, b: string, found: Option<SpreadEvent>) {
    var ab, ba := CrossEvent(env, book, symbol, now, a, b), CrossEvent(env, book, symbol, now, b, a);
    (ab.None? || ba.None?) && found == if ab.Some? then ab else ba
  }

  lemma FoundHere(env: Env, book: Book, symbol: string, now: Time, order: seq<string>, i: int, j: int, found: Option<SpreadEvent>)
    requires 0 <= i < j < |order| && IsFound(env, book, symbol, now, order[i], order[j], found)
    ensures found.Some? ==> FoundAt(env, book, symbol, now, order, found.value, (i, j))
  {
    hide CrossEvent;
    CrossNames(env, book, symbol, now, order[i], order[j]);
    CrossNames(env, book, symbol, now, order[j], order[i]);
  }

  lemma FoundNext(env: Env, book: Book, symbol: string, now: Time, order: seq<string>, i: int, j: int,
                  events: seq<SpreadEvent>, at: seq<(int, int)>, found: Option<SpreadEvent>)
    requires 0 <= i < j < |order| && FoundBefore(env, book, symbol, now, order, i, j, events, at)
    requires IsFound(env, book, symbol, now, order[i], order[j], found)
    ensures FoundBefore(env, book, symbol, now, order, i, j + 1, Extended(events, found),
                        if found.Some? then at + [(i, j)] else at)
  {
    hide CrossEvent;
    hide PairDone;
    hide FoundAt;
    DoneNext(env, book, symbol, now, order, i, j, events, found);
    FoundHere(env, book, symbol, now, order, i, j, found);
    if found.Some? {
      var at' := at + [(i, j)];
      forall n | 0 <= n < |at'| ensures FoundAt(env, book, symbol, now, order, Extended(events, found)[n], at'[n]) {
        if n < |at| {
          assert FoundAt(env, book, symbol, now, order, events[n], at[n]);
        }
      }
    }
  }

  lemma CoveredGrows(env: Env, book: Book, symbol: string, now: Time, buy: string, sell: string,
                     events: seq<SpreadEvent>, found: Option<SpreadEvent>)
    requires PairCovered(env, book, symbol, now, buy, sell, events)
    ensures PairCovered(env, book, symbol, now, buy, sell, Extended(events, found))
  {
    hide CrossEvent;
  }

  /** A stale quote opens no route, so its row of pairs can be skipped. */
  lemma StaleRow(env: Env, book: Book, symbol: string, now: Time, order: seq<string>, i: int,
                 events: seq<SpreadEvent>, at: seq<(int, int)>)
    requires 0 <= i < |order| && FoundBefore(env, book, symbol, now, order, i, i + 1, events, at)
    requires !Fresh(Leg(book, order[i], Futures), now, env.ttl)
    ensures FoundBefore(env, book, symbol, now, order, i + 1, i + 2, events, at)
  {
    hide CrossEvent;
    forall a, b | 0 <= a < b < |order| && Before(a, b, i + 1, i + 2)
      ensures PairDone(env, book, symbol, now, order, a, b, events)
    {
      if a == i {
        CrossNames(env, book, symbol, now, order[a], order[b]);
        CrossNames(env, book, symbol, now, order[b], order[a]);
      }
    }
  }

  /** The last pair of a row is followed by the first of the next. */
  lemma RowEnd(env: Env, book: Book, symbol: string, now: Time, order: seq<string>, i: int,
               events: seq<SpreadEvent>, at: seq<(int, int)>)
    requires 0 <= i < |order| && FoundBefore(env, book, symbol, now, order, i, |order|, events, at)
    ensures FoundBefore(env, book, symbol, now, order, i + 1, i + 2, events, at)
  {
    hide CrossEvent;
    hide PairDone;
  }

  lemma AllCovered(env: Env, book: Book, symbol: string, now: Time, order: seq<string>,
                   events: seq<SpreadEvent>, at: seq<(int, int)>, buy: string, sell: string)
    requires forall ex :: ex in order <==> ex in book
    requires FoundBefore(env, book, symbol, now, order, |order|, |order| + 1, events, at)
    ensures PairCovered(env, book, symbol, now, buy, sell, events)
  {
    CrossNames(env, book, symbol, now, buy, sell);
    hide CrossEvent;
    if CrossEvent(env, book, symbol, now, buy, sell).Some? {
      var a :| 0 <= a < |order| && order[a] == buy;
      var b :| 0 <= b < |order| && order[b] == sell;
      assert a < b ==> PairDone(env, book, symbol, now, order, a, b, events);
      assert b < a ==> PairDone(env, book, symbol, now, order, b, a, events);
    }
  }

  /**
   Every unordered pair of exchanges is examined once.  The result holds exactly the open
   cross routes, each once, whatever the enumeration order.
   */
  method CrossCandidates(env: Env, book: Book, symbol: string, now: Time) returns (events: seq<SpreadEvent>)
    ensures forall n :: 0 <= n < |events| ==>
      CrossEvent(env, book, symbol, now, events[n].buyExchange, events[n].sellExchange) == Some(events[n])
    ensures forall buy, sell :: PairCovered(env, book, symbol, now, buy, sell, events)
    ensures forall n, m :: 0 <= n < m < |events| ==>
      events[n].buyExchange != events[m].buyExchange || events[n].sellExchange != events[m].sellExchange
  {
    hide CrossEvent;
    var order := Exchanges(book);
    events := [];
    ghost var at: seq<(int, int)> := [];
    var i := 0;
    while i < |order|
      invariant 0 <= i <= |order|
      invariant FoundBefore(env, book, symbol, now, order, i, i + 1, events, at)
    {
      if Fresh(Leg(book, order[i], Futures), now, env.ttl) {
        var j := i + 1;
        while j < |order|
          invariant i < j <= |order|
          invariant FoundBefore(env, book, symbol, now, order, i, j, events, at)
        {
          CrossNames(env, book, symbol, now, order[i], order[j]);
          CrossNames(env, book, symbol, now, order[j], order[i]);
          OneDirection(env, book, symbol, now, order[i], order[j]);
          var found := None;
          if Fresh(Leg(book, order[j], Futures), now, env.ttl) {
            found := ExaminePair(env, book, symbol, now, order[i], order[j]);
          }
          FoundNext(env, book, symbol, now, order, i, j, events, at, found);
          if found.Some? {
            assert Extended(events, found) == events + [found.value];
            events := events + [found.value];
            at := at + [(i, j)];
          }
          j := j + 1;
        }
        RowEnd(env, book, symbol, now, order, i, events, at);
      } else {
        StaleRow(env, book, symbol, now, order, i, events, at);
      }
      i := i + 1;
    }
    forall buy, sell ensures PairCovered(env, book, symbol, now, buy, sell, events) {
      AllCovered(env, book, symbol, now, order, events, at, buy, sell);
    }
    FoundOnce(env, book, symbol, now, order, |order|, |order| + 1, events, at);
  }

  lemma FoundOnce(env: Env, book: Book, symbol: string, now: Time, order: seq<string>, i: int, j: int,
                  events: seq<SpreadEvent>, at: seq<(int, int)>)
    requires forall a, b :: 0 <= a < b < |order| ==> order[a] != order[b]
    requires FoundBefore(env, book, symbol, now, order, i, j, events, at)
    ensures forall n, m :: 0 <= n < m < |events| ==>
      events[n].buyExchange != events[m].buyExchange || events[n].sellExchange != events[m].sellExchange
  {
    hide CrossEvent;
    forall n, m | 0 <= n < m < |events|
      ensures events[n].buyExchange != events[m].buyExchange || events[n].sellExchange != events[m].sellExchange
    {
      var p, q := at[n], at[m];
      assert Before(p.0, p.1, q.0, q.1);
    }
  }

  // ---- The volume prefilter as loops ----

  /** The largest figure any fresh leg shows, and zero when there is none. */
  method MaxOverLegs(book: Book, now: Time, ttl: int, figure: (string, Market, PriceState) -> real) returns (max: real)
    ensures max >= 0.0
    ensures max > 0.0 ==> exists ex, m :: Shows(book, now, ttl, figure, ex, m, max)
    ensures forall ex, m :: AtMost(book, now, ttl, figure, ex, m, max)
  {
    max := 0.0;
    var exchanges := book.Keys;
    while exchanges != {}
      invariant exchanges <= book.Keys
      invariant max >= 0.0
      invariant max > 0.0 ==> exists ex, m :: Shows(book, now, ttl, figure, ex, m, max)
      invariant forall ex, m :: ex !in exchanges ==> AtMost(book, now, ttl, figure, ex, m, max)
    {
      var ex := Pick(exchanges);
      exchanges := exchanges - {ex};
      var markets := book[ex].Keys;
      while markets != {}
        invariant markets <= book[ex].Keys
        invariant max >= 0.0
        invariant max > 0.0 ==> exists x, m :: Shows(book, now, ttl, figure, x, m, max)
        invariant forall x, m :: x !in exchanges && (x != ex || m !in markets) ==> AtMost(book, now, ttl, figure, x, m, max)
      {
        var m := Pick(markets);
        markets := markets - {m};
        ghost var before := max;
        if Fresh(Some(book[ex][m]), now, ttl) && figure(ex, m, book[ex][m]) > max {
          max := figure(ex, m, book[ex][m]);
          assert Shows(book, now, ttl, figure, ex, m, max);
        }
        forall x, y | x !in exchanges && (x != ex || y !in markets) ensures AtMost(book, now, ttl, figure, x, y, max) {
          if x != ex || y != m {
            assert AtMost(book, now, ttl, figure, x, y, before);
          }
        }
      }
    }
  }

  predicate Shows(book: Book, now: Time, ttl: int, figure: (string, Market, PriceState) -> real, ex: string, m: Market, v: real) {
    Fresh(Leg(book, ex, m), now, ttl) && figure(ex, m, Leg(book, ex, m).value) == v
  }

  predicate AtMost(book: Book, now: Time, ttl: int, figure: (string, Market, PriceState) -> real, ex: string, m: Market, v: real) {
    Fresh(Leg(book, ex, m), now, ttl) ==> figure(ex, m, Leg(book, ex, m).value) <= v
  }

  method UserReaches(env: Env, book: Book, symbol: string, now: Time, u: User) returns (r: bool)
    ensures r <==> UserMayPass(env, book, symbol, now, u)
  {
    hide LegVolume;
    if u.minVolume == 0.0 {
      return true;
    }
    var figure := (ex: string, m: Market, q: PriceState) => LegVolume(env, ex, symbol, m, q, u, now);
    var max := MaxOverLegs(book, now, env.ttl, figure);
    r := max >= u.minVolume;
    if r && u.minVolume > 0.0 {
      var ex, m :| Shows(book, now, env.ttl, figure, ex, m, max);
      assert LegPasses(env, book, symbol, now, u, ex, m);
    }
    forall ex, m | LegPasses(env, book, symbol, now, u, ex, m) ensures r {
      assert AtMost(book, now, env.ttl, figure, ex, m, max);
    }
  }

  method SymbolMayPassVolume(env: Env, book: Book, symbol: string, now: Time) returns (r: bool)
    ensures r <==> SymbolMayPass(env, book, symbol, now)
  {
    if env.users.None? {
      return true;
    }
    var users := env.users.value;
    var todo := users.Keys;
    while todo != {}
      invariant todo <= users.Keys
      invariant forall id :: id in users && id !in todo ==> !UserMayPass(env, book, symbol, now, users[id])
    {
      var id := Pick(todo);
      todo := todo - {id};
      var passes := UserReaches(env, book, symbol, now, users[id]);
      if passes {
        return true;
      }
    }
    return false;
  }
}

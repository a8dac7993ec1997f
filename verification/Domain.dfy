/** Market data, spread events and signals.  Times are nanoseconds and 0 is the zero time. */
module Domain {
  import opened Text

  type Time = int
  const SECOND: int := 1_000_000_000
  const MINUTE: int := 60 * SECOND

  datatype Market = Spot | Futures | OtherMarket

  function MarketName(m: Market): string {
    match m
    case Spot => "SPOT"
    case Futures => "FUTURES"
    case OtherMarket => "OTHER"
  }

  datatype Timeframe = TF1m | TF5m | TF15m | TF30m | TF1h | TF4h | TF24h | OtherTimeframe

  datatype User = User(chatID: int, minSpread: real, minVolume: real, timeframe: Timeframe,
                       minFundingMinutes: int, updateStep: real)

  datatype MarketTick = MarketTick(exchange: string, symbol: string, market: Market, bid: real, ask: real,
                                   quoteVolume: real, eventTime: Time, receivedAt: Time, timestamp: Time)

  datatype SpreadKind = CrossExchange | IntraExchange

  function KindName(k: SpreadKind): string {
    match k
    case CrossExchange => "CROSS_EXCHANGE"
    case IntraExchange => "INTRA_EXCHANGE"
  }

  datatype Lifecycle = Untagged | Opened | Updated | Closed

  datatype SpreadEvent = SpreadEvent(
    symbol: string, kind: SpreadKind, spread: real,
    buyExchange: string, sellExchange: string, exchangeA: string, exchangeB: string,
    buyMarket: Market, sellMarket: Market, buyAsk: real, sellBid: real, quoteVolume: real,
    buyFundingRate: real, sellFundingRate: real, buyNextFunding: Time, sellNextFunding: Time,
    timestamp: Time, lifecycle: Lifecycle)

  function BuySide(e: SpreadEvent): string { if e.buyExchange == "" then e.exchangeA else e.buyExchange }

  function SellSide(e: SpreadEvent): string { if e.sellExchange == "" then e.exchangeB else e.sellExchange }

  /** The key of a route; the aggregator and the tracker build it the same way. */
  function RouteKey(e: SpreadEvent): string {
    KeyOf(e.symbol, e.kind, BuySide(e), SellSide(e), e.buyMarket, e.sellMarket)
  }

  function KeyOf(symbol: string, kind: SpreadKind, buy: string, sell: string, bm: Market, sm: Market): string {
    symbol + ":" + (KindName(kind) + ":" + (buy + ":" + (sell + ":" + (MarketName(bm) + ":" + MarketName(sm)))))
  }

  lemma MarketNameInjective(a: Market, b: Market)
    requires MarketName(a) == MarketName(b)
    ensures a == b
  {
    assert "SPOT"[0] == 'S' && "FUTURES"[0] == 'F' && "OTHER"[0] == 'O';
  }

  lemma KindNameInjective(a: SpreadKind, b: SpreadKind)
    requires KindName(a) == KindName(b)
    ensures a == b
  {
    assert "CROSS_EXCHANGE"[0] == 'C' && "INTRA_EXCHANGE"[0] == 'I';
  }

  lemma NamesColonFree(m: Market, k: SpreadKind)
    ensures ColonFree(MarketName(m)) && ColonFree(KindName(k))
  {
  }

  function FromRight(symbol: string, kind: SpreadKind, buy: string, sell: string, bm: Market, sm: Market): string {
    symbol + ":" + KindName(kind) + ":" + buy + ":" + sell + ":" + MarketName(bm) + ":" + MarketName(sm)
  }

  lemma KeyFromRight(symbol: string, kind: SpreadKind, buy: string, sell: string, bm: Market, sm: Market)
    ensures KeyOf(symbol, kind, buy, sell, bm, sm) == FromRight(symbol, kind, buy, sell, bm, sm)
  {
    Regroup(sell, MarketName(bm), MarketName(sm));
    var tail := MarketName(bm) + ":" + MarketName(sm);
    Regroup(buy, sell, tail);
    Regroup(KindName(kind), buy, sell + ":" + tail);
    Regroup(symbol, KindName(kind), buy + ":" + (sell + ":" + tail));
    var front := symbol + ":" + KindName(kind);
    Regroup(front, buy, sell + ":" + tail);
    Regroup(front + ":" + buy, sell, tail);
    Regroup(front + ":" + buy + ":" + sell, MarketName(bm), MarketName(sm));
  }

  lemma Regroup(a: string, b: string, c: string)
    ensures a + ":" + (b + ":" + c) == a + ":" + b + ":" + c
  {
  }

  /** With colon-free exchange names a key determines the whole route, whatever the symbols. */
  lemma RouteKeyInjective(symA: string, kA: SpreadKind, bA: string, sA: string, bmA: Market, smA: Market,
                          symB: string, kB: SpreadKind, bB: string, sB: string, bmB: Market, smB: Market)
    requires ColonFree(bA) && ColonFree(sA) && ColonFree(bB) && ColonFree(sB)
    requires KeyOf(symA, kA, bA, sA, bmA, smA) == KeyOf(symB, kB, bB, sB, bmB, smB)
    ensures symA == symB && kA == kB && bA == bB && sA == sB && bmA == bmB && smA == smB
  {
    NamesColonFree(bmA, kA);
    NamesColonFree(bmB, kB);
    NamesColonFree(smA, kA);
    NamesColonFree(smB, kB);
    KeyFromRight(symA, kA, bA, sA, bmA, smA);
    KeyFromRight(symB, kB, bB, sB, bmB, smB);
    hide KeyOf;
    hide KindName;
    hide MarketName;
    hide ColonFree;
    var frontA, frontB := symA + ":" + KindName(kA), symB + ":" + KindName(kB);
    LastFieldsSplit(frontA + ":" + bA + ":" + sA + ":" + MarketName(bmA), MarketName(smA),
                    frontB + ":" + bB + ":" + sB + ":" + MarketName(bmB), MarketName(smB));
    LastFieldsSplit(frontA + ":" + bA + ":" + sA, MarketName(bmA), frontB + ":" + bB + ":" + sB, MarketName(bmB));
    LastFieldsSplit(frontA + ":" + bA, sA, frontB + ":" + bB, sB);
    LastFieldsSplit(frontA, bA, frontB, bB);
    LastFieldsSplit(symA, KindName(kA), symB, KindName(kB));
    MarketNameInjective(bmA, bmB);
    MarketNameInjective(smA, smB);
    KindNameInjective(kA, kB);
  }

  // ---- Exactly when a key determines its route ----

  datatype Route = Route(symbol: string, kind: SpreadKind, buy: string, sell: string, buyMarket: Market, sellMarket: Market)

  function KeyOfRoute(r: Route): string { KeyOf(r.symbol, r.kind, r.buy, r.sell, r.buyMarket, r.sellMarket) }

  /** No other route, of whatever names, has this route's key. */
  ghost predicate KeyDetermines(r: Route) { forall other :: KeyOfRoute(other) == KeyOfRoute(r) ==> other == r }

  lemma KeyColons(r: Route)
    ensures Colons(KeyOfRoute(r)) == Colons(r.symbol) + Colons(r.buy) + Colons(r.sell) + 5
  {
    NamesColonFree(r.buyMarket, r.kind);
    NamesColonFree(r.sellMarket, r.kind);
    NoColons(MarketName(r.buyMarket));
    NoColons(MarketName(r.sellMarket));
    NoColons(KindName(r.kind));
    var markets := MarketName(r.buyMarket) + ":" + MarketName(r.sellMarket);
    FieldColons(MarketName(r.buyMarket), MarketName(r.sellMarket));
    FieldColons(r.sell, markets);
    FieldColons(r.buy, r.sell + ":" + markets);
    FieldColons(KindName(r.kind), r.buy + ":" + (r.sell + ":" + markets));
    FieldColons(r.symbol, KindName(r.kind) + ":" + (r.buy + ":" + (r.sell + ":" + markets)));
    hide MarketName;
    hide KindName;
    hide Colons;
    assert KeyOfRoute(r) == r.symbol + ":" + (KindName(r.kind) + ":" + (r.buy + ":" + (r.sell + ":" + markets)));
  }

  lemma FieldColons(a: string, b: string)
    ensures Colons(a + ":" + b) == Colons(a) + 1 + Colons(b)
  {
    ColonsAppend(a + ":", b);
    ColonsAppend(a, ":");
    assert Colons(":") == 1 by { assert ":"[1..] == ""; }
  }

  /** A name cut at its first colon. */
  lemma CutAtColon(s: string) returns (x: string, y: string)
    requires !ColonFree(s)
    ensures s == x + ":" + y
  {
    var i :| 0 <= i < |s| && s[i] == ':';
    x, y := s[..i], s[i + 1..];
  }

  /** A colon in an exchange name lets two different routes share a key: it moves to the other name. */
  lemma ColonMoves(r: Route) returns (other: Route)
    requires !ColonFree(r.buy) || !ColonFree(r.sell)
    ensures other != r && other.symbol == r.symbol && KeyOfRoute(other) == KeyOfRoute(r)
  {
    var tail := MarketName(r.buyMarket) + ":" + MarketName(r.sellMarket);
    hide MarketName;
    hide KindName;
    if !ColonFree(r.buy) {
      var x, y := CutAtColon(r.buy);
      other := r.(buy := x, sell := y + ":" + r.sell);
      assert |x| < |r.buy|;
      assert y + ":" + r.sell + ":" + tail == y + ":" + (r.sell + ":" + tail);
      assert x + ":" + (y + ":" + (r.sell + ":" + tail)) == r.buy + ":" + (r.sell + ":" + tail);
    } else {
      var x, y := CutAtColon(r.sell);
      other := r.(buy := r.buy + ":" + x, sell := y);
      assert |y| < |r.sell|;
      assert r.buy + ":" + x + ":" + (y + ":" + tail) == r.buy + ":" + (x + ":" + y + ":" + tail);
      assert x + ":" + y + ":" + tail == r.sell + ":" + tail;
    }
  }

  /** The key of a route with a colon-free symbol determines the route exactly when both exchange names are colon-free. */
  lemma KeyDeterminesExactly(r: Route)
    requires ColonFree(r.symbol)
    ensures KeyDetermines(r) <==> ColonFree(r.buy) && ColonFree(r.sell)
  {
    hide KeyOfRoute;
    if ColonFree(r.buy) && ColonFree(r.sell) {
      forall other | KeyOfRoute(other) == KeyOfRoute(r) ensures other == r {
        SameKeySameRoute(r, other);
      }
    } else {
      var other := ColonMoves(r);
    }
  }

  lemma SameKeySameRoute(r: Route, other: Route)
    requires ColonFree(r.symbol) && ColonFree(r.buy) && ColonFree(r.sell) && KeyOfRoute(other) == KeyOfRoute(r)
    ensures other == r
  {
    KeyColons(r);
    KeyColons(other);
    NoColons(r.symbol);
    NoColons(r.buy);
    NoColons(r.sell);
    NoColons(other.buy);
    NoColons(other.sell);
    hide Colons;
    RouteKeyInjective(r.symbol, r.kind, r.buy, r.sell, r.buyMarket, r.sellMarket,
                      other.symbol, other.kind, other.buy, other.sell, other.buyMarket, other.sellMarket);
  }

  /** A key starts with "SYMBOL:" exactly when it is a key of that symbol, for a colon-free symbol. */
  lemma PrefixMeansSymbol(symbol: string, e: SpreadEvent)
    requires ColonFree(symbol) && ColonFree(e.symbol)
    ensures symbol + ":" <= RouteKey(e) <==> e.symbol == symbol
  {
    var rest := KindName(e.kind) + ":" + (BuySide(e) + ":" + (SellSide(e) + ":"
              + (MarketName(e.buyMarket) + ":" + MarketName(e.sellMarket))));
    assert RouteKey(e) == e.symbol + ":" + rest;
    if symbol + ":" <= RouteKey(e) {
      var cut := RouteKey(e)[|symbol| + 1..];
      assert symbol + ":" + cut == RouteKey(e);
      FieldsSplit(symbol, cut, e.symbol, rest);
    }
  }

  /** A signal; id 0 stands for the empty identifier. */
  datatype Signal = Signal(
    id: nat, symbol: string, kind: SpreadKind, buyExchange: string, sellExchange: string,
    buyMarket: Market, sellMarket: Market, openedAt: Time, closedAt: Time, isActive: bool,
    initialSpread: real, peakSpread: real, finalSpread: real, duration: int, quoteVolume: real,
    buyFundingRate: real, sellFundingRate: real, buyNextFunding: Time, sellNextFunding: Time,
    notified: seq<int>)

  function NewSignal(e: SpreadEvent, id: nat, ts: Time): Signal {
    Signal(id, e.symbol, e.kind, BuySide(e), SellSide(e), e.buyMarket, e.sellMarket, ts, 0, true,
           e.spread, e.spread, 0.0, 0, e.quoteVolume,
           e.buyFundingRate, e.sellFundingRate, e.buyNextFunding, e.sellNextFunding, [])
  }

  function UpdateSignal(s: Signal, e: SpreadEvent): Signal {
    if !s.isActive || e.timestamp < s.openedAt then s
    else s.(peakSpread := if e.spread > s.peakSpread then e.spread else s.peakSpread,
            quoteVolume := if e.quoteVolume > s.quoteVolume then e.quoteVolume else s.quoteVolume,
            buyFundingRate := e.buyFundingRate, sellFundingRate := e.sellFundingRate,
            buyNextFunding := e.buyNextFunding, sellNextFunding := e.sellNextFunding)
  }

  function CloseSignal(s: Signal, ts: Time, finalSpread: real): Signal {
    if !s.isActive then s
    else
      var at := if ts < s.openedAt then s.openedAt else ts;
      s.(isActive := false, closedAt := at, finalSpread := finalSpread, duration := at - s.openedAt)
  }
}

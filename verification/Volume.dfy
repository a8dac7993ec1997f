/**
 The interval-volume engine: per-minute quote turnover of each market, kept for the
 longest window plus two minutes, and the projections computed from it.
 */
module Volume {
  import opened Wrappers
  import opened Numbers
  import opened Text
  import opened Domain

  const RETENTION: int := 242 * MINUTE

  datatype Candle = Candle(exchange: string, symbol: string, market: Option<Market>, openTime: Time, quoteVolume: real)
  datatype Bucket = Bucket(start: Time, quote: real)
  datatype Series = Series(buckets: map<int, Bucket>, lastSeen: Time)
  type VolumeData = map<string, Series>

  datatype Estimate = Estimate(volume: real, complete: bool, knownMinutes: nat, windowMinutes: nat)

  function NoEstimate(minutes: nat): Estimate { Estimate(0.0, false, 0, minutes) }

  function VolumeKey(exchange: string, symbol: string, market: Market): string {
    ToUpper(exchange) + "|" + ToUpper(symbol) + "|" + MarketName(market)
  }

  /** Minutes since the zero time, rounded down. */
  function MinuteIndex(t: Time): int { t / MINUTE }

  /** Buckets are indexed by the second at which their minute starts. */
  function BucketKey(minute: int): int { 60 * minute }

  /** Whole seconds, rounded down. */
  function Seconds(t: Time): int { t / SECOND }

  function WindowOf(tf: Timeframe): Option<nat> {
    match tf
    case TF1m => Some(1)
    case TF5m => Some(5)
    case TF15m => Some(15)
    case TF30m => Some(30)
    case TF1h => Some(60)
    case TF4h => Some(240)
    case TF24h => Some(1440)
    case OtherTimeframe => None
  }

  // ---- What an estimate is ----

  /** The number of consecutive known minutes that end at minute `end`, at most n. */
  function Run(buckets: map<int, Bucket>, end: int, n: nat): (r: nat)
    ensures r <= n
    decreases n
  {
    if n == 0 || BucketKey(end) !in buckets then 0 else 1 + Run(buckets, end - 1, n - 1)
  }

  /** The turnover of the n minutes that end at minute `end`. */
  function Turnover(buckets: map<int, Bucket>, end: int, n: nat): real
    requires n <= Run(buckets, end, n)
    decreases n
  {
    if n == 0 then 0.0 else buckets[BucketKey(end)].quote + Turnover(buckets, end - 1, n - 1)
  }

  lemma {:induction false} RunPrefix(buckets: map<int, Bucket>, end: int, n: nat, m: nat)
    requires m <= Run(buckets, end, n)
    ensures Run(buckets, end, m) == m
    decreases m
  {
    if m > 0 {
      RunPrefix(buckets, end - 1, n - 1, m - 1);
    }
  }

  /** The turnover of the whole run. */
  function RunTurnover(buckets: map<int, Bucket>, end: int, minutes: nat): real {
    RunPrefix(buckets, end, minutes, Run(buckets, end, minutes));
    Turnover(buckets, end, Run(buckets, end, minutes))
  }

  function EstimateOf(buckets: map<int, Bucket>, end: int, minutes: nat): Estimate {
    var known := Run(buckets, end, minutes);
    if known == 0 || end == 0 then NoEstimate(minutes)
    else
      var total := RunTurnover(buckets, end, minutes);
      if known == minutes then Estimate(total, true, known, minutes)
      else Estimate(Div(total, known as real) * minutes as real, false, known, minutes)
  }

  /** The projection for one market at `now`; a zero `now` means the engine's own clock. */
  function MarketEstimate(data: VolumeData, exchange: string, symbol: string, market: Market,
                          tf: Timeframe, now: Time, clock: Time): Estimate
  {
    match WindowOf(tf)
    case None => NoEstimate(0)
    case Some(minutes) =>
      var key := VolumeKey(exchange, symbol, market);
      if key !in data then NoEstimate(minutes)
      else EstimateOf(data[key].buckets, MinuteIndex(if now == 0 then clock else now), minutes)
  }

  /** A route is as liquid as its thinner leg. */
  function RouteEstimate(data: VolumeData, buyEx: string, buyMarket: Market, sellEx: string, sellMarket: Market,
                         symbol: string, tf: Timeframe, now: Time, clock: Time): Estimate
  {
    var a := MarketEstimate(data, buyEx, symbol, buyMarket, tf, now, clock);
    var b := MarketEstimate(data, sellEx, symbol, sellMarket, tf, now, clock);
    if a.knownMinutes == 0 || b.knownMinutes == 0 then NoEstimate(a.windowMinutes)
    else Estimate(if b.volume < a.volume then b.volume else a.volume, a.complete && b.complete,
                  MinInt(a.knownMinutes, b.knownMinutes), MaxInt(a.windowMinutes, b.windowMinutes))
  }

  // ---- Histories, with and without deletion ----

  predicate Ignored(c: Candle) {
    c.exchange == "" || c.symbol == "" || c.openTime == 0 || c.market.None? || c.quoteVolume < 0.0
  }

  function CandleKey(c: Candle): string
    requires !Ignored(c)
  {
    VolumeKey(c.exchange, c.symbol, c.market.value)
  }

  function SeriesOf(data: VolumeData, key: string): Series {
    if key in data then data[key] else Series(map[], 0)
  }

  /** The series after a candle replaced the bucket of its minute. */
  function WithCandle(data: VolumeData, c: Candle, now: Time): Series
    requires !Ignored(c)
  {
    var s := SeriesOf(data, CandleKey(c));
    var minute := MinuteIndex(c.openTime);
    Series(s.buckets[BucketKey(minute) := Bucket(minute * MINUTE, c.quoteVolume)], if now > s.lastSeen then now else s.lastSeen)
  }

  function Pruned(buckets: map<int, Bucket>, cut: int): map<int, Bucket> {
    map ts | ts in buckets && ts >= cut :: buckets[ts]
  }

  /** Ingestion that never deletes: the reference history. */
  function Keep(data: VolumeData, c: Candle, now: Time): VolumeData {
    if Ignored(c) then data else data[CandleKey(c) := WithCandle(data, c, now)]
  }

  /** Ingestion as the engine does it: the touched series loses its expired buckets. */
  function Ingest(data: VolumeData, c: Candle, now: Time): VolumeData {
    if Ignored(c) then data
    else
      var s := WithCandle(data, c, now);
      data[CandleKey(c) := s.(buckets := Pruned(s.buckets, Seconds(now - RETENTION)))]
  }

  predicate Expired(s: Series, now: Time) { s.lastSeen == 0 || now - s.lastSeen > RETENTION }

  function LiveBuckets(s: Series, now: Time): map<int, Bucket> {
    map ts | ts in s.buckets && ts * SECOND >= now - RETENTION :: s.buckets[ts]
  }

  /** The periodic pass: expired buckets go, and series not updated for the retention go whole. */
  function Swept(data: VolumeData, now: Time): VolumeData {
    map k | k in data && !Expired(data[k], now) :: data[k].(buckets := LiveBuckets(data[k], now))
  }

  datatype Op = Update(candle: Candle, now: Time) | Sweep(now: Time)

  function ApplyPruning(data: VolumeData, op: Op): VolumeData {
    match op
    case Update(c, now) => Ingest(data, c, now)
    case Sweep(now) => Swept(data, now)
  }

  function ApplyKeeping(data: VolumeData, op: Op): VolumeData {
    match op
    case Update(c, now) => Keep(data, c, now)
    case Sweep(_) => data
  }

  function History(ops: seq<Op>): VolumeData {
    if ops == [] then map[] else ApplyPruning(History(ops[..|ops| - 1]), ops[|ops| - 1])
  }

  function FullHistory(ops: seq<Op>): VolumeData {
    if ops == [] then map[] else ApplyKeeping(FullHistory(ops[..|ops| - 1]), ops[|ops| - 1])
  }

  // ---- Deletion is invisible inside the retention ----

  /** What the engine was told: every clock reading is positive and at most `latest`, no candle opens in the future. */
  predicate Plausible(ops: seq<Op>, latest: Time) {
    forall i :: 0 <= i < |ops| ==>
      0 < ops[i].now <= latest && (ops[i].Update? ==> ops[i].candle.openTime <= ops[i].now)
  }

  /** Both histories hold the same buckets from `latest - RETENTION` on, and what is gone is older. */
  ghost predicate Agree(p: VolumeData, f: VolumeData, latest: Time) {
    && (forall k :: k in p ==> k in f)
    && (forall k, ts :: k in p && ts * SECOND >= latest - RETENTION
          ==> Get(p[k].buckets, ts) == Get(f[k].buckets, ts))
    && (forall k, ts :: k in f && k !in p && ts in f[k].buckets ==> ts * SECOND < latest - RETENTION)
    && (forall k, ts :: k in p && ts in f[k].buckets
          ==> ts * SECOND < latest - RETENTION || ts * SECOND <= p[k].lastSeen)
    && (forall k :: k in p ==> p[k].lastSeen > 0)
  }

  lemma UpdateAgrees(p: VolumeData, f: VolumeData, c: Candle, now: Time, latest: Time)
    requires Agree(p, f, latest) && 0 < now <= latest && c.openTime <= now
    ensures Agree(Ingest(p, c, now), Keep(f, c, now), latest)
  {
    hide CandleKey;
    if !Ignored(c) {
      var key := CandleKey(c);
      var p', f' := Ingest(p, c, now), Keep(f, c, now);
      forall ts | ts * SECOND >= latest - RETENTION
        ensures Get(p'[key].buckets, ts) == Get(f'[key].buckets, ts)
      {
        if key in p {
          assert Get(p[key].buckets, ts) == Get(f[key].buckets, ts);
        }
      }
    }
  }

  lemma SweepAgrees(p: VolumeData, f: VolumeData, now: Time, latest: Time)
    requires Agree(p, f, latest) && 0 < now <= latest
    ensures Agree(Swept(p, now), f, latest)
  {
    var p' := Swept(p, now);
    forall k, ts | k in p' && ts * SECOND >= latest - RETENTION
      ensures Get(p'[k].buckets, ts) == Get(f[k].buckets, ts)
    {
      assert Get(p[k].buckets, ts) == Get(f[k].buckets, ts);
    }
  }

  lemma {:induction false} HistoriesAgree(ops: seq<Op>, latest: Time)
    requires Plausible(ops, latest)
    ensures Agree(History(ops), FullHistory(ops), latest)
  {
    if ops != [] {
      var front, op := ops[..|ops| - 1], ops[|ops| - 1];
      HistoriesAgree(front, latest);
      match op
      case Update(c, now) => UpdateAgrees(History(front), FullHistory(front), c, now, latest);
      case Sweep(now) => SweepAgrees(History(front), FullHistory(front), now, latest);
    }
  }

  lemma {:induction false} RunAgrees(a: map<int, Bucket>, b: map<int, Bucket>, end: int, n: nat)
    requires forall m :: end - n < m <= end ==> Get(a, BucketKey(m)) == Get(b, BucketKey(m))
    ensures Run(a, end, n) == Run(b, end, n)
    decreases n
  {
    if n > 0 {
      assert Get(a, BucketKey(end)) == Get(b, BucketKey(end));
      RunAgrees(a, b, end - 1, n - 1);
    }
  }

  lemma {:induction false} TurnoverAgrees(a: map<int, Bucket>, b: map<int, Bucket>, end: int, n: nat)
    requires forall m :: end - n < m <= end ==> Get(a, BucketKey(m)) == Get(b, BucketKey(m))
    requires n <= Run(a, end, n) && n <= Run(b, end, n)
    ensures Turnover(a, end, n) == Turnover(b, end, n)
    decreases n
  {
    if n > 0 {
      assert Get(a, BucketKey(end)) == Get(b, BucketKey(end));
      TurnoverAgrees(a, b, end - 1, n - 1);
    }
  }

  lemma EstimateAgrees(a: map<int, Bucket>, b: map<int, Bucket>, end: int, minutes: nat)
    requires forall m :: end - minutes < m <= end ==> Get(a, BucketKey(m)) == Get(b, BucketKey(m))
    ensures EstimateOf(a, end, minutes) == EstimateOf(b, end, minutes)
  {
    RunAgrees(a, b, end, minutes);
    var known := Run(a, end, minutes);
    RunPrefix(a, end, minutes, known);
    RunPrefix(b, end, minutes, known);
    TurnoverAgrees(a, b, end, known);
  }

  /** The query cannot reach a minute that may be gone: its oldest minute is retained, or no known run can end at its newest. */
  predicate Unprunable(end: int, window: nat, latest: Time) {
    end == 0 || end > MinuteIndex(latest) || (end - window + 1) * MINUTE >= latest - RETENTION
  }

  lemma {:induction false} NoFutureBuckets(ops: seq<Op>, latest: Time)
    requires Plausible(ops, latest)
    ensures forall k, ts :: k in FullHistory(ops) && ts in FullHistory(ops)[k].buckets ==> ts * SECOND <= latest
  {
    if ops != [] {
      NoFutureBuckets(ops[..|ops| - 1], latest);
    }
  }

  /** No history can be told from one that never deletes by a query that cannot reach what may be gone. */
  lemma UnprunableAgrees(ops: seq<Op>, latest: Time, exchange: string, symbol: string, market: Market,
                         tf: Timeframe, now: Time, clock: Time)
    requires Plausible(ops, latest)
    requires WindowOf(tf).Some? ==> Unprunable(MinuteIndex(if now == 0 then clock else now), WindowOf(tf).value, latest)
    ensures MarketEstimate(History(ops), exchange, symbol, market, tf, now, clock)
         == MarketEstimate(FullHistory(ops), exchange, symbol, market, tf, now, clock)
  {
    if WindowOf(tf).Some? {
      HistoriesAgree(ops, latest);
      NoFutureBuckets(ops, latest);
      SeriesAgree(History(ops), FullHistory(ops), latest, VolumeKey(exchange, symbol, market),
                  MinuteIndex(if now == 0 then clock else now), WindowOf(tf).value);
    }
  }

  lemma SeriesAgree(p: VolumeData, f: VolumeData, latest: Time, key: string, end: int, minutes: nat)
    requires Agree(p, f, latest) && minutes > 0 && Unprunable(end, minutes, latest)
    requires forall k, ts :: k in f && ts in f[k].buckets ==> ts * SECOND <= latest
    ensures key in p ==> key in f && EstimateOf(p[key].buckets, end, minutes) == EstimateOf(f[key].buckets, end, minutes)
    ensures key !in p && key in f ==> EstimateOf(f[key].buckets, end, minutes) == NoEstimate(minutes)
  {
    assert BucketKey(end) * SECOND == end * MINUTE;
    if end == 0 {
    } else if end > MinuteIndex(latest) {
      assert end * MINUTE > latest;
      if key in p {
        assert Get(p[key].buckets, BucketKey(end)) == Get(f[key].buckets, BucketKey(end));
      }
    } else if key in p {
      forall m | end - minutes < m <= end
        ensures Get(p[key].buckets, BucketKey(m)) == Get(f[key].buckets, BucketKey(m))
      {
        assert BucketKey(m) * SECOND >= latest - RETENTION;
      }
      EstimateAgrees(p[key].buckets, f[key].buckets, end, minutes);
    }
  }

  /** In particular a query of at most four hours whose minute starts within three minutes of the latest pruning clock. */
  lemma PruningInvisible(ops: seq<Op>, latest: Time, exchange: string, symbol: string, market: Market,
                         tf: Timeframe, now: Time, clock: Time)
    requires Plausible(ops, latest)
    requires tf != TF24h
    requires MinuteIndex(if now == 0 then clock else now) * MINUTE >= latest - 180 * SECOND
    ensures MarketEstimate(History(ops), exchange, symbol, market, tf, now, clock)
         == MarketEstimate(FullHistory(ops), exchange, symbol, market, tf, now, clock)
  {
    UnprunableAgrees(ops, latest, exchange, symbol, market, tf, now, clock);
  }

  // ---- One minute further back a query notices ----

  /** A candle of the minute; the zero time would mean that the candle has none. */
  function CandleAt(minute: int): Candle { Candle("A", "B", Some(Spot), if minute == 0 then 1 else minute * MINUTE, 1.0) }

  /** One candle for each of the n minutes that end at minute `end`, all received at `latest`. */
  function Backlog(end: int, n: nat, latest: Time): (ops: seq<Op>)
    requires latest > 0 && end * MINUTE <= latest
    ensures |ops| == n
    ensures Plausible(ops, latest)
  {
    if n == 0 then [] else Backlog(end, n - 1, latest) + [Update(CandleAt(end + 1 - n), latest)]
  }

  lemma KeepAddsMinute(f: VolumeData, minute: int, now: Time)
    ensures var key := VolumeKey("A", "B", Spot);
      key in Keep(f, CandleAt(minute), now)
      && Keep(f, CandleAt(minute), now)[key].buckets.Keys == SeriesOf(f, key).buckets.Keys + {BucketKey(minute)}
  {
    assert !Ignored(CandleAt(minute));
    assert MinuteIndex(CandleAt(minute).openTime) == minute;
  }

  lemma {:induction false} BacklogIsKept(end: int, n: nat, latest: Time, m: int)
    requires latest > 0 && end * MINUTE <= latest && end - n < m <= end
    ensures VolumeKey("A", "B", Spot) in FullHistory(Backlog(end, n, latest))
    ensures BucketKey(m) in FullHistory(Backlog(end, n, latest))[VolumeKey("A", "B", Spot)].buckets
  {
    var front := Backlog(end, n - 1, latest);
    assert Backlog(end, n, latest)[..n - 1] == front;
    KeepAddsMinute(FullHistory(front), end + 1 - n, latest);
    if m != end + 1 - n {
      BacklogIsKept(end, n - 1, latest, m);
    }
  }

  lemma {:induction false} RunOfKnown(buckets: map<int, Bucket>, end: int, n: nat)
    requires forall m :: end - n < m <= end ==> BucketKey(m) in buckets
    ensures Run(buckets, end, n) == n
    decreases n
  {
    if n > 0 {
      assert BucketKey(end) in buckets;
      RunOfKnown(buckets, end - 1, n - 1);
    }
  }

  lemma {:induction false} RunReaches(buckets: map<int, Bucket>, end: int, n: nat, m: int)
    requires end - Run(buckets, end, n) < m <= end
    ensures BucketKey(m) in buckets
    decreases n
  {
    if m < end {
      RunReaches(buckets, end - 1, n - 1, m);
    }
  }

  lemma FullWindow(buckets: map<int, Bucket>, end: int, minutes: nat)
    requires end != 0 && minutes > 0
    requires forall m :: end - minutes < m <= end ==> BucketKey(m) in buckets
    ensures EstimateOf(buckets, end, minutes).complete
  {
    RunOfKnown(buckets, end, minutes);
  }

  lemma GapInWindow(buckets: map<int, Bucket>, end: int, minutes: nat, gap: int)
    requires end - minutes < gap <= end && BucketKey(gap) !in buckets
    ensures !EstimateOf(buckets, end, minutes).complete
  {
    if Run(buckets, end, minutes) == minutes {
      RunReaches(buckets, end, minutes, gap);
    }
  }

  lemma BacklogIsComplete(end: int, w: nat, latest: Time)
    requires latest > 0 && end * MINUTE <= latest && end != 0 && w > 0
    ensures var key, f := VolumeKey("A", "B", Spot), FullHistory(Backlog(end, w, latest));
      key in f && EstimateOf(f[key].buckets, end, w).complete
  {
    BacklogIsKept(end, w, latest, end);
    var buckets := FullHistory(Backlog(end, w, latest))[VolumeKey("A", "B", Spot)].buckets;
    forall m | end - w < m <= end ensures BucketKey(m) in buckets {
      BacklogIsKept(end, w, latest, m);
    }
    FullWindow(buckets, end, w);
  }

  lemma SweepLeavesAGap(before: VolumeData, key: string, end: int, w: nat, latest: Time)
    requires 0 < w && latest - RETENTION > (end - w + 1) * MINUTE
    requires key in Swept(before, latest)
    ensures !EstimateOf(Swept(before, latest)[key].buckets, end, w).complete
  {
    assert BucketKey(end - w + 1) * SECOND == (end - w + 1) * MINUTE;
    GapInWindow(Swept(before, latest)[key].buckets, end, w, end - w + 1);
  }

  /**
   When the oldest minute of the window may be gone, the engine reports the window as incomplete
   although every minute of it was received.
   */
  lemma PruningVisible(tf: Timeframe, at: Time, latest: Time) returns (ops: seq<Op>)
    requires WindowOf(tf).Some? && latest > 0 && at != 0 && !Unprunable(MinuteIndex(at), WindowOf(tf).value, latest)
    ensures Plausible(ops, latest)
    ensures MarketEstimate(FullHistory(ops), "A", "B", Spot, tf, at, 0).complete
    ensures !MarketEstimate(History(ops), "A", "B", Spot, tf, at, 0).complete
  {
    hide EstimateOf;
    hide Backlog;
    hide Swept;
    var end, w, key := MinuteIndex(at), WindowOf(tf).value, VolumeKey("A", "B", Spot);
    WindowIsPositive(tf);
    var backlog := Backlog(end, w, latest);
    ops := backlog + [Sweep(latest)];
    assert ops[..w] == backlog;
    BacklogIsComplete(end, w, latest);
    if key in History(ops) {
      SweepLeavesAGap(History(backlog), key, end, w, latest);
    }
  }

  lemma WindowIsPositive(tf: Timeframe)
    ensures WindowOf(tf).Some? ==> WindowOf(tf).value > 0
  {
  }

  /** Whatever the engine was told by `latest`, this query cannot tell that anything was deleted. */
  ghost predicate Invisible(tf: Timeframe, at: Time, latest: Time) {
    forall ops, exchange, symbol, market :: Plausible(ops, latest) ==> SameEstimate(ops, exchange, symbol, market, tf, at)
  }

  predicate SameEstimate(ops: seq<Op>, exchange: string, symbol: string, market: Market, tf: Timeframe, at: Time) {
    MarketEstimate(History(ops), exchange, symbol, market, tf, at, 0) == MarketEstimate(FullHistory(ops), exchange, symbol, market, tf, at, 0)
  }

  /** For every timeframe and every minute: deletion is invisible exactly for the queries that cannot reach what may be gone. */
  lemma PruningInvisibleExactly(tf: Timeframe, at: Time, latest: Time)
    requires WindowOf(tf).Some? && latest > 0 && at != 0
    ensures Invisible(tf, at, latest) <==> Unprunable(MinuteIndex(at), WindowOf(tf).value, latest)
  {
    hide MarketEstimate;
    hide History;
    hide FullHistory;
    if Unprunable(MinuteIndex(at), WindowOf(tf).value, latest) {
      forall ops, exchange, symbol, market | Plausible(ops, latest) ensures SameEstimate(ops, exchange, symbol, market, tf, at) {
        UnprunableAgrees(ops, latest, exchange, symbol, market, tf, at, 0);
      }
    } else {
      var ops := PruningVisible(tf, at, latest);
      assert !SameEstimate(ops, "A", "B", Spot, tf, at);
    }
  }

  // ---- The engine itself ----

  class VolumeEngine {
    var data: map<string, Series>
    var updates: nat

    /** Every bucket is stored under the second at which its minute starts. */
    ghost predicate Valid()
      reads this
    {
      forall k, ts :: k in data && ts in data[k].buckets
        ==> data[k].buckets[ts].start == ts * SECOND && ts % 60 == 0
    }

    constructor ()
      ensures Valid() && data == map[] && updates == 0
    {
      data, updates := map[], 0;
    }

    /** `now` is the clock of the update and `later` the one the thousandth update's sweep reads. */
    method UpdateCandle(c: Candle, now: Time, later: Time)
      requires Valid()
      modifies this
      ensures Valid()
      ensures updates == old(updates) + if Ignored(c) then 0 else 1
      ensures data == if !Ignored(c) && updates % 1000 == 0
                      then Swept(Ingest(old(data), c, now), later) else Ingest(old(data), c, now)
    {
      hide VolumeKey;
      hide Swept;
      if Ignored(c) {
        return;
      }
      var key, minute := CandleKey(c), MinuteIndex(c.openTime);
      var s := SeriesOf(data, key);
      s := s.(buckets := s.buckets[BucketKey(minute) := Bucket(minute * MINUTE, c.quoteVolume)]);
      if now > s.lastSeen {
        s := s.(lastSeen := now);
      }
      var live := DropBefore(s.buckets, Seconds(now - RETENTION));
      s := s.(buckets := live);
      data := data[key := s];
      updates := updates + 1;
      if updates % 1000 == 0 {
        Janitor(later);
      }
    }

    static method DropBefore(all: map<int, Bucket>, cut: int) returns (buckets: map<int, Bucket>)
      ensures buckets == Pruned(all, cut)
    {
      buckets := all;
      var todo := all.Keys;
      while todo != {}
        invariant todo <= all.Keys
        invariant forall t :: Get(buckets, t) == if t in todo || t >= cut then Get(all, t) else None
      {
        var ts := Pick(todo);
        if ts < cut {
          buckets := map t | t in buckets && t != ts :: buckets[t];
        }
        todo := todo - {ts};
      }
      forall t ensures Get(buckets, t) == Get(Pruned(all, cut), t) {
      }
      SameMap(buckets, Pruned(all, cut));
    }

    method Janitor(now: Time)
      requires Valid()
      modifies this`data
      ensures Valid() && data == Swept(old(data), now)
    {
      var todo := data.Keys;
      while todo != {}
        invariant Valid()
        invariant todo <= old(data).Keys && data.Keys <= old(data).Keys
        invariant forall k :: k in todo ==> k in data && data[k] == old(data)[k]
        invariant forall k :: k in old(data) && k !in todo ==> Get(data, k) == Get(Swept(old(data), now), k)
      {
        var k := Pick(todo);
        var s := data[k];
        data := if Expired(s, now) then data - {k} else data[k := s.(buckets := LiveBuckets(s, now))];
        todo := todo - {k};
      }
      forall k ensures Get(data, k) == Get(Swept(old(data), now), k) {
      }
      SameMap(data, Swept(old(data), now));
    }

    /** Two backward scans: to the newest known minute, then over the run that ends there. */
    method EstimateMarketVolume(exchange: string, symbol: string, market: Market, tf: Timeframe, at: Time, clock: Time)
      returns (e: Estimate)
      requires Valid()
      ensures e == MarketEstimate(data, exchange, symbol, market, tf, at, clock)
    {
      if WindowOf(tf).None? {
        return NoEstimate(0);
      }
      var now := if at == 0 then clock else at;
      var minutes, end := WindowOf(tf).value, MinuteIndex(now);
      var key := VolumeKey(exchange, symbol, market);
      if key !in data {
        return NoEstimate(minutes);
      }
      e := EstimateSeries(data[key].buckets, end, minutes);
    }

    static method EstimateSeries(buckets: map<int, Bucket>, end: int, minutes: nat) returns (e: Estimate)
      requires forall ts :: ts in buckets ==> buckets[ts].start == ts * SECOND && ts % 60 == 0
      ensures e == EstimateOf(buckets, end, minutes)
    {
      var latest: Time, m := 0, end;
      while m > end - minutes
        invariant end - minutes <= m <= end
        invariant latest == 0
        invariant m < end ==> BucketKey(end) !in buckets
      {
        if BucketKey(m) in buckets {
          latest := buckets[BucketKey(m)].start;
          break;
        }
        m := m - 1;
      }
      if latest == 0 || latest != end * MINUTE {
        return NoEstimate(minutes);
      }
      var total, known := SumRun(buckets, end, minutes);
      if known == minutes {
        return Estimate(total, true, known, minutes);
      }
      return Estimate(Div(total, known as real) * minutes as real, false, known, minutes);
    }

    /** Adds up the run of known minutes that ends at `end` and stops at the first gap. */
    static method SumRun(buckets: map<int, Bucket>, end: int, minutes: nat) returns (total: real, known: nat)
      ensures known == Run(buckets, end, minutes) && total == RunTurnover(buckets, end, minutes)
    {
      ghost var run := Run(buckets, end, minutes);
      RunPrefix(buckets, end, minutes, run);
      total, known := 0.0, 0;
      while known < minutes
        invariant known <= run <= minutes
        invariant run == known + Run(buckets, end - known, minutes - known)
        invariant Run(buckets, end - known, run - known) == run - known
        invariant Turnover(buckets, end, run) == total + Turnover(buckets, end - known, run - known)
      {
        if BucketKey(end - known) !in buckets {
          break;
        }
        total := total + buckets[BucketKey(end - known)].quote;
        known := known + 1;
      }
    }
  }
}

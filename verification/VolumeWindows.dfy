/** What an interval volume says about the candles that were received. */
module VolumeWindows {
  import opened Wrappers
  import opened Numbers
  import opened Text
  import opened Domain
  import opened Volume

  // ---- The key of a series ----

  predicate BarFree(s: string) { '|' !in s }

  lemma FirstBarSplits(a: string, x: string, b: string, y: string)
    requires BarFree(a) && BarFree(b) && a + "|" + x == b + "|" + y
    ensures a == b && x == y
  {
    var s := a + "|" + x;
    assert s[|a|] == '|' && s[|b|] == '|' by { assert s == b + "|" + y; }
    assert forall i :: 0 <= i < |a| ==> s[i] == a[i];
    assert forall i :: 0 <= i < |b| ==> s[i] == b[i] by { assert s == b + "|" + y; }
    assert |a| == |b|;
    assert a == s[..|a|] && b == s[..|b|] && x == s[|a| + 1..] && y == s[|b| + 1..];
  }

  lemma LastBarSplits(a: string, x: string, b: string, y: string)
    requires BarFree(x) && BarFree(y) && a + "|" + x == b + "|" + y
    ensures a == b && x == y
  {
    var s := a + "|" + x;
    assert s[|a|] == '|' && s[|b|] == '|' by { assert s == b + "|" + y; }
    assert forall i :: |a| < i < |s| ==> s[i] == x[i - |a| - 1];
    assert forall i :: |b| < i < |s| ==> s[i] == y[i - |b| - 1] by { assert s == b + "|" + y; }
    assert |a| == |b|;
    assert a == s[..|a|] && b == s[..|b|] && x == s[|a| + 1..] && y == s[|b| + 1..];
  }

  /** With bar-free exchange names two markets share a series exactly when they are the same but for upper case. */
  lemma SeriesOfOneMarket(ex: string, sym: string, m: Market, ex': string, sym': string, m': Market)
    requires BarFree(ToUpper(ex)) && BarFree(ToUpper(ex'))
    ensures VolumeKey(ex, sym, m) == VolumeKey(ex', sym', m') <==> ToUpper(ex) == ToUpper(ex') && ToUpper(sym) == ToUpper(sym') && m == m'
  {
    if VolumeKey(ex, sym, m) == VolumeKey(ex', sym', m') {
      assert BarFree(MarketName(m)) && BarFree(MarketName(m'));
      LastBarSplits(ToUpper(ex) + "|" + ToUpper(sym), MarketName(m), ToUpper(ex') + "|" + ToUpper(sym'), MarketName(m'));
      FirstBarSplits(ToUpper(ex), ToUpper(sym), ToUpper(ex'), ToUpper(sym'));
      MarketNameInjective(m, m');
    }
  }

  // ---- The candles of a minute ----

  datatype Place = Place(exchange: string, symbol: string, market: Market)

  /** A complete candle of this market, in whatever case its names are written, that opens within this minute. */
  predicate Concerns(c: Candle, at: Place, minute: int) {
    && c.exchange != "" && c.symbol != "" && c.openTime != 0 && c.quoteVolume >= 0.0
    && c.market == Some(at.market) && ToUpper(c.exchange) == ToUpper(at.exchange) && ToUpper(c.symbol) == ToUpper(at.symbol)
    && minute * MINUTE <= c.openTime < (minute + 1) * MINUTE
  }

  /** The turnover of the minute, by the last candle received for it. */
  function LastQuote(ops: seq<Op>, at: Place, minute: int): Option<real> {
    if ops == [] then None
    else
      var op := ops[|ops| - 1];
      if op.Update? && Concerns(op.candle, at, minute) then Some(op.candle.quoteVolume)
      else LastQuote(ops[..|ops| - 1], at, minute)
  }

  /** No exchange name holds the character that joins the parts of a key. */
  predicate PlainNames(ops: seq<Op>) { forall op :: op in ops && op.Update? ==> BarFree(ToUpper(op.candle.exchange)) }

  function QuoteIn(data: VolumeData, at: Place, minute: int): Option<real> {
    var key := VolumeKey(at.exchange, at.symbol, at.market);
    if key in data && BucketKey(minute) in data[key].buckets then Some(data[key].buckets[BucketKey(minute)].quote) else None
  }

  lemma KeepAtMinute(f: VolumeData, c: Candle, now: Time, at: Place, minute: int)
    requires BarFree(ToUpper(at.exchange)) && BarFree(ToUpper(c.exchange))
    ensures QuoteIn(Keep(f, c, now), at, minute) == if Concerns(c, at, minute) then Some(c.quoteVolume) else QuoteIn(f, at, minute)
  {
    if !Ignored(c) {
      SeriesOfOneMarket(c.exchange, c.symbol, c.market.value, at.exchange, at.symbol, at.market);
      MinuteOf(c.openTime, minute);
    }
    hide VolumeKey;
    hide ToUpper;
  }

  lemma MinuteOf(t: Time, minute: int)
    ensures MinuteIndex(t) == minute <==> minute * MINUTE <= t < (minute + 1) * MINUTE
  {
  }

  /** Without deletion the engine holds, for every minute of every market, the last candle received for it. */
  lemma {:induction false} KeepsLastQuotes(ops: seq<Op>, at: Place, minute: int)
    requires PlainNames(ops) && BarFree(ToUpper(at.exchange))
    ensures QuoteIn(FullHistory(ops), at, minute) == LastQuote(ops, at, minute)
  {
    hide Keep;
    hide Concerns;
    if ops != [] {
      var front, op := ops[..|ops| - 1], ops[|ops| - 1];
      assert op in ops;
      KeepsLastQuotes(front, at, minute);
      if op.Update? {
        KeepAtMinute(FullHistory(front), op.candle, op.now, at, minute);
      }
    }
  }

  // ---- The projection ----

  function Sum(qs: seq<real>): real { if qs == [] then 0.0 else qs[0] + Sum(qs[1..]) }

  /** The newest minutes of a window have these turnovers, newest first, and the next one is not known. */
  predicate NewestMinutes(ops: seq<Op>, at: Place, end: int, n: nat, qs: seq<real>) {
    && |qs| <= n
    && (forall i :: 0 <= i < |qs| ==> LastQuote(ops, at, end - i) == Some(qs[i]))
    && (|qs| < n ==> LastQuote(ops, at, end - |qs|) == None)
  }

  predicate NewestIn(buckets: map<int, Bucket>, end: int, n: nat, qs: seq<real>) {
    && |qs| <= n
    && (forall i :: 0 <= i < |qs| ==> Known(buckets, end - i, qs[i]))
    && (|qs| < n ==> BucketKey(end - |qs|) !in buckets)
  }

  predicate Known(buckets: map<int, Bucket>, minute: int, q: real) {
    BucketKey(minute) in buckets && buckets[BucketKey(minute)].quote == q
  }

  lemma {:induction false} RunIsNewest(buckets: map<int, Bucket>, end: int, n: nat, qs: seq<real>)
    requires NewestIn(buckets, end, n, qs)
    ensures Run(buckets, end, n) == |qs| && Run(buckets, end, |qs|) == |qs|
    ensures Turnover(buckets, end, |qs|) == Sum(qs)
    decreases n
  {
    if qs != [] {
      assert Known(buckets, end - 0, qs[0]);
      forall i | 0 <= i < |qs| - 1 ensures Known(buckets, end - 1 - i, qs[1..][i]) {
        assert Known(buckets, end - (i + 1), qs[i + 1]);
      }
      assert NewestIn(buckets, end - 1, n - 1, qs[1..]);
      RunIsNewest(buckets, end - 1, n - 1, qs[1..]);
    }
  }

  predicate Within(x: real, y: real, d: real) { -d <= x - y <= d }

  lemma ScaledError(d: real, e: real, m: real)
    requires -e <= d <= e && m >= 0.0
    ensures -e * m <= d * m <= e * m
  {
  }

  /** Half a unit of the sixteenth digit for each of n times k minutes. */
  function Slack(n: nat, k: nat): real { n as real * k as real * (0.5 / SCALE) }

  function Times(x: real, n: nat): real { x * n as real }

  /** n times the mean of k quotes, up to the rounding of the mean. */
  lemma ProjectionError(total: real, k: nat, n: nat)
    requires k > 0
    ensures Within(Times(Times(Div(total, k as real), n), k), Times(total, n), Slack(n, k))
  {
    hide Div;
    DivError(total, k as real);
    var q, mean := Div(total, k as real), total / k as real;
    assert mean * k as real == total;
    MeanError(q, mean, total, n as real, k as real, 0.5 / SCALE);
  }

  lemma MeanError(q: real, mean: real, total: real, n: real, k: real, e: real)
    requires -e <= q - mean <= e && mean * k == total && n >= 0.0 && k >= 0.0
    ensures Within(q * n * k, total * n, n * k * e)
  {
    var d, m := q - mean, n * k;
    assert m >= 0.0;
    ScaledError(d, e, m);
    Spread(q, mean, n, k);
    assert mean * k * n == total * n;
    assert e * m == n * k * e;
  }

  lemma Spread(q: real, mean: real, n: real, k: real)
    ensures q * n * k - mean * k * n == (q - mean) * (n * k)
  {
  }

  lemma ExactProjection(total: real, n: nat)
    ensures Within(Times(total, n), Times(total, n), Slack(n, n))
  {
    ScaledError(0.0, 0.5 / SCALE, n as real * n as real);
  }

  lemma EstimateShape(buckets: map<int, Bucket>, end: int, n: nat, k: nat)
    requires Run(buckets, end, n) == k <= n && end != 0
    ensures var e, total := EstimateOf(buckets, end, n), RunTurnover(buckets, end, n);
      && (k == 0 ==> e == NoEstimate(n))
      && (0 < k < n ==> e == Estimate(Times(Div(total, k as real), n), false, k, n))
      && (0 < k == n ==> e == Estimate(total, true, n, n))
  {
    hide Run;
    hide RunTurnover;
    hide Div;
  }

  lemma EstimateOfNewest(buckets: map<int, Bucket>, end: int, n: nat, qs: seq<real>)
    requires NewestIn(buckets, end, n, qs) && end != 0 && n > 0
    ensures Projects(EstimateOf(buckets, end, n), qs, n)
  {
    RunIsNewest(buckets, end, n, qs);
    EstimateShape(buckets, end, n, |qs|);
    hide EstimateOf;
    hide Run;
    hide Turnover;
    hide Projects;
    hide Sum;
    hide Div;
    hide Times;
    hide NewestIn;
    assert RunTurnover(buckets, end, n) == Sum(qs);
    hide RunTurnover;
    if qs == [] {
      NothingProjects(n);
    } else if |qs| < n {
      PartProjects(qs, n);
    } else {
      AllProject(qs, n);
    }
  }

  lemma PartProjects(qs: seq<real>, n: nat)
    requires 0 < |qs| < n
    ensures Projects(Estimate(Times(Div(Sum(qs), |qs| as real), n), false, |qs|, n), qs, n)
  {
    hide Div;
    hide Sum;
    hide Within;
    hide Times;
    ProjectionError(Sum(qs), |qs|, n);
  }

  lemma AllProject(qs: seq<real>, n: nat)
    requires 0 < |qs| == n
    ensures Projects(Estimate(Sum(qs), true, n, n), qs, n)
  {
    hide Sum;
    ExactProjection(Sum(qs), n);
  }

  lemma NothingProjects(n: nat)
    requires n > 0
    ensures Projects(NoEstimate(n), [], n)
  {
  }

  /**
   The window's volume from its newest k minutes: their sum if they are all, n times their mean otherwise,
   up to half a unit of the sixteenth digit for each minute, and no estimate without the newest minute.
   */
  predicate Projects(e: Estimate, qs: seq<real>, n: nat) {
    && e.windowMinutes == n && e.knownMinutes == |qs| && (e.complete <==> |qs| == n)
    && (qs == [] ==> e.volume == 0.0)
    && (|qs| == n ==> e.volume == Sum(qs))
    && Within(Times(e.volume, |qs|), Times(Sum(qs), n), Slack(n, |qs|))
  }

  /** The window's length. */
  function Length(tf: Timeframe): Time {
    match tf
    case TF1m => MINUTE
    case TF5m => 5 * MINUTE
    case TF15m => 15 * MINUTE
    case TF30m => 30 * MINUTE
    case TF1h => 3600 * SECOND
    case TF4h => 4 * 3600 * SECOND
    case TF24h => 24 * 3600 * SECOND
    case OtherTimeframe => 0
  }

  lemma WindowLength(tf: Timeframe)
    ensures if tf == OtherTimeframe then WindowOf(tf).None? else WindowOf(tf).Some? && WindowOf(tf).value * MINUTE == Length(tf) > 0
  {
  }

  /**
   What the engine answers, deletion included: for a window of n minutes that ends in the minute of `at`, none of which can
   be gone, the volume is projected from the last candles received for its newest minutes, up to the first gap.
   */
  lemma EstimateFromCandles(ops: seq<Op>, latest: Time, at: Place, tf: Timeframe, now: Time, end: int, n: nat, qs: seq<real>)
    requires Plausible(ops, latest) && PlainNames(ops) && BarFree(ToUpper(at.exchange))
    requires tf != OtherTimeframe && n * MINUTE == Length(tf) && now != 0 && end * MINUTE <= now < (end + 1) * MINUTE && end != 0
    requires Unprunable(end, n, latest) && NewestMinutes(ops, at, end, n, qs)
    ensures Projects(MarketEstimate(History(ops), at.exchange, at.symbol, at.market, tf, now, 0), qs, n)
  {
    hide History;
    hide FullHistory;
    hide EstimateOf;
    hide VolumeKey;
    hide LastQuote;
    hide Projects;
    hide Unprunable;
    WindowLength(tf);
    MinuteOf(now, end);
    UnprunableAgrees(ops, latest, at.exchange, at.symbol, at.market, tf, now, 0);
    var f, key := FullHistory(ops), VolumeKey(at.exchange, at.symbol, at.market);
    forall minute ensures QuoteIn(f, at, minute) == LastQuote(ops, at, minute) {
      KeepsLastQuotes(ops, at, minute);
    }
    if key in f {
      forall i | 0 <= i < |qs| ensures Known(f[key].buckets, end - i, qs[i]) {
        assert QuoteIn(f, at, end - i) == Some(qs[i]);
      }
      assert |qs| < n ==> QuoteIn(f, at, end - |qs|) == None;
      EstimateOfNewest(f[key].buckets, end, n, qs);
    } else {
      assert |qs| > 0 ==> LastQuote(ops, at, end - 0) == Some(qs[0]);
      assert QuoteIn(f, at, end) == None;
      assert qs == [];
      NothingProjects(n);
    }
  }

  /** Constant turnover is projected to n times itself. */
  lemma ConstantTurnover(e: Estimate, k: nat, n: nat, q: real)
    requires 0 < k <= n && Projects(e, seq(k, _ => q), n)
    ensures Within(e.volume, n as real * q, n as real * (0.5 / SCALE))
  {
    SumOfConstant(k, q);
    DividedError(e.volume, n as real * q, n as real * (0.5 / SCALE), k as real);
  }

  lemma DividedError(x: real, y: real, d: real, k: real)
    requires k > 0.0 && -(d * k) <= x * k - y * k <= d * k
    ensures Within(x, y, d)
  {
    assert (x - y) * k == x * k - y * k && (-d) * k == -(d * k);
    if x - y > d {
      ScaledGap(x - y, d, k);
    } else if x - y < -d {
      ScaledGap(-d, x - y, k);
    }
  }

  lemma ScaledGap(a: real, b: real, k: real)
    requires a > b && k > 0.0
    ensures a * k > b * k
  {
    assert (a - b) * k > 0.0;
  }

  lemma OneMoreTime(k: nat, q: real)
    requires k > 0
    ensures k as real * q == q + (k - 1) as real * q
  {
    assert k as real == 1.0 + (k - 1) as real;
  }

  lemma {:induction false} SumOfConstant(k: nat, q: real)
    ensures Sum(seq(k, _ => q)) == k as real * q
  {
    if k > 0 {
      assert seq(k, _ => q)[1..] == seq(k - 1, _ => q);
      SumOfConstant(k - 1, q);
      OneMoreTime(k, q);
    }
  }

  /**
   The sweep keeps exactly the series updated within four hours and two minutes, and of them exactly the buckets whose
   minute starts within that time; an update leaves no older bucket in its own series.
   */
  lemma SweepKeepsExactly(data: VolumeData, now: Time, key: string, ts: int)
    requires key in data && data[key].lastSeen != 0
    ensures key in Swept(data, now) <==> data[key].lastSeen >= now - 14520 * SECOND
    ensures key in Swept(data, now) ==>
      Get(Swept(data, now)[key].buckets, ts) == if ts * SECOND >= now - 14520 * SECOND then Get(data[key].buckets, ts) else None
  {
  }

  lemma UpdateLeavesNothingOld(data: VolumeData, c: Candle, now: Time, ts: int)
    requires !Ignored(c)
    ensures CandleKey(c) in Ingest(data, c, now) && (ts in Ingest(data, c, now)[CandleKey(c)].buckets ==> ts * SECOND > now - 14520 * SECOND - SECOND)
  {
    hide VolumeKey;
    Cut(now, ts);
  }

  lemma Cut(now: Time, ts: int)
    ensures ts >= Seconds(now - RETENTION) ==> ts * SECOND > now - 14520 * SECOND - SECOND
  {
  }

  /** A route is as liquid as its thinner leg, and complete only if both legs are. */
  lemma RouteIsThinnerLeg(data: VolumeData, buyEx: string, buyMarket: Market, sellEx: string, sellMarket: Market,
                          symbol: string, tf: Timeframe, now: Time, clock: Time)
    ensures var a := MarketEstimate(data, buyEx, symbol, buyMarket, tf, now, clock);
      var b := MarketEstimate(data, sellEx, symbol, sellMarket, tf, now, clock);
      var r := RouteEstimate(data, buyEx, buyMarket, sellEx, sellMarket, symbol, tf, now, clock);
      if a.knownMinutes > 0 && b.knownMinutes > 0 then
        r.volume <= a.volume && r.volume <= b.volume && r.volume in {a.volume, b.volume} && (r.complete <==> a.complete && b.complete)
      else r.volume == 0.0 && r.knownMinutes == 0 && !r.complete
  {
  }
}

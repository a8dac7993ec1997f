/** Funding records, their freshness, and the funding-adjusted evaluation of a route. */
module Funding {
  import opened Wrappers
  import opened Text
  import opened Domain

  datatype FundingRecord = FundingRecord(rate: real, nextFunding: Time, eventTime: Time, receivedAt: Time)

  type NonNegative = x: real | x >= 0.0

  datatype FundingConfig = FundingConfig(minSpread: NonNegative, maxStaleness: int, stalenessByExchange: map<string, int>)

  datatype FundingKey = FundingKey(exchange: string, symbol: string)

  datatype FundingState = FundingState(rates: map<FundingKey, FundingRecord>, health: map<string, bool>, config: FundingConfig)

  datatype Reason = Profitable | BelowMinSpread | DataStale | NoData | StreamUnhealthy | InvalidInput

  datatype ArbResult = ArbResult(profitable: bool, reason: Reason, netSpread: real,
                                 buyRate: real, sellRate: real, buyNext: Time, sellNext: Time)

  function Refused(reason: Reason): ArbResult { ArbResult(false, reason, 0.0, 0.0, 0.0, 0, 0) }

  function NormalKey(exchange: string, symbol: string): FundingKey {
    FundingKey(NormalName(exchange), ToUpper(Without(TrimSpace(symbol), {'-', '_', '/'})))
  }

  function StalenessFor(c: FundingConfig, exchange: string): int {
    var name := NormalName(exchange);
    if name in c.stalenessByExchange && c.stalenessByExchange[name] > 0 then c.stalenessByExchange[name]
    else c.maxStaleness
  }

  /** A record received after `now` is fresh; only an age beyond the budget is stale. */
  predicate IsStale(r: FundingRecord, now: Time, max: int) {
    r.receivedAt == 0 || max <= 0 || now - r.receivedAt > max
  }

  predicate Healthy(f: FundingState, exchange: string) {
    NormalName(exchange) in f.health && f.health[NormalName(exchange)]
  }

  datatype Lookup = Usable(record: FundingRecord) | Unusable(result: ArbResult)

  function ValidRecord(f: FundingState, exchange: string, symbol: string, now: Time): Lookup {
    var key := NormalKey(exchange, symbol);
    if key !in f.rates then Unusable(Refused(NoData))
    else
      var r := f.rates[key];
      if !Healthy(f, exchange) then Unusable(Refused(StreamUnhealthy))
      else if r.nextFunding == 0 then Unusable(Refused(NoData))
      else if IsStale(r, now, StalenessFor(f.config, exchange)) then
        Unusable(ArbResult(false, DataStale, 0.0, r.rate, r.rate, r.nextFunding, r.nextFunding))
      else Usable(r)
  }

  /** The buyer pays its rate, the short seller receives its own. */
  function NetSpread(spread: real, buyRate: real, sellRate: real): real { spread + sellRate - buyRate }

  function Judge(f: FundingState, net: real, buyRate: real, sellRate: real, buyNext: Time, sellNext: Time): ArbResult {
    if net < f.config.minSpread then ArbResult(false, BelowMinSpread, net, buyRate, sellRate, buyNext, sellNext)
    else ArbResult(true, Profitable, net, buyRate, sellRate, buyNext, sellNext)
  }

  function EvaluateSpotFutures(f: FundingState, exchange: string, symbol: string, spread: real, now: Time): ArbResult {
    if now == 0 || exchange == "" || symbol == "" || spread < 0.0 then Refused(InvalidInput)
    else
      match ValidRecord(f, exchange, symbol, now)
      case Unusable(result) => result
      case Usable(sell) => Judge(f, NetSpread(spread, 0.0, sell.rate), 0.0, sell.rate, 0, sell.nextFunding)
  }

  function EvaluateFuturesPair(f: FundingState, buyEx: string, buySymbol: string, sellEx: string, sellSymbol: string,
                               spread: real, now: Time): ArbResult
  {
    if now == 0 || buyEx == "" || buySymbol == "" || sellEx == "" || sellSymbol == "" || spread < 0.0 then
      Refused(InvalidInput)
    else
      match ValidRecord(f, buyEx, buySymbol, now)
      case Unusable(result) => result
      case Usable(buy) =>
        match ValidRecord(f, sellEx, sellSymbol, now)
        case Unusable(result) => result
        case Usable(sell) =>
          Judge(f, NetSpread(spread, buy.rate, sell.rate), buy.rate, sell.rate, buy.nextFunding, sell.nextFunding)
  }

  /** What the eviction pass leaves. */
  function Evicted(f: FundingState, now: Time): FundingState {
    f.(rates := map k | k in f.rates && !IsStale(f.rates[k], now, StalenessFor(f.config, k.exchange)) :: f.rates[k])
  }

  // ---- Histories, with and without eviction ----

  /** The stored record carries a later exchange time than the new event. */
  predicate OutOfOrder(rates: map<FundingKey, FundingRecord>, key: FundingKey, event: Time) {
    key in rates && event != 0 && rates[key].eventTime != 0 && event < rates[key].eventTime
  }

  function AfterHealth(f: FundingState, exchange: string, healthy: bool): FundingState {
    if NormalName(exchange) == "" then f else f.(health := f.health[NormalName(exchange) := healthy])
  }

  /** What an update does. */
  function AfterUpdate(f: FundingState, exchange: string, symbol: string, rate: real, next: Time, event: Time, now: Time): FundingState {
    var key := NormalKey(exchange, symbol);
    if key.exchange == "" || key.symbol == "" || OutOfOrder(f.rates, key, event) then f
    else AfterHealth(f.(rates := f.rates[key := FundingRecord(rate, next, event, now)]), exchange, true)
  }

  datatype FundingOp =
    | UpdateOp(exchange: string, symbol: string, rate: real, next: Time, event: Time, now: Time)
    | HealthOp(exchange: string, healthy: bool)
    | EvictOp(now: Time)

  function Apply(f: FundingState, op: FundingOp): FundingState {
    match op
    case UpdateOp(ex, sym, rate, next, event, now) => AfterUpdate(f, ex, sym, rate, next, event, now)
    case HealthOp(ex, healthy) => AfterHealth(f, ex, healthy)
    case EvictOp(now) => Evicted(f, now)
  }

  function History(config: FundingConfig, ops: seq<FundingOp>): FundingState {
    if ops == [] then FundingState(map[], map[], config)
    else Apply(History(config, ops[..|ops| - 1]), ops[|ops| - 1])
  }

  /** The same history without the evictions. */
  function FullHistory(config: FundingConfig, ops: seq<FundingOp>): FundingState {
    if ops == [] then FundingState(map[], map[], config)
    else
      var before := FullHistory(config, ops[..|ops| - 1]);
      if ops[|ops| - 1].EvictOp? then before else Apply(before, ops[|ops| - 1])
  }

  /** Every clock reading is positive, and evictions read at most `clock`. */
  predicate OpBy(op: FundingOp, clock: Time) { (op.UpdateOp? ==> op.now > 0) && (op.EvictOp? ==> 0 < op.now <= clock) }

  predicate AllBy(ops: seq<FundingOp>, clock: Time) { forall i :: 0 <= i < |ops| ==> OpBy(ops[i], clock) }

  /** An eviction forgot the record that would have refused this update. */
  predicate Revived(p: FundingState, f: FundingState, op: FundingOp) {
    op.UpdateOp? && NormalKey(op.exchange, op.symbol) !in p.rates && OutOfOrder(f.rates, NormalKey(op.exchange, op.symbol), op.event)
    && NormalKey(op.exchange, op.symbol).exchange != "" && NormalKey(op.exchange, op.symbol).symbol != ""
  }

  /** No update is older than an evicted record of its key. */
  predicate NothingRevived(config: FundingConfig, ops: seq<FundingOp>) {
    forall n :: 0 <= n < |ops| ==> !Revived(History(config, ops[..n]), FullHistory(config, ops[..n]), ops[n])
  }

  /** The evicting state holds the same records but for some that are stale at the given time. */
  ghost predicate SameButStale(p: FundingState, f: FundingState, at: Time) {
    && p.config == f.config && p.health == f.health
    && (forall key :: key in p.rates ==> Get(f.rates, key) == Some(p.rates[key]))
    && (forall key :: key in f.rates && key !in p.rates ==> IsStale(f.rates[key], at, StalenessFor(f.config, key.exchange)))
  }

  /** Records carry the receive time and the normal name they were stored with. */
  ghost predicate Stamped(f: FundingState) {
    forall key :: key in f.rates ==> f.rates[key].receivedAt > 0 && key.exchange != "" && NormalName(key.exchange) == key.exchange
  }

  /** A record of this exchange can be older than its budget when an eviction reads the clock. */
  predicate CanExpire(config: FundingConfig, clock: Time, exchange: string) {
    NormalName(exchange) != "" && 0 < StalenessFor(config, exchange) && StalenessFor(config, exchange) + 1 < clock
  }

  /** Evictions by `clock` remove nothing still usable at the given time: it is not before the clock, or nothing can expire. */
  ghost predicate Harmless(config: FundingConfig, clock: Time, at: Time) {
    clock <= at || forall exchange :: !CanExpire(config, clock, exchange)
  }

  lemma EvictKeeps(p: FundingState, f: FundingState, now: Time, clock: Time, at: Time)
    requires SameButStale(p, f, at) && Stamped(f) && 0 < now <= clock && Harmless(f.config, clock, at)
    ensures SameButStale(Evicted(p, now), f, at)
  {
    hide StalenessFor;
    hide NormalName;
    forall key | key in f.rates && key !in Evicted(p, now).rates ensures IsStale(f.rates[key], at, StalenessFor(f.config, key.exchange)) {
      if key in p.rates {
        assert IsStale(f.rates[key], now, StalenessFor(f.config, key.exchange));
        assert CanExpire(f.config, clock, key.exchange) || StalenessFor(f.config, key.exchange) <= 0;
      }
    }
  }

  lemma UpdateKeeps(p: FundingState, f: FundingState, op: FundingOp, at: Time)
    requires op.UpdateOp? && SameButStale(p, f, at) && !Revived(p, f, op)
    ensures SameButStale(Apply(p, op), Apply(f, op), at)
  {
    hide StalenessFor;
    hide IsStale;
    hide NormalKey;
    hide NormalName;
  }

  lemma StaysStamped(f: FundingState, op: FundingOp, clock: Time)
    requires Stamped(f) && OpBy(op, clock) && !op.EvictOp?
    ensures Stamped(Apply(f, op)) && Apply(f, op).config == f.config
  {
    if op.UpdateOp? {
      NormalNameIdempotent(op.exchange);
    }
    hide NormalName;
    hide OutOfOrder;
  }

  lemma ApplyKeeps(p: FundingState, f: FundingState, op: FundingOp, clock: Time, at: Time)
    requires SameButStale(p, f, at) && Stamped(f) && OpBy(op, clock) && !Revived(p, f, op) && Harmless(f.config, clock, at)
    ensures SameButStale(Apply(p, op), if op.EvictOp? then f else Apply(f, op), at)
  {
    hide Harmless;
    hide Stamped;
    match op {
      case UpdateOp(_, _, _, _, _, _) => UpdateKeeps(p, f, op, at);
      case HealthOp(_, _) =>
      case EvictOp(now) => EvictKeeps(p, f, now, clock, at);
    }
  }

  lemma RevivedDiffers(p: FundingState, f: FundingState, op: FundingOp, at: Time)
    requires SameButStale(p, f, at) && Revived(p, f, op)
    ensures !SameButStale(Apply(p, op), Apply(f, op), at)
  {
    var key := NormalKey(op.exchange, op.symbol);
    assert Apply(p, op).rates[key].eventTime == op.event && Apply(f, op) == f;
  }

  /** At every moment of the history the two agree. */
  ghost predicate AgreeThroughout(config: FundingConfig, ops: seq<FundingOp>, at: Time) {
    forall n :: 0 <= n <= |ops| ==> AgreeAt(config, ops, n, at)
  }

  ghost predicate AgreeAt(config: FundingConfig, ops: seq<FundingOp>, n: nat, at: Time)
    requires n <= |ops|
  {
    SameButStale(History(config, ops[..n]), FullHistory(config, ops[..n]), at)
  }

  lemma HistorySnoc(config: FundingConfig, ops: seq<FundingOp>, n: nat)
    requires n < |ops|
    ensures History(config, ops[..n + 1]) == Apply(History(config, ops[..n]), ops[n])
    ensures FullHistory(config, ops[..n + 1])
         == if ops[n].EvictOp? then FullHistory(config, ops[..n]) else Apply(FullHistory(config, ops[..n]), ops[n])
  {
    assert ops[..n + 1][..n] == ops[..n] && ops[..n + 1][n] == ops[n];
  }

  lemma {:induction false} AgreeUpTo(config: FundingConfig, ops: seq<FundingOp>, clock: Time, at: Time, n: nat)
    requires AllBy(ops, clock) && NothingRevived(config, ops) && Harmless(config, clock, at) && n <= |ops|
    ensures AgreeAt(config, ops, n, at)
    ensures var f := FullHistory(config, ops[..n]); Stamped(f) && f.config == config
  {
    hide Apply;
    hide SameButStale;
    hide Revived;
    hide Harmless;
    if n == 0 {
      assert ops[..0] == [];
      StartsAlike(config, at);
    } else {
      AgreeUpTo(config, ops, clock, at, n - 1);
      HistorySnoc(config, ops, n - 1);
      ApplyKeeps(History(config, ops[..n - 1]), FullHistory(config, ops[..n - 1]), ops[n - 1], clock, at);
      if !ops[n - 1].EvictOp? {
        StaysStamped(FullHistory(config, ops[..n - 1]), ops[n - 1], clock);
      }
    }
  }

  lemma StartsAlike(config: FundingConfig, at: Time)
    ensures var empty := FundingState(map[], map[], config); SameButStale(empty, empty, at) && Stamped(empty)
  {
  }

  /**
   The evicting manager keeps exactly the records of one that never evicts, but for records stale
   by the latest eviction, at every moment of a history exactly when no update is older than an
   evicted record of its key.
   */
  lemma EvictionAgreesExactly(config: FundingConfig, ops: seq<FundingOp>, clock: Time)
    requires AllBy(ops, clock)
    ensures AgreeThroughout(config, ops, clock) <==> NothingRevived(config, ops)
  {
    hide Apply;
    hide SameButStale;
    hide Revived;
    if NothingRevived(config, ops) {
      forall n | 0 <= n <= |ops| ensures AgreeAt(config, ops, n, clock) {
        AgreeUpTo(config, ops, clock, clock, n);
      }
    } else {
      var n :| 0 <= n < |ops| && Revived(History(config, ops[..n]), FullHistory(config, ops[..n]), ops[n]);
      if AgreeThroughout(config, ops, clock) {
        assert AgreeAt(config, ops, n, clock) && AgreeAt(config, ops, n + 1, clock);
        HistorySnoc(config, ops, n);
        RevivedIsUpdate(History(config, ops[..n]), FullHistory(config, ops[..n]), ops[n]);
        RevivedDiffers(History(config, ops[..n]), FullHistory(config, ops[..n]), ops[n], clock);
      }
    }
  }

  lemma RevivedIsUpdate(p: FundingState, f: FundingState, op: FundingOp)
    requires Revived(p, f, op)
    ensures op.UpdateOp?
  {
  }

  lemma AlikeLookups(p: FundingState, f: FundingState, exchange: string, symbol: string, now: Time)
    requires SameButStale(p, f, now)
    ensures ValidRecord(p, exchange, symbol, now).Usable? <==> ValidRecord(f, exchange, symbol, now).Usable?
    ensures ValidRecord(f, exchange, symbol, now).Usable? ==> ValidRecord(p, exchange, symbol, now) == ValidRecord(f, exchange, symbol, now)
    ensures ValidRecord(p, exchange, symbol, now).Unusable? ==> !ValidRecord(p, exchange, symbol, now).result.profitable
    ensures ValidRecord(f, exchange, symbol, now).Unusable? ==> !ValidRecord(f, exchange, symbol, now).result.profitable
  {
    NormalNameIdempotent(exchange);
  }

  /** One route under both managers: a profitable verdict of either is the verdict of both, with the same figures. */
  ghost predicate SameVerdicts(p: FundingState, f: FundingState, buyEx: string, sellEx: string, symbol: string, spread: real, now: Time) {
    var pair, pair' := EvaluateFuturesPair(f, buyEx, symbol, sellEx, symbol, spread, now),
                       EvaluateFuturesPair(p, buyEx, symbol, sellEx, symbol, spread, now);
    var lone, lone' := EvaluateSpotFutures(f, sellEx, symbol, spread, now), EvaluateSpotFutures(p, sellEx, symbol, spread, now);
    (pair.profitable || pair'.profitable ==> pair == pair') && (lone.profitable || lone'.profitable ==> lone == lone')
  }

  /**
   Over any history that revives nothing, evictions change no profitable verdict and none of its
   figures at a time that is not before the latest eviction; updates may be later or earlier.
   */
  lemma EvictionInvisible(config: FundingConfig, ops: seq<FundingOp>, clock: Time, buyEx: string, sellEx: string, symbol: string,
                          spread: real, now: Time)
    requires AllBy(ops, clock) && NothingRevived(config, ops) && Harmless(config, clock, now)
    ensures SameVerdicts(History(config, ops), FullHistory(config, ops), buyEx, sellEx, symbol, spread, now)
  {
    hide ValidRecord;
    hide SameButStale;
    hide Harmless;
    AgreeUpTo(config, ops, clock, now, |ops|);
    assert ops[..|ops|] == ops;
    var p, f := History(config, ops), FullHistory(config, ops);
    AlikeConfigs(p, f, now);
    AlikeLookups(p, f, buyEx, symbol, now);
    AlikeLookups(p, f, sellEx, symbol, now);
  }

  lemma AlikeConfigs(p: FundingState, f: FundingState, at: Time)
    requires SameButStale(p, f, at)
    ensures p.config == f.config
  {
  }

  /** Whatever was updated and evicted by `clock`, with nothing revived, no verdict at `now` can tell. */
  ghost predicate Invisible(config: FundingConfig, clock: Time, now: Time) {
    forall ops, buyEx, sellEx, symbol, spread :: AllBy(ops, clock) && NothingRevived(config, ops) ==>
      SameVerdicts(History(config, ops), FullHistory(config, ops), buyEx, sellEx, symbol, spread, now)
  }

  /** A record received just long enough before the eviction: judged at an earlier time it would still have been fresh. */
  lemma EarlyVerdictTells(config: FundingConfig, clock: Time, now: Time, exchange: string) returns (ops: seq<FundingOp>)
    requires now != 0 && now < clock && CanExpire(config, clock, exchange)
    ensures AllBy(ops, clock) && NothingRevived(config, ops)
    ensures EvaluateSpotFutures(FullHistory(config, ops), exchange, "S", config.minSpread, now).profitable
    ensures !EvaluateSpotFutures(History(config, ops), exchange, "S", config.minSpread, now).profitable
  {
    var update := UpdateOp(exchange, "S", 0.0, 1, 0, clock - StalenessFor(config, exchange) - 1);
    var evict := EvictOp(clock);
    ops := [update, evict];
    PlainSymbol();
    NormalNameIdempotent(exchange);
    assert exchange != "" by { assert NormalName("") == ""; }
    hide NormalName;
    hide Without;
    hide TrimSpace;
    hide ToUpper;
    var empty := FundingState(map[], map[], config);
    assert ops[..0] == [] && ops[..1] == [update] && [update][..0] == [] && ops[..2] == ops;
    var key := NormalKey(exchange, "S");
    var full := FundingState(map[key := FundingRecord(0.0, 1, 0, update.now)], map[NormalName(exchange) := true], config);
    assert Apply(empty, update) == full;
    assert FullHistory(config, ops) == full by {
      HistorySnoc(config, ops, 0);
      HistorySnoc(config, ops, 1);
    }
    assert History(config, ops) == Evicted(full, clock) by {
      HistorySnoc(config, ops, 0);
      HistorySnoc(config, ops, 1);
    }
    assert key !in Evicted(full, clock).rates;
  }

  lemma PlainSymbol()
    ensures ToUpper(Without(TrimSpace("S"), {'-', '_', '/'})) == "S"
  {
    assert "S"[1..] == "" && TrimSpace("S") == "S";
    assert Without("S", {'-', '_', '/'}) == "S";
  }

  /**
   Evictions are invisible to every verdict at a time exactly when that time is not before the
   latest eviction, or no exchange has a budget short enough for anything to expire by then.
   */
  lemma EvictionInvisibleExactly(config: FundingConfig, clock: Time, now: Time)
    requires now != 0
    ensures Invisible(config, clock, now) <==> Harmless(config, clock, now)
  {
    hide EvaluateSpotFutures;
    hide EvaluateFuturesPair;
    hide History;
    hide FullHistory;
    hide NothingRevived;
    hide CanExpire;
    if Harmless(config, clock, now) {
      forall ops, buyEx, sellEx, symbol, spread | AllBy(ops, clock) && NothingRevived(config, ops)
        ensures SameVerdicts(History(config, ops), FullHistory(config, ops), buyEx, sellEx, symbol, spread, now)
      {
        EvictionInvisible(config, ops, clock, buyEx, sellEx, symbol, spread, now);
      }
    } else {
      var exchange :| CanExpire(config, clock, exchange);
      var ops := EarlyVerdictTells(config, clock, now, exchange);
      assert !SameVerdicts(History(config, ops), FullHistory(config, ops), exchange, exchange, "S", config.minSpread, now);
    }
  }

  /**
   A revived update shows: where the two agreed so far, its record, if it names a next funding
   time and its exchange has a staleness budget, is usable after the eviction and the old one is not without it.
   */
  lemma RevivalIsVisible(p: FundingState, f: FundingState, op: FundingOp, spread: real)
    requires op.UpdateOp? && SameButStale(p, f, op.now) && Revived(p, f, op) && op.now > 0 && op.next != 0
    requires StalenessFor(p.config, op.exchange) > 0
    requires spread >= 0.0 && spread + op.rate >= p.config.minSpread && op.exchange != "" && op.symbol != ""
    ensures EvaluateSpotFutures(Apply(p, op), op.exchange, op.symbol, spread, op.now).profitable
    ensures !EvaluateSpotFutures(Apply(f, op), op.exchange, op.symbol, spread, op.now).profitable
  {
    NormalNameIdempotent(op.exchange);
  }

  /** A profitable verdict rests on healthy, unexpired records with a next funding time. */
  ghost predicate LegFunded(f: FundingState, exchange: string, symbol: string, now: Time) {
    var key := NormalKey(exchange, symbol);
    && key in f.rates && Healthy(f, exchange)
    && f.rates[key].nextFunding != 0 && f.rates[key].receivedAt != 0
    && now - f.rates[key].receivedAt <= StalenessFor(f.config, exchange)
  }

  lemma ProfitableMeansFunded(f: FundingState, buyEx: string, sellEx: string, symbol: string, spread: real, now: Time)
    ensures EvaluateFuturesPair(f, buyEx, symbol, sellEx, symbol, spread, now).profitable
      ==> LegFunded(f, buyEx, symbol, now) && LegFunded(f, sellEx, symbol, now)
    ensures EvaluateSpotFutures(f, sellEx, symbol, spread, now).profitable ==> LegFunded(f, sellEx, symbol, now)
  {
  }

  class FundingManager {
    var rates: map<FundingKey, FundingRecord>
    var health: map<string, bool>
    var config: FundingConfig

    function State(): FundingState
      reads this
    {
      FundingState(rates, health, config)
    }

    constructor (config: FundingConfig)
      ensures State() == FundingState(map[], map[], config)
    {
      rates, health := map[], map[];
      this.config := config;
    }

    method SetExchangeStreamHealth(exchange: string, healthy: bool)
      modifies this`health
      ensures State() == Apply(old(State()), HealthOp(exchange, healthy))
    {
      var name := NormalName(exchange);
      if name == "" {
        return;
      }
      health := health[name := healthy];
    }

    /** Returns false on an empty key; an update older than the stored event is ignored. */
    method UpdateFunding(exchange: string, symbol: string, rate: real, next: Time, event: Time, now: Time) returns (ok: bool)
      modifies this`rates, this`health
      ensures ok <==> NormalKey(exchange, symbol).exchange != "" && NormalKey(exchange, symbol).symbol != ""
      ensures State() == Apply(old(State()), UpdateOp(exchange, symbol, rate, next, event, now))
    {
      var key := NormalKey(exchange, symbol);
      if key.exchange == "" || key.symbol == "" {
        return false;
      }
      if OutOfOrder(rates, key, event) {
        return true;
      }
      rates := rates[key := FundingRecord(rate, next, event, now)];
      NormalNameIdempotent(exchange);
      SetExchangeStreamHealth(key.exchange, true);
      return true;
    }

    method EvictStale(now: Time)
      modifies this`rates
      ensures State() == Apply(old(State()), EvictOp(now))
    {
      var todo := rates.Keys;
      while todo != {}
        invariant todo <= old(rates).Keys
        invariant forall k :: k in todo ==> Get(rates, k) == Get(old(rates), k)
        invariant forall k :: k !in todo ==> Get(rates, k) == Get(Evicted(old(State()), now).rates, k)
      {
        var k := Pick(todo);
        assert Get(rates, k) == Get(old(rates), k);
        if IsStale(rates[k], now, StalenessFor(config, k.exchange)) {
          rates := rates - {k};
        }
        todo := todo - {k};
      }
      SameMap(rates, Evicted(old(State()), now).rates);
    }
  }
}

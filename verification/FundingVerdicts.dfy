/** What a funding verdict says, in terms of the records and of the updates that made them. */
module FundingVerdicts {
  import opened Wrappers
  import opened Text
  import opened Domain
  import opened Funding

  // ---- Verdicts ----

  /** The record of this exchange and symbol can be relied on: healthy stream, a next funding time, and within its budget. */
  predicate Reliable(f: FundingState, exchange: string, symbol: string, now: Time) {
    var key, name := NormalKey(exchange, symbol), NormalName(exchange);
    var own := Get(f.config.stalenessByExchange, name);
    var budget := if own.Some? && own.value > 0 then own.value else f.config.maxStaleness;
    && key in f.rates && Get(f.health, name) == Some(true) && f.rates[key].nextFunding != 0
    && f.rates[key].receivedAt != 0 && budget > 0 && f.rates[key].receivedAt >= now - budget
  }

  predicate Sensible(exchange: string, symbol: string, spread: real, now: Time) {
    exchange != "" && symbol != "" && spread >= 0.0 && now != 0
  }

  /**
   A futures pair is profitable exactly when both records are reliable and the spread, with the seller's rate
   received and the buyer's paid, reaches the minimum; the verdict carries each leg's own rate and next time.
   */
  lemma PairVerdict(f: FundingState, buyEx: string, sellEx: string, symbol: string, spread: real, now: Time)
    requires Sensible(buyEx, symbol, spread, now) && sellEx != ""
    ensures var buy, sell := Get(f.rates, NormalKey(buyEx, symbol)), Get(f.rates, NormalKey(sellEx, symbol));
      var verdict := EvaluateFuturesPair(f, buyEx, symbol, sellEx, symbol, spread, now);
      && (verdict.profitable <==>
          && Reliable(f, buyEx, symbol, now) && Reliable(f, sellEx, symbol, now)
          && spread - buy.value.rate + sell.value.rate >= f.config.minSpread)
      && (Reliable(f, buyEx, symbol, now) && Reliable(f, sellEx, symbol, now) ==>
          && verdict.netSpread == spread - buy.value.rate + sell.value.rate
          && verdict.buyRate == buy.value.rate && verdict.sellRate == sell.value.rate
          && verdict.buyNext == buy.value.nextFunding && verdict.sellNext == sell.value.nextFunding)
  {
    hide NormalName;
    hide NormalKey;
  }

  /** A spot buyer pays no funding: only the seller's record counts. */
  lemma LoneVerdict(f: FundingState, exchange: string, symbol: string, spread: real, now: Time)
    requires Sensible(exchange, symbol, spread, now)
    ensures var sell := Get(f.rates, NormalKey(exchange, symbol));
      var verdict := EvaluateSpotFutures(f, exchange, symbol, spread, now);
      && (verdict.profitable <==> Reliable(f, exchange, symbol, now) && spread + sell.value.rate >= f.config.minSpread)
      && (Reliable(f, exchange, symbol, now) ==>
          && verdict.netSpread == spread + sell.value.rate && verdict.sellRate == sell.value.rate
          && verdict.sellNext == sell.value.nextFunding && verdict.buyRate == 0.0 && verdict.buyNext == 0)
  {
    hide NormalName;
    hide NormalKey;
  }

  /** Nothing senseless is profitable. */
  lemma SenselessIsRefused(f: FundingState, buyEx: string, sellEx: string, symbol: string, spread: real, now: Time)
    ensures EvaluateFuturesPair(f, buyEx, symbol, sellEx, symbol, spread, now).profitable
      ==> Sensible(buyEx, symbol, spread, now) && Sensible(sellEx, symbol, spread, now)
    ensures EvaluateSpotFutures(f, sellEx, symbol, spread, now).profitable ==> Sensible(sellEx, symbol, spread, now)
  {
  }

  /** What one direction of a pair gains by funding the other loses. */
  lemma SwappedPair(f: FundingState, a: string, b: string, symbol: string, spread: real, now: Time)
    requires Sensible(a, symbol, spread, now) && b != "" && Reliable(f, a, symbol, now) && Reliable(f, b, symbol, now)
    ensures EvaluateFuturesPair(f, a, symbol, b, symbol, spread, now).netSpread
          + EvaluateFuturesPair(f, b, symbol, a, symbol, spread, now).netSpread == 2.0 * spread
  {
    hide Reliable;
    PairVerdict(f, a, b, symbol, spread, now);
    PairVerdict(f, b, a, symbol, spread, now);
  }

  // ---- Records and health, from the history ----

  predicate UpdatesKey(op: FundingOp, key: FundingKey) {
    op.UpdateOp? && FundingKey(NormalName(op.exchange), NormalKey(op.exchange, op.symbol).symbol) == key
  }

  predicate Names(key: FundingKey) { key.exchange != "" && key.symbol != "" }

  function RecordOf(op: FundingOp): FundingRecord
    requires op.UpdateOp?
  {
    FundingRecord(op.rate, op.next, op.event, op.now)
  }

  /** The i-th operation updates the key, and every later update of the key tells of an older event. */
  predicate IsNewest(ops: seq<FundingOp>, i: nat, key: FundingKey) {
    && i < |ops| && UpdatesKey(ops[i], key)
    && (forall j :: i < j < |ops| && UpdatesKey(ops[j], key) ==> ops[j].event < ops[i].event)
    && (forall j :: 0 <= j < i && UpdatesKey(ops[j], key) ==> ops[j].event <= ops[i].event)
  }

  /** The record is that of the newest event told of the key. */
  predicate Holds(ops: seq<FundingOp>, i: nat, key: FundingKey, record: FundingRecord) {
    IsNewest(ops, i, key) && record == RecordOf(ops[i])
  }

  predicate Dated(ops: seq<FundingOp>, key: FundingKey) {
    forall j :: 0 <= j < |ops| && UpdatesKey(ops[j], key) ==> ops[j].event > 0
  }

  /**
   With dated updates the record is that of the newest event told, and of the latest telling among equal ones;
   a key has none only if it was never updated.
   */
  lemma {:induction false} RecordIsNewest(config: FundingConfig, ops: seq<FundingOp>, key: FundingKey)
    requires Names(key) && Dated(ops, key)
    ensures var rates := FullHistory(config, ops).rates;
      && (key !in rates ==> forall j :: 0 <= j < |ops| ==> !UpdatesKey(ops[j], key))
      && (key in rates ==> exists i: nat :: Holds(ops, i, key, rates[key]))
  {
    hide Apply;
    hide UpdatesKey;
    hide Holds;
    hide OutOfOrder;
    if ops != [] {
      var front, op := ops[..|ops| - 1], ops[|ops| - 1];
      assert ops == front + [op] && Dated(front, key);
      RecordIsNewest(config, front, key);
      var f := FullHistory(config, front);
      if !op.EvictOp? {
        ApplyAtKey(f, op, key);
        OrderAtKey(f.rates, key, if op.UpdateOp? then op.event else 0);
      }
      if key in f.rates {
        var i: nat :| Holds(front, i, key, f.rates[key]);
        NewestOfMore(front, op, i, key, f.rates[key]);
        assert key in FullHistory(config, ops).rates;
      } else {
        FirstIsNewest(front, op, key);
      }
    }
  }

  lemma NewestOfMore(front: seq<FundingOp>, op: FundingOp, i: nat, key: FundingKey, record: FundingRecord)
    requires Holds(front, i, key, record) && Dated(front + [op], key)
    ensures UpdatesKey(op, key) ==> op.UpdateOp?
    ensures var rates := map[key := record];
      if UpdatesKey(op, key) && !OutOfOrder(rates, key, op.event) then op.UpdateOp? && Holds(front + [op], |front|, key, RecordOf(op))
      else Holds(front + [op], i, key, record)
  {
    hide NormalName;
    var all := front + [op];
    assert all[i] == front[i] && all[|front|] == op;
    forall j | 0 <= j < |front| && UpdatesKey(all[j], key) ensures all[j].event <= front[i].event {
      assert all[j] == front[j];
    }
  }

  lemma FirstIsNewest(front: seq<FundingOp>, op: FundingOp, key: FundingKey)
    requires forall j :: 0 <= j < |front| ==> !UpdatesKey(front[j], key)
    ensures UpdatesKey(op, key) ==> op.UpdateOp? && Holds(front + [op], |front|, key, RecordOf(op))
  {
  }

  lemma OrderAtKey(rates: map<FundingKey, FundingRecord>, key: FundingKey, event: Time)
    ensures OutOfOrder(rates, key, event) <==> key in rates && OutOfOrder(map[key := rates[key]], key, event)
  {
  }

  lemma ApplyAtKey(f: FundingState, op: FundingOp, key: FundingKey)
    requires Names(key)
    requires !op.EvictOp?
    ensures Get(Apply(f, op).rates, key)
         == if UpdatesKey(op, key) && !OutOfOrder(f.rates, key, op.event) then Some(RecordOf(op)) else Get(f.rates, key)
  {
    hide NormalName;
  }

  /** The operation says something about the stream of this exchange: a report, or an update that is not refused. */
  predicate Reports(f: FundingState, op: FundingOp, name: string) {
    match op
    case HealthOp(exchange, _) => NormalName(exchange) == name
    case UpdateOp(exchange, symbol, _, _, event, _) =>
      NormalName(exchange) == name && NormalKey(exchange, symbol).symbol != "" && !OutOfOrder(f.rates, NormalKey(exchange, symbol), event)
    case EvictOp(_) => false
  }

  lemma ApplyAtName(f: FundingState, op: FundingOp, name: string)
    requires name != "" && !op.EvictOp?
    ensures Get(Apply(f, op).health, name)
         == if Reports(f, op, name) then Some(op.UpdateOp? || op.healthy) else Get(f.health, name)
  {
    if op.UpdateOp? {
      NormalNameIdempotent(op.exchange);
    }
  }

  /** The i-th operation is the last that says something about the stream, and says this. */
  predicate LastWord(config: FundingConfig, ops: seq<FundingOp>, i: nat, name: string, healthy: bool) {
    && i < |ops| && Reports(FullHistory(config, ops[..i]), ops[i], name)
    && healthy == (ops[i].UpdateOp? || (ops[i].HealthOp? && ops[i].healthy))
    && forall j :: i < j < |ops| ==> !Reports(FullHistory(config, ops[..j]), ops[j], name)
  }

  /** The last word on a stream decides: an accepted update says healthy, a report what it reports. */
  lemma {:induction false} HealthIsLastWord(config: FundingConfig, ops: seq<FundingOp>, name: string)
    requires name != ""
    ensures var health := FullHistory(config, ops).health;
      && (name !in health ==> forall j :: 0 <= j < |ops| ==> !Reports(FullHistory(config, ops[..j]), ops[j], name))
      && (name in health ==> exists i: nat :: LastWord(config, ops, i, name, health[name]))
  {
    hide Apply;
    hide Reports;
    hide LastWord;
    if ops != [] {
      var front, op := ops[..|ops| - 1], ops[|ops| - 1];
      assert ops == front + [op];
      HealthIsLastWord(config, front, name);
      var f := FullHistory(config, front);
      SaidInFront(config, front, op, name);
      EvictionSaysNothing(f, op, name);
      if !op.EvictOp? {
        ApplyAtName(f, op, name);
      }
      if Reports(f, op, name) {
        LastIsLastWord(config, front, op, name);
      } else if name in f.health {
        var i: nat :| LastWord(config, front, i, name, f.health[name]);
        LastWordStays(config, front, op, i, name, f.health[name]);
      }
    }
  }

  lemma SaidInFront(config: FundingConfig, front: seq<FundingOp>, op: FundingOp, name: string)
    ensures var ops := front + [op];
      && ops[|front|] == op && ops[..|front|] == front
      && forall j :: 0 <= j < |front| ==> ops[j] == front[j] && ops[..j] == front[..j]
  {
  }

  lemma LastIsLastWord(config: FundingConfig, front: seq<FundingOp>, op: FundingOp, name: string)
    requires Reports(FullHistory(config, front), op, name)
    ensures LastWord(config, front + [op], |front|, name, op.UpdateOp? || (op.HealthOp? && op.healthy))
  {
    hide Reports;
    hide FullHistory;
    SaidInFront(config, front, op, name);
  }

  lemma LastWordStays(config: FundingConfig, front: seq<FundingOp>, op: FundingOp, i: nat, name: string, healthy: bool)
    requires LastWord(config, front, i, name, healthy) && !Reports(FullHistory(config, front), op, name)
    ensures LastWord(config, front + [op], i, name, healthy)
  {
    hide Reports;
    hide FullHistory;
    SaidInFront(config, front, op, name);
    var ops := front + [op];
    forall j | i < j < |ops| ensures !Reports(FullHistory(config, ops[..j]), ops[j], name) {
      assert j < |front| ==> ops[j] == front[j] && ops[..j] == front[..j];
    }
  }

  lemma EvictionSaysNothing(f: FundingState, op: FundingOp, name: string)
    ensures Reports(f, op, name) ==> !op.EvictOp?
  {
  }
}

/**
 Whole runs of the aggregator in commit order, reduced to runs of the route machine, and what
 that gives for every route: the shape of its event log, and the tracker's mirror of it.
 */
module Runs {
  import opened Wrappers
  import opened Text
  import opened Domain
  import opened Config
  import opened Funding
  import opened Search
  import opened Routes
  import opened Aggregator
  import opened Shards
  import opened Sharding

  datatype Commit = Commit(shard: nat, op: Op)

  /** states[m] are the shards after m commits; outs[m] are the events of commit m. */
  datatype Run = Run(states: seq<seq<ShardState>>, commits: seq<Commit>, outs: seq<seq<SpreadEvent>>) {
    function Len(): nat { |commits| }

    function Shards(): nat
      requires states != []
    {
      |states[0]|
    }

    function Last(): seq<ShardState>
      requires states != []
    {
      states[|states| - 1]
    }
  }

  /** Any interleaving of locked sections from empty shards; a janitor pass is one commit per shard. */
  ghost predicate IsRun(h: Hash, r: Run) {
    && |r.states| == r.Len() + 1 && |r.outs| == r.Len()
    && r.Shards() > 0
    && (forall i :: 0 <= i < r.Shards() ==> r.states[0][i] == ShardState(map[], map[]))
    && (forall m :: 0 <= m < r.Len() ==> StepAt(h, r, m))
  }

  ghost predicate StepAt(h: Hash, r: Run, m: nat)
    requires |r.states| == r.Len() + 1 && |r.outs| == r.Len() && r.Shards() > 0 && m < r.Len()
  {
    && |r.states[m]| == r.Shards()
    && OneShardCommits(r.states[m], r.commits[m].shard, r.commits[m].op, r.states[m + 1], r.outs[m])
    && Proper(h, r.Shards(), r.commits[m].shard, r.commits[m].op)
  }

  lemma {:induction false} RunIsHoused(h: Hash, r: Run, m: nat)
    requires IsRun(h, r) && m <= r.Len()
    ensures |r.states[m]| == r.Shards() && Housed(h, r.states[m])
  {
    hide Commits;
    hide Proper;
    if m > 0 {
      RunIsHoused(h, r, m - 1);
      assert StepAt(h, r, m - 1);
      var c, S, S' := r.commits[m - 1], r.states[m - 1], r.states[m];
      assert HousedAt(h, |S|, S[c.shard], c.shard);
      CommitKeepsHoused(h, r.Shards(), c.shard, c.op, S[c.shard], S'[c.shard], r.outs[m - 1]);
      forall i | 0 <= i < |S'| ensures HousedAt(h, |S'|, S'[i], i) {
        assert HousedAt(h, |S|, S[i], i);
      }
    }
  }

  /** What the first m commits of a run are to one route. */
  ghost function Inputs(h: Hash, r: Run, key: string, m: nat): (inputs: seq<RouteInput>)
    requires IsRun(h, r) && m <= r.Len()
    ensures |inputs| == m
  {
    if m == 0 then []
    else
      assert StepAt(h, r, m - 1);
      Inputs(h, r, key, m - 1) + [InputAt(h, r, key, m - 1)]
  }

  ghost function InputAt(h: Hash, r: Run, key: string, m: nat): RouteInput
    requires IsRun(h, r) && m < r.Len()
  {
    assert StepAt(h, r, m);
    var c := r.commits[m];
    if c.shard == KeyHome(h, r.Shards(), key) then InputFor(c.op, r.states[m][c.shard], key) else Untouched
  }

  lemma {:induction false} InputsAt(h: Hash, r: Run, key: string, m: nat, j: nat)
    requires IsRun(h, r) && j < m <= r.Len()
    ensures Inputs(h, r, key, m)[j] == InputAt(h, r, key, j)
  {
    hide IsRun;
    hide InputAt;
    if j < m - 1 {
      InputsAt(h, r, key, m - 1, j);
    }
  }

  /** The memory of a route across all shards is in its home shard. */
  function Memory(h: Hash, S: seq<ShardState>, key: string): RouteMem
    requires S != []
  {
    Get(S[KeyHome(h, |S|, key)].active, key)
  }

  lemma MemoryStep(h: Hash, r: Run, key: string, m: nat)
    requires IsRun(h, r) && m < r.Len()
    ensures |r.states[m]| == |r.states[m + 1]| == r.Shards()
    ensures RouteStep(Memory(h, r.states[m], key), InputAt(h, r, key, m)) == (Memory(h, r.states[m + 1], key), Proj(r.outs[m], key))
  {
    RunIsHoused(h, r, m);
    RunIsHoused(h, r, m + 1);
    assert StepAt(h, r, m);
    var c, S, S', n := r.commits[m], r.states[m], r.states[m + 1], r.Shards();
    var home := KeyHome(h, n, key);
    assert HousedAt(h, n, S[c.shard], c.shard);
    if home == c.shard {
      assert RouteCommits(S[home], c.op, S'[home], r.outs[m], key);
    } else {
      CommitElsewhere(h, n, c.shard, c.op, S[c.shard], S'[c.shard], r.outs[m], key);
    }
  }

  /** A run, seen from one route, is a run of the route machine. */
  lemma {:induction false} RunIsRoutes(h: Hash, r: Run, key: string, m: nat)
    requires IsRun(h, r) && m <= r.Len()
    ensures |r.states[m]| == r.Shards()
    ensures RunRoute(Inputs(h, r, key, m)) == (Memory(h, r.states[m], key), Proj(Flatten(r.outs[..m]), key))
  {
    hide RouteKey;
    hide RouteStep;
    if m == 0 {
      assert r.states[0][KeyHome(h, r.Shards(), key)] == ShardState(map[], map[]);
    } else {
      RunIsRoutes(h, r, key, m - 1);
      MemoryStep(h, r, key, m - 1);
      RunSnoc(Inputs(h, r, key, m - 1), InputAt(h, r, key, m - 1));
      assert r.outs[..m][..m - 1] == r.outs[..m - 1];
      ProjConcat(Flatten(r.outs[..m - 1]), r.outs[m - 1], key);
    }
  }

  /** The active routes of the shards are exactly the routes with a memory. */
  lemma ActiveIsMemory(h: Hash, r: Run, m: nat, key: string)
    requires IsRun(h, r) && m <= r.Len()
    ensures |r.states[m]| == r.Shards()
    ensures (exists i :: 0 <= i < |r.states[m]| && key in r.states[m][i].active) <==> Memory(h, r.states[m], key).Some?
  {
    RunIsHoused(h, r, m);
    var S := r.states[m];
    forall i | 0 <= i < |S| && key in S[i].active ensures Memory(h, S, key).Some? {
      assert HousedAt(h, |S|, S[i], i);
    }
  }

  /**
   Over any run each route's events are (Opened Updated* Closed)* with spreads rising inside an
   episode, and the route is active in some shard exactly while its last event is not Closed.
   */
  lemma EveryRouteLogsEpisodes(h: Hash, r: Run, key: string)
    requires IsRun(h, r)
    ensures var log := Proj(Flatten(r.outs), key);
      && LegalLog(log)
      && (LogIsOpen(log) <==> exists i :: 0 <= i < |r.Last()| && key in r.Last()[i].active)
  {
    hide RouteKey;
    hide LegalLog;
    hide LogIsOpen;
    hide StepAt;
    hide Memory;
    hide Proj;
    var inputs := Inputs(h, r, key, r.Len());
    assert r.outs[..r.Len()] == r.outs;
    RunIsRoutes(h, r, key, r.Len());
    RouteGrammar(inputs);
    ActiveIsMemory(h, r, r.Len(), key);
    assert r.Last() == r.states[r.Len()];
    assert LogIsOpen(Proj(Flatten(r.outs), key)) <==> Memory(h, r.Last(), key).Some?;
  }

  // ---- Ordered runs ----

  function OpTime(op: Op): Time {
    match op
    case TickOp(_, t) => TickTime(t)
    case JanitorOp(now, _) => now
    case FlushOp(now) => now
  }

  /** The commit can change routes of this symbol. */
  predicate Touches(h: Hash, n: nat, c: Commit, symbol: string)
    requires n > 0
  {
    match c.op
    case TickOp(_, t) => t.symbol == symbol
    case JanitorOp(_, _) => c.shard == Home(h, n, symbol)
    case FlushOp(_) => c.shard == Home(h, n, symbol)
  }

  /** For each symbol, commit times never go back. */
  ghost predicate OrderedRun(h: Hash, r: Run)
    requires IsRun(h, r)
  {
    forall i, j, symbol :: 0 <= i < j < r.Len()
      && Touches(h, r.Shards(), r.commits[i], symbol) && Touches(h, r.Shards(), r.commits[j], symbol)
      ==> OpTime(r.commits[i].op) <= OpTime(r.commits[j].op)
  }

  lemma InputIsGood(h: Hash, r: Run, key: string, m: nat)
    requires IsRun(h, r) && m < r.Len()
    ensures GoodInput(InputAt(h, r, key, m))
    ensures InputAt(h, r, key, m) != Untouched ==> Touches(h, r.Shards(), r.commits[m], FirstField(key))
    ensures InputTime(InputAt(h, r, key, m)) in {None, Some(OpTime(r.commits[m].op))}
  {
    assert StepAt(h, r, m);
    RunIsHoused(h, r, m);
    var c, n := r.commits[m], r.Shards();
    var s := r.states[m][c.shard];
    assert HousedAt(h, n, s, c.shard);
    hide RouteKey;
    if c.shard == KeyHome(h, n, key) && c.op.TickOp? {
      ObservationIsGood(c.op.env, s, c.op.tick, key);
      if FirstField(key) != c.op.tick.symbol {
        InputElsewhere(c.op.env, s, c.op.tick, key);
      }
    }
  }

  lemma InputsAreGood(h: Hash, r: Run, key: string)
    requires IsRun(h, r)
    ensures GoodInputs(Inputs(h, r, key, r.Len()))
    ensures OrderedRun(h, r) ==> Ordered(Inputs(h, r, key, r.Len()))
  {
    var inputs := Inputs(h, r, key, r.Len());
    forall i | 0 <= i < |inputs| ensures GoodInput(inputs[i]) && inputs[i] == InputAt(h, r, key, i) {
      InputIsGood(h, r, key, i);
      InputsAt(h, r, key, r.Len(), i);
    }
    if OrderedRun(h, r) {
      forall i, j | 0 <= i < j < |inputs| && InputTime(inputs[i]).Some? && InputTime(inputs[j]).Some?
        ensures InputTime(inputs[i]).value <= InputTime(inputs[j]).value
      {
        InputIsGood(h, r, key, i);
        InputIsGood(h, r, key, j);
        assert Touches(h, r.Shards(), r.commits[i], FirstField(key)) && Touches(h, r.Shards(), r.commits[j], FirstField(key));
      }
    }
  }

  // ---- After an accepted tick ----

  /**
   Every route of the tick's symbol that is still active was found by this very tick's search:
   fresh legs, a spread that survives the fees, funded futures legs, and a net spread above the
   closing threshold.
   */
  lemma ActiveMeansObservedNow(s: ShardState, env: Env, t: MarketTick, s': ShardState, out: seq<SpreadEvent>, key: string)
    requires Keyed(s) && Tidy(s) && CleanTick(t) && TidyTick(t) && !Outdated(s.prices, t)
    requires Commits(s, TickOp(env, t), s', out)
    requires key in s'.active && FirstField(key) == t.symbol && t.symbol + ":" <= key
    ensures var e, book := s'.active[key].last, s'.prices[t.symbol];
      var buy, sell := Leg(book, e.buyExchange, e.buyMarket), Leg(book, e.sellExchange, e.sellMarket);
      && t.symbol in s'.prices && RouteKey(e) == key && e.timestamp == TickTime(t)
      && e.spread > CloseThreshold(env.settings)
      && Fresh(buy, TickTime(t), env.ttl) && Fresh(sell, TickTime(t), env.ttl)
      && FeeNetSpread(env.settings, buy.value.ask, sell.value.bid, e.buyExchange, e.sellExchange) > 0.0
      && env.funding.Some? && e.sellMarket == Futures
      && LegFunded(env.funding.value, e.sellExchange, t.symbol, TickTime(t))
      && (e.buyMarket == Futures ==> LegFunded(env.funding.value, e.buyExchange, t.symbol, TickTime(t)))
  {
    hide CrossEvent;
    hide LegFunded;
    hide FeeNetSpread;
    var book := BookAfter(s.prices, t);
    assert s'.prices[t.symbol] == book;
    BookAfterIsTidy(s, t);
    assert RouteCommits(s, TickOp(env, t), s', out, key);
    if forall ev :: !Observed(env, book, t, key, ev) {
      InputWhenAbsent(env, book, t, key);
      assert false;
    } else {
      var ev :| Observed(env, book, t, key, ev);
      InputOfObserved(env, book, t, ev);
      FoundRoute(env, book, t.symbol, TickTime(t), ev);
      CloseBelowOpen(env.settings);
      ObserveKeepsEvent(Get(s.active, key), ev, env.settings.hardMin, CloseThreshold(env.settings));
      SameKey(ev, ev.spread, ev.timestamp, Opened);
    }
  }

  lemma ObserveKeepsEvent(st: RouteMem, ev: SpreadEvent, open: real, close: real)
    requires close < open
    ensures var st' := Observe(st, ev, open, close).0;
      st'.Some? ==> ev.spread > close && st'.value.last in {ev, ev.(lifecycle := Opened)}
  {
  }

  /** A tick of the symbol keeps an active route exactly when it observes it above the closing threshold. */
  lemma TickKeepsExactly(s: ShardState, env: Env, t: MarketTick, s': ShardState, out: seq<SpreadEvent>, key: string)
    requires Keyed(s) && Tidy(s) && CleanTick(t) && TidyTick(t) && !Outdated(s.prices, t)
    requires Commits(s, TickOp(env, t), s', out)
    requires key in s.active && t.symbol + ":" <= key
    ensures key in s'.active <==> exists ev :: ObservedAbove(env, BookAfter(s.prices, t), t, key, ev)
  {
    hide CrossEvent;
    hide IntraEvent;
    hide IsCandidate;
    hide RouteKey;
    var book := BookAfter(s.prices, t);
    BookAfterIsTidy(s, t);
    assert RouteCommits(s, TickOp(env, t), s', out, key);
    if forall ev :: !Observed(env, book, t, key, ev) {
      InputWhenAbsent(env, book, t, key);
    } else {
      var ev :| Observed(env, book, t, key, ev);
      InputOfObserved(env, book, t, ev);
      forall other | Observed(env, book, t, key, other) ensures other == ev {
        CandidatesDiffer(env, book, t, ev, other);
      }
      assert key in s'.active <==> ev.spread > CloseThreshold(env.settings);
      assert ObservedAbove(env, book, t, key, ev) <==> ev.spread > CloseThreshold(env.settings);
    }
  }

  ghost predicate ObservedAbove(env: Env, book: Book, t: MarketTick, key: string, ev: SpreadEvent) {
    Observed(env, book, t, key, ev) && ev.spread > CloseThreshold(env.settings)
  }

  /** The search still holds this active route above the closing threshold, and no filter hides it. */
  ghost predicate StillOpen(s: ShardState, env: Env, t: MarketTick, ev: SpreadEvent)
    requires CleanTick(t)
  {
    && RouteKey(ev) in s.active && InSearch(env, BookAfter(s.prices, t), t.symbol, TickTime(t), ev)
    && ev.spread > CloseThreshold(env.settings)
    && HasUsers(env) && SymbolMayPass(env, BookAfter(s.prices, t), t.symbol, TickTime(t)) && RouteEligible(env, ev)
  }

  /** A route that the search still holds stays active exactly when it crosses exchanges or the tick is of its own exchange. */
  lemma OpenRouteStaysExactly(s: ShardState, env: Env, t: MarketTick, s': ShardState, out: seq<SpreadEvent>, ev: SpreadEvent)
    requires Keyed(s) && Tidy(s) && CleanTick(t) && TidyTick(t) && !Outdated(s.prices, t)
    requires Commits(s, TickOp(env, t), s', out) && StillOpen(s, env, t, ev)
    ensures RouteKey(ev) in s'.active <==> ev.kind == CrossExchange || ev.buyExchange == t.exchange
  {
    var book, key := BookAfter(s.prices, t), RouteKey(ev);
    BookAfterIsTidy(s, t);
    FoundKind(env, book, t, ev);
    FoundRoute(env, book, t.symbol, TickTime(t), ev);
    hide InSearch;
    hide CrossEvent;
    hide IntraEvent;
    hide SymbolMayPass;
    hide RouteEligible;
    assert t.symbol + ":" <= key by { PrefixMeansSymbol(t.symbol, ev); }
    TickKeepsExactly(s, env, t, s', out, key);
    if ev.kind == CrossExchange || ev.buyExchange == t.exchange {
      assert ObservedAbove(env, book, t, key, ev);
    } else {
      forall other ensures !ObservedAbove(env, book, t, key, other) {
        if Observed(env, book, t, key, other) {
          SameKeySameExchange(env, book, t, ev, other);
        }
      }
    }
  }

  /** Which direction of the search a found route comes from, and of which exchange's tick it is a candidate. */
  lemma FoundKind(env: Env, book: Book, t: MarketTick, ev: SpreadEvent)
    requires InSearch(env, book, t.symbol, TickTime(t), ev) && TidyBook(book)
    ensures ev.kind == CrossExchange <==> CrossEvent(env, book, t.symbol, TickTime(t), ev.buyExchange, ev.sellExchange) == Some(ev)
    ensures ev.kind == IntraExchange ==> IntraEvent(env, book, ev.buyExchange, t.symbol, TickTime(t)) == Some(ev)
    ensures ColonFree(ev.buyExchange) && ColonFree(ev.sellExchange)
    ensures BuySide(ev) == ev.buyExchange && SellSide(ev) == ev.sellExchange
  {
    FoundRoute(env, book, t.symbol, TickTime(t), ev);
  }

  /** A candidate with the key of a found route is of its kind and exchange; an intra candidate is of the tick's exchange. */
  lemma SameKeySameExchange(env: Env, book: Book, t: MarketTick, ev: SpreadEvent, other: SpreadEvent)
    requires InSearch(env, book, t.symbol, TickTime(t), ev)
    requires TidyBook(book) && TidyTick(t) && Observed(env, book, t, RouteKey(ev), other)
    ensures other.kind == ev.kind && other.buyExchange == ev.buyExchange
    ensures other.kind == IntraExchange ==> other.buyExchange == t.exchange
  {
    FoundKind(env, book, t, ev);
    CandidateIsTidy(env, book, t, other);
    RouteKeyInjective(ev.symbol, ev.kind, BuySide(ev), SellSide(ev), ev.buyMarket, ev.sellMarket,
                      other.symbol, other.kind, BuySide(other), SellSide(other), other.buyMarket, other.sellMarket);
    hide RouteKey;
  }

  // ---- A tick of another exchange ----

  function QuoteTick(exchange: string, market: Market, price: real): MarketTick {
    MarketTick(exchange, "X", market, price, price, 0.0, 0, 1, 0)
  }

  /** Three ticks of a symbol: spot and futures of A, then spot of B; their commits from an empty shard. */
  ghost predicate ThreeTicks(env: Env, S: seq<ShardState>, outs: seq<seq<SpreadEvent>>) {
    && |S| == 4 && |outs| == 3 && S[0] == ShardState(map[], map[])
    && Commits(S[0], TickOp(env, QuoteTick("A", Spot, 1.0)), S[1], outs[0])
    && Commits(S[1], TickOp(env, QuoteTick("A", Futures, 2.0)), S[2], outs[1])
    && Commits(S[2], TickOp(env, QuoteTick("B", Spot, 1.0)), S[3], outs[2])
  }

  lemma EmptyIsTidy()
    ensures Tidy(ShardState(map[], map[]))
  {
  }

  lemma QuoteIsTidy(exchange: string, market: Market, price: real)
    requires ColonFree(exchange) && market != OtherMarket && price > 0.0
    ensures CleanTick(QuoteTick(exchange, market, price)) && TidyTick(QuoteTick(exchange, market, price))
  {
  }

  /** A shard really goes through the three ticks. */
  method RunThreeTicks(env: Env) returns (S: seq<ShardState>, outs: seq<seq<SpreadEvent>>)
    ensures ThreeTicks(env, S, outs)
  {
    EmptyIsTidy();
    QuoteIsTidy("A", Spot, 1.0);
    QuoteIsTidy("A", Futures, 2.0);
    QuoteIsTidy("B", Spot, 1.0);
    hide RouteKey;
    hide Commits;
    hide Tidy;
    hide TidyTick;
    hide CleanTick;
    hide TickRun;
    hide QuoteTick;
    var shard := new Shard();
    var s0 := shard.State();
    var a := shard.Tick(env, QuoteTick("A", Spot, 1.0));
    var s1 := shard.State();
    var b := shard.Tick(env, QuoteTick("A", Futures, 2.0));
    var s2 := shard.State();
    var c := shard.Tick(env, QuoteTick("B", Spot, 1.0));
    S, outs := [s0, s1, s2, shard.State()], [a, b, c];
  }

  /**
   The second tick opens the intra route of A, the third, of another exchange, closes it although
   the search still holds it with the same spread.
   */
  lemma OtherExchangeCloses(S: seq<ShardState>, outs: seq<seq<SpreadEvent>>) returns (env: Env, ev: SpreadEvent)
    ensures ev.kind == IntraExchange && ev.buyExchange == "A" && ev.spread > CloseThreshold(env.settings)
    ensures ThreeTicks(env, S, outs) ==>
      && RouteKey(ev) in S[2].active && RouteKey(ev) !in S[3].active
      && "X" in S[3].prices && InSearch(env, S[3].prices["X"], "X", 1, ev)
  {
    env := LoneEnv("X", None, None);
    ev := LoneRoute("X", None, None, 0.0);
    LoneSpreadIsWide(env, ev);
    if ThreeTicks(env, S, outs) {
      TwoTicksOpen(env, S, outs, ev);
      ThirdTickCloses(env, S, outs, ev);
    }
  }

  lemma LoneSpreadIsWide(env: Env, ev: SpreadEvent)
    requires env == LoneEnv("X", None, None) && IntraEvent(env, LoneBook(0.0), "A", "X", 1) == Some(ev)
    ensures ev.spread >= env.settings.hardMin > CloseThreshold(env.settings)
  {
    CloseBelowOpen(env.settings);
    LoneSpread("X", None, None, 0.0);
  }

  lemma TwoBooks(env: Env, S: seq<ShardState>, outs: seq<seq<SpreadEvent>>)
    requires ThreeTicks(env, S, outs)
    ensures S[1].prices == map["X" := map["A" := map[Spot := Quote(1.0, 1.0, 1, 0.0)]]]
    ensures BookAfter(S[1].prices, QuoteTick("A", Futures, 2.0)) == LoneBook(0.0)
    ensures !Outdated(S[1].prices, QuoteTick("A", Futures, 2.0)) && S[2].prices == map["X" := LoneBook(0.0)]
  {
    hide RouteCommits;
    assert S[1].prices == map["X" := map["A" := map[Spot := Quote(1.0, 1.0, 1, 0.0)]]];
    assert BookAfter(S[1].prices, QuoteTick("A", Futures, 2.0)) == LoneBook(0.0);
  }

  lemma TwoTicksOpen(env: Env, S: seq<ShardState>, outs: seq<seq<SpreadEvent>>, ev: SpreadEvent)
    requires env == LoneEnv("X", None, None) && IntraEvent(env, LoneBook(0.0), "A", "X", 1) == Some(ev) && ThreeTicks(env, S, outs)
    requires ev.symbol == "X" && ev.buyExchange == "A" == ev.sellExchange && ev.spread >= env.settings.hardMin
    ensures S[2].prices == map["X" := LoneBook(0.0)] && RouteKey(ev) in S[2].active
    ensures Keyed(S[2]) && Tidy(S[2])
  {
    hide RouteKey;
    hide IntraEvent;
    hide CrossEvent;
    hide TickInput;
    hide FeeFor;
    hide Commits;
    var one, two := QuoteTick("A", Spot, 1.0), QuoteTick("A", Futures, 2.0);
    TwoBooks(env, S, outs);
    HoldsAfter(S[0], env, one, S[1], outs[0]);
    HoldsAfter(S[1], env, two, S[2], outs[1]);
    assert IsCandidate(env, LoneBook(0.0), "A", "X", 1, ev);
    InputOfObserved(env, LoneBook(0.0), two, ev);
    OpensAtLeast(S[1], env, two, S[2], outs[1], ev);
  }

  /** A tick that observes a route at or above the opening threshold leaves it active. */
  lemma OpensAtLeast(s: ShardState, env: Env, t: MarketTick, s': ShardState, out: seq<SpreadEvent>, ev: SpreadEvent)
    requires CleanTick(t) && !Outdated(s.prices, t) && Commits(s, TickOp(env, t), s', out)
    requires TickInput(env, BookAfter(s.prices, t), t, RouteKey(ev)) == Observation(ev, env.settings.hardMin, CloseThreshold(env.settings))
    requires ev.spread >= env.settings.hardMin
    ensures RouteKey(ev) in s'.active
  {
    hide RouteKey;
    hide TickInput;
    assert RouteCommits(s, TickOp(env, t), s', out, RouteKey(ev));
    CloseBelowOpen(env.settings);
  }

  /** Commits keep keys and names in order. */
  lemma HoldsAfter(s: ShardState, env: Env, t: MarketTick, s': ShardState, out: seq<SpreadEvent>)
    requires Keyed(s) && Tidy(s) && CleanTick(t) && TidyTick(t) && Commits(s, TickOp(env, t), s', out)
    ensures Keyed(s') && Tidy(s')
  {
    hide RouteKey;
    hide Commits;
    var h: Hash := _ => 0;
    assert HousedAt(h, 1, s, 0);
    CommitKeepsHoused(h, 1, 0, TickOp(env, t), s, s', out);
  }

  /** Without users and volumes the prefilters pass everything. */
  lemma LonePasses(env: Env, book: Book, ev: SpreadEvent)
    requires env == LoneEnv("X", None, None)
    ensures HasUsers(env) && SymbolMayPass(env, book, "X", 1) && RouteEligible(env, ev)
  {
  }

  /** The quote of B leaves what the search finds for A as it is. */
  lemma ThirdBook(env: Env, S: seq<ShardState>, outs: seq<seq<SpreadEvent>>, ev: SpreadEvent)
    requires env == LoneEnv("X", None, None) && IntraEvent(env, LoneBook(0.0), "A", "X", 1) == Some(ev) && ThreeTicks(env, S, outs)
    requires S[2].prices == map["X" := LoneBook(0.0)] && ev.kind == IntraExchange
    ensures var book := BookAfter(S[2].prices, QuoteTick("B", Spot, 1.0));
      S[3].prices == S[2].prices["X" := book] && InSearch(env, book, "X", 1, ev)
  {
    hide RouteKey;
    hide CrossEvent;
    hide RouteCommits;
    var book := BookAfter(S[2].prices, QuoteTick("B", Spot, 1.0));
    SameIntra(env, book, ev);
    FoundIntra(env, book, "X", 1, ev);
    hide IntraEvent;
    hide InSearch;
  }

  lemma SameIntra(env: Env, book: Book, ev: SpreadEvent)
    requires "A" in book && book["A"] == LoneBook(0.0)["A"] && IntraEvent(env, LoneBook(0.0), "A", "X", 1) == Some(ev)
    ensures IntraEvent(env, book, "A", "X", 1) == Some(ev)
  {
  }

  lemma ThirdTickCloses(env: Env, S: seq<ShardState>, outs: seq<seq<SpreadEvent>>, ev: SpreadEvent)
    requires env == LoneEnv("X", None, None) && IntraEvent(env, LoneBook(0.0), "A", "X", 1) == Some(ev) && ThreeTicks(env, S, outs)
    requires ev.symbol == "X" && ev.buyExchange == "A" == ev.sellExchange && ev.kind == IntraExchange
    requires ev.spread > CloseThreshold(env.settings)
    requires S[2].prices == map["X" := LoneBook(0.0)] && RouteKey(ev) in S[2].active && Keyed(S[2]) && Tidy(S[2])
    ensures RouteKey(ev) !in S[3].active && "X" in S[3].prices && InSearch(env, S[3].prices["X"], "X", 1, ev)
  {
    ThirdBook(env, S, outs, ev);
    QuoteIsTidy("B", Spot, 1.0);
    LonePasses(env, BookAfter(S[2].prices, QuoteTick("B", Spot, 1.0)), ev);
    hide HasUsers;
    hide SymbolMayPass;
    hide RouteEligible;
    hide TidyTick;
    hide Tidy;
    hide Keyed;
    hide RouteKey;
    hide IntraEvent;
    hide InSearch;
    hide CrossEvent;
    hide Commits;
    hide BookAfter;
    assert StillOpen(S[2], env, QuoteTick("B", Spot, 1.0), ev);
    OpenRouteStaysExactly(S[2], env, QuoteTick("B", Spot, 1.0), S[3], outs[2], ev);
  }
}

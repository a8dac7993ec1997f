/**
 The number of shards and the hash leave no trace: each shard holds the routes of its own symbols,
 and together the shards hold and emit what a single shard would.
 */
module Sharding {
  import opened Wrappers
  import opened Text
  import opened Domain
  import opened Config
  import opened Search
  import opened Routes
  import opened Aggregator
  import opened Shards

  type Hash = string -> nat

  function Home(h: Hash, n: nat, symbol: string): (i: nat)
    requires n > 0
    ensures i < n
  {
    h(symbol) % n
  }

  /** A key's symbol is its first field. */
  function KeyHome(h: Hash, n: nat, key: string): (i: nat)
    requires n > 0
    ensures i < n
  {
    Home(h, n, FirstField(key))
  }

  /** The shards hold only their own symbols and routes, under the right keys and with colon-free names. */
  ghost predicate Housed(h: Hash, S: seq<ShardState>) {
    S != [] && forall i :: 0 <= i < |S| ==> HousedAt(h, |S|, S[i], i)
  }

  ghost predicate HousedAt(h: Hash, n: nat, s: ShardState, i: nat)
    requires n > 0
  {
    && Keyed(s) && Tidy(s)
    && (forall key :: key in s.active ==> KeyHome(h, n, key) == i)
    && (forall sym :: sym in s.prices ==> Home(h, n, sym) == i)
  }

  /** A tick has colon-free names and goes to its symbol's shard; a pass has a real time. */
  predicate Proper(h: Hash, n: nat, i: nat, op: Op)
    requires n > 0
  {
    match op
    case TickOp(_, t) => CleanTick(t) && TidyTick(t) && i == Home(h, n, t.symbol)
    case JanitorOp(now, _) => now != 0
    case FlushOp(now) => now != 0
  }

  lemma PrefixIsFirstField(symbol: string, key: string)
    requires ColonFree(symbol) && symbol + ":" <= key
    ensures FirstField(key) == symbol
  {
    var rest := key[|symbol| + 1..];
    assert key == symbol + ":" + rest;
    FirstFieldOfJoin(symbol, rest);
  }

  /** Only routes of the tick's symbol are observed or missing. */
  lemma InputElsewhere(env: Env, s: ShardState, t: MarketTick, key: string)
    requires Tidy(s) && CleanTick(t) && TidyTick(t) && FirstField(key) != t.symbol
    ensures InputFor(TickOp(env, t), s, key) == Untouched
  {
    if !Outdated(s.prices, t) {
      var book := BookAfter(s.prices, t);
      BookAfterIsTidy(s, t);
      forall ev ensures !Observed(env, book, t, key, ev) {
        if Observed(env, book, t, key, ev) {
          InputOfObserved(env, book, t, ev);
          PrefixIsFirstField(t.symbol, key);
        }
      }
      InputWhenAbsent(env, book, t, key);
      if t.symbol + ":" <= key {
        PrefixIsFirstField(t.symbol, key);
      }
    }
  }

  /** A commit leaves alone every route that lives in another shard. */
  lemma CommitElsewhere(h: Hash, n: nat, i: nat, op: Op, s: ShardState, s': ShardState, out: seq<SpreadEvent>, key: string)
    requires n > 0 && HousedAt(h, n, s, i) && Proper(h, n, i, op) && Commits(s, op, s', out)
    requires KeyHome(h, n, key) != i
    ensures key !in s.active && key !in s'.active && Proj(out, key) == []
  {
    assert RouteCommits(s, op, s', out, key);
    if op.TickOp? {
      InputElsewhere(op.env, s, op.tick, key);
    }
    hide Observe;
  }

  /** An observed event is good for the tracker, and belongs to the tick's time and symbol. */
  lemma ObservationIsGood(env: Env, s: ShardState, t: MarketTick, key: string)
    requires Tidy(s) && CleanTick(t) && TidyTick(t)
    ensures GoodInput(InputFor(TickOp(env, t), s, key))
    ensures InputTime(InputFor(TickOp(env, t), s, key)) in {None, Some(TickTime(t))}
    ensures var input := InputFor(TickOp(env, t), s, key);
      input.Observation? ==> RouteKey(input.ev) == key && ColonFreeRoute(input.ev)
  {
    if !Outdated(s.prices, t) {
      var book := BookAfter(s.prices, t);
      BookAfterIsTidy(s, t);
      if ev :| Observed(env, book, t, key, ev) {
        InputOfObserved(env, book, t, ev);
        CandidateIsTidy(env, book, t, ev);
        FoundRoute(env, book, t.symbol, TickTime(t), ev);
        CloseBelowOpen(env.settings);
      } else {
        InputWhenAbsent(env, book, t, key);
      }
    }
  }

  lemma StepKeepsKey(st: RouteMem, input: RouteInput, key: string)
    requires st.Some? ==> RouteKey(st.value.last) == key && ColonFreeRoute(st.value.last)
    requires input.Observation? ==> RouteKey(input.ev) == key && ColonFreeRoute(input.ev)
    ensures var st' := RouteStep(st, input).0; st'.Some? ==> RouteKey(st'.value.last) == key && ColonFreeRoute(st'.value.last)
  {
    if input.Observation? {
      ObserveKeepsKey(st, input.ev, input.open, input.close);
    }
    hide RouteKey;
    hide Observe;
  }

  lemma PricesStayHoused(h: Hash, n: nat, i: nat, op: Op, s: ShardState)
    requires n > 0 && HousedAt(h, n, s, i) && Proper(h, n, i, op)
    ensures forall sym :: sym in PricesAfter(op, s.prices) ==> Home(h, n, sym) == i && TidyBook(PricesAfter(op, s.prices)[sym])
  {
    hide RouteKey;
    if op.TickOp? {
      BookAfterIsTidy(s, op.tick);
    } else if op.JanitorOp? {
      PruningKeepsShape(s, op.now - op.ttl * 12);
    }
  }

  lemma CommitKeepsHoused(h: Hash, n: nat, i: nat, op: Op, s: ShardState, s': ShardState, out: seq<SpreadEvent>)
    requires n > 0 && HousedAt(h, n, s, i) && Proper(h, n, i, op) && Commits(s, op, s', out)
    ensures HousedAt(h, n, s', i)
  {
    PricesStayHoused(h, n, i, op, s);
    forall key | key in s'.active
      ensures RouteKey(s'.active[key].last) == key && ColonFreeRoute(s'.active[key].last) && KeyHome(h, n, key) == i
    {
      if KeyHome(h, n, key) != i {
        CommitElsewhere(h, n, i, op, s, s', out, key);
      }
      assert RouteCommits(s, op, s', out, key);
      if op.TickOp? {
        ObservationIsGood(op.env, s, op.tick, key);
      }
      StepKeepsKey(Get(s.active, key), InputFor(op, s, key), key);
    }
  }

  // ---- One shard does what many do ----

  /** The shards hold, between them, exactly what the single shard holds. */
  ghost predicate Splits(h: Hash, S: seq<ShardState>, whole: ShardState) {
    S != [] && forall i :: 0 <= i < |S| ==> SplitsAt(h, |S|, S[i], i, whole)
  }

  ghost predicate SplitsAt(h: Hash, n: nat, s: ShardState, i: nat, whole: ShardState)
    requires n > 0
  {
    && (forall sym :: Get(s.prices, sym) == if Home(h, n, sym) == i then Get(whole.prices, sym) else None)
    && (forall key :: Get(s.active, key) == if KeyHome(h, n, key) == i then Get(whole.active, key) else None)
  }

  lemma SplitInputs(h: Hash, S: seq<ShardState>, whole: ShardState, env: Env, t: MarketTick, key: string)
    requires Splits(h, S, whole) && CleanTick(t)
    ensures var s := S[Home(h, |S|, t.symbol)];
      && BookOf(s.prices, t.symbol) == BookOf(whole.prices, t.symbol)
      && (Outdated(s.prices, t) <==> Outdated(whole.prices, t))
      && InputFor(TickOp(env, t), s, key) == InputFor(TickOp(env, t), whole, key)
  {
    var i := Home(h, |S|, t.symbol);
    assert SplitsAt(h, |S|, S[i], i, whole);
    assert Get(S[i].prices, t.symbol) == Get(whole.prices, t.symbol);
    assert BookOf(S[i].prices, t.symbol) == BookOf(whole.prices, t.symbol);
    hide TickInput;
  }

  lemma TickOnBothSides(h: Hash, S: seq<ShardState>, S': seq<ShardState>, whole: ShardState, whole': ShardState,
                        env: Env, t: MarketTick, out: seq<SpreadEvent>, wholeOut: seq<SpreadEvent>, key: string)
    requires Splits(h, S, whole) && Housed(h, S) && Tidy(whole) && CleanTick(t) && TidyTick(t)
    requires OneShardCommits(S, Home(h, |S|, t.symbol), TickOp(env, t), S', out)
    requires Commits(whole, TickOp(env, t), whole', wholeOut)
    ensures Proj(out, key) == Proj(wholeOut, key)
    ensures forall i :: 0 <= i < |S| ==> Get(S'[i].active, key) == if KeyHome(h, |S|, key) == i then Get(whole'.active, key) else None
  {
    var i, n := Home(h, |S|, t.symbol), |S|;
    assert SplitsAt(h, n, S[i], i, whole) && HousedAt(h, n, S[i], i);
    SplitInputs(h, S, whole, env, t, key);
    assert RouteCommits(S[i], TickOp(env, t), S'[i], out, key);
    assert RouteCommits(whole, TickOp(env, t), whole', wholeOut, key);
    hide TickInput;
    hide Observe;
    if KeyHome(h, n, key) != i {
      InputElsewhere(env, whole, t, key);
      assert Get(S[i].active, key) == None;
    }
    forall j | 0 <= j < n
      ensures Get(S'[j].active, key) == if KeyHome(h, n, key) == j then Get(whole'.active, key) else None
    {
      assert SplitsAt(h, n, S[j], j, whole);
      assert Get(S[j].active, key) == if KeyHome(h, n, key) == j then Get(whole.active, key) else None;
    }
  }

  /** Two logs with the same events route by route hold the same events. */
  lemma {:induction false} SameProjSameEvents(a: seq<SpreadEvent>, e: SpreadEvent)
    ensures multiset(a)[e] == multiset(Proj(a, RouteKey(e)))[e]
  {
    hide RouteKey;
    if a != [] {
      var front, last := a[..|a| - 1], a[|a| - 1];
      SameProjSameEvents(front, e);
      assert a == front + [last];
    }
  }

  /** A symbol's quotes and a route's memory in the home shard are those of the whole. */
  lemma SplitGet(h: Hash, S: seq<ShardState>, whole: ShardState, i: nat, key: string)
    requires Splits(h, S, whole) && i < |S|
    ensures Get(S[i].active, key) == if KeyHome(h, |S|, key) == i then Get(whole.active, key) else None
  {
    assert SplitsAt(h, |S|, S[i], i, whole);
  }

  /** Route by route the same events, so the same events. */
  lemma SameRoutesSameEvents(a: seq<SpreadEvent>, b: seq<SpreadEvent>)
    requires forall key :: Proj(a, key) == Proj(b, key)
    ensures multiset(a) == multiset(b)
  {
    hide RouteKey;
    forall e ensures multiset(a)[e] == multiset(b)[e] {
      SameProjSameEvents(a, e);
      SameProjSameEvents(b, e);
    }
  }

  /**
   For every hash and number of shards, a tick leaves the shards holding what the single shard
   holds, and emits the same events, route by route and as a multiset.
   */
  lemma ShardingInvisible(h: Hash, S: seq<ShardState>, S': seq<ShardState>, whole: ShardState, whole': ShardState,
                          env: Env, t: MarketTick, out: seq<SpreadEvent>, wholeOut: seq<SpreadEvent>)
    requires Splits(h, S, whole) && Housed(h, S) && Tidy(whole) && CleanTick(t) && TidyTick(t)
    requires OneShardCommits(S, Home(h, |S|, t.symbol), TickOp(env, t), S', out)
    requires Commits(whole, TickOp(env, t), whole', wholeOut)
    ensures Splits(h, S', whole') && Housed(h, S')
    ensures forall key :: Proj(out, key) == Proj(wholeOut, key)
    ensures multiset(out) == multiset(wholeOut)
  {
    forall key ensures Proj(out, key) == Proj(wholeOut, key) {
      TickOnBothSides(h, S, S', whole, whole', env, t, out, wholeOut, key);
    }
    SameRoutesSameEvents(out, wholeOut);
    var home := Home(h, |S|, t.symbol);
    forall i | 0 <= i < |S'| ensures SplitsAt(h, |S'|, S'[i], i, whole') {
      assert SplitsAt(h, |S|, S[i], i, whole) && SplitsAt(h, |S|, S[home], home, whole);
      SplitInputs(h, S, whole, env, t, "");
      forall key ensures Get(S'[i].active, key) == if KeyHome(h, |S|, key) == i then Get(whole'.active, key) else None {
        TickOnBothSides(h, S, S', whole, whole', env, t, out, wholeOut, key);
      }
    }
    HousedAfter(h, S, S', home, TickOp(env, t), out);
  }

  lemma HousedAfter(h: Hash, S: seq<ShardState>, S': seq<ShardState>, i: nat, op: Op, out: seq<SpreadEvent>)
    requires Housed(h, S) && i < |S| && Proper(h, |S|, i, op) && OneShardCommits(S, i, op, S', out)
    ensures Housed(h, S')
  {
    hide HousedAt;
    assert HousedAt(h, |S|, S[i], i);
    CommitKeepsHoused(h, |S|, i, op, S[i], S'[i], out);
    forall j | 0 <= j < |S'| ensures HousedAt(h, |S'|, S'[j], j) {
      assert HousedAt(h, |S|, S[j], j);
    }
  }

  // ---- Passes over all shards ----

  /** A janitor or flush pass: every shard commits it, and the events follow in the order of the shards. */
  ghost predicate PassAll(S: seq<ShardState>, op: Op, S': seq<ShardState>, parts: seq<seq<SpreadEvent>>) {
    && |S| == |S'| == |parts| && !op.TickOp? && op.now != 0
    && forall i :: 0 <= i < |S| ==> Commits(S[i], op, S'[i], parts[i])
  }

  lemma PassOnBothSides(h: Hash, S: seq<ShardState>, S': seq<ShardState>, whole: ShardState, whole': ShardState,
                        op: Op, parts: seq<seq<SpreadEvent>>, wholeOut: seq<SpreadEvent>, i: nat, key: string)
    requires Splits(h, S, whole) && PassAll(S, op, S', parts) && Commits(whole, op, whole', wholeOut) && i < |S|
    ensures Proj(parts[i], key) == if KeyHome(h, |S|, key) == i then Proj(wholeOut, key) else []
    ensures Get(S'[i].active, key) == if KeyHome(h, |S|, key) == i then Get(whole'.active, key) else None
  {
    SplitGet(h, S, whole, i, key);
    assert RouteCommits(S[i], op, S'[i], parts[i], key);
    assert RouteCommits(whole, op, whole', wholeOut, key);
    hide RouteKey;
  }

  lemma {:induction false} ProjFlatten(parts: seq<seq<SpreadEvent>>, home: nat, key: string)
    requires forall i :: 0 <= i < |parts| && i != home ==> Proj(parts[i], key) == []
    ensures Proj(Flatten(parts), key) == if home < |parts| then Proj(parts[home], key) else []
  {
    hide Proj;
    if parts == [] {
      NothingProjected(key);
    } else {
      var front := parts[..|parts| - 1];
      ProjFlatten(front, home, key);
      ProjConcat(Flatten(front), parts[|parts| - 1], key);
      assert Proj(parts[|parts| - 1], key) == [] + Proj(parts[|parts| - 1], key);
    }
  }

  lemma NothingProjected(key: string)
    ensures Proj([], key) == []
  {
  }

  lemma KeptAt(prices: map<string, Book>, cut: Time, sym: string)
    ensures Get(Kept(prices, cut), sym)
         == if sym in prices && KeptBook(prices[sym], cut) != map[] then Some(KeptBook(prices[sym], cut)) else None
  {
  }

  /** What a pass leaves of a symbol depends on what there was of that symbol. */
  lemma PassPrices(op: Op, prices: map<string, Book>, others: map<string, Book>, sym: string)
    requires !op.TickOp?
    ensures Get(prices, sym) == Get(others, sym) ==> Get(PricesAfter(op, prices), sym) == Get(PricesAfter(op, others), sym)
    ensures Get(prices, sym) == None ==> Get(PricesAfter(op, prices), sym) == None
  {
    if op.JanitorOp? {
      KeptAt(prices, op.now - op.ttl * 12, sym);
      KeptAt(others, op.now - op.ttl * 12, sym);
      hide KeptBook;
    }
    hide Kept;
  }

  lemma SplitPrices(h: Hash, S: seq<ShardState>, whole: ShardState, i: nat, sym: string)
    requires Splits(h, S, whole) && i < |S|
    ensures Get(S[i].prices, sym) == if Home(h, |S|, sym) == i then Get(whole.prices, sym) else None
  {
    hide Home;
    hide KeyHome;
    assert SplitsAt(h, |S|, S[i], i, whole);
  }

  lemma PassSplitsPrices(h: Hash, S: seq<ShardState>, whole: ShardState, op: Op, i: nat, sym: string)
    requires Splits(h, S, whole) && !op.TickOp? && i < |S|
    ensures Get(PricesAfter(op, S[i].prices), sym)
         == if Home(h, |S|, sym) == i then Get(PricesAfter(op, whole.prices), sym) else None
  {
    SplitPrices(h, S, whole, i, sym);
    PassPrices(op, S[i].prices, whole.prices, sym);
    hide Splits;
    hide SplitsAt;
    hide Home;
    hide PricesAfter;
  }

  lemma PassProjects(h: Hash, S: seq<ShardState>, S': seq<ShardState>, whole: ShardState, whole': ShardState,
                     op: Op, parts: seq<seq<SpreadEvent>>, wholeOut: seq<SpreadEvent>, key: string)
    requires Splits(h, S, whole) && PassAll(S, op, S', parts) && Commits(whole, op, whole', wholeOut)
    ensures Proj(Flatten(parts), key) == Proj(wholeOut, key)
  {
    hide RouteKey;
    hide RouteStep;
    hide PricesAfter;
    hide Commits;
    hide Proj;
    forall i: nat | i < |parts| ensures Proj(parts[i], key) == if KeyHome(h, |S|, key) == i then Proj(wholeOut, key) else [] {
      PassOnBothSides(h, S, S', whole, whole', op, parts, wholeOut, i, key);
    }
    ProjFlatten(parts, KeyHome(h, |S|, key), key);
  }

  lemma PassSplitsAt(h: Hash, S: seq<ShardState>, S': seq<ShardState>, whole: ShardState, whole': ShardState,
                     op: Op, parts: seq<seq<SpreadEvent>>, wholeOut: seq<SpreadEvent>, i: nat)
    requires Splits(h, S, whole) && PassAll(S, op, S', parts) && Commits(whole, op, whole', wholeOut) && i < |S|
    ensures SplitsAt(h, |S'|, S'[i], i, whole')
  {
    hide RouteKey;
    hide RouteCommits;
    hide PricesAfter;
    hide Splits;
    forall key ensures Get(S'[i].active, key) == if KeyHome(h, |S|, key) == i then Get(whole'.active, key) else None {
      PassOnBothSides(h, S, S', whole, whole', op, parts, wholeOut, i, key);
    }
    forall sym ensures Get(S'[i].prices, sym) == if Home(h, |S|, sym) == i then Get(whole'.prices, sym) else None {
      PassSplitsPrices(h, S, whole, op, i, sym);
    }
  }

  /** A pass, too, leaves the shards holding what the single shard holds, and emits the same events. */
  lemma PassInvisible(h: Hash, S: seq<ShardState>, S': seq<ShardState>, whole: ShardState, whole': ShardState,
                      op: Op, parts: seq<seq<SpreadEvent>>, wholeOut: seq<SpreadEvent>)
    requires Splits(h, S, whole) && Housed(h, S) && PassAll(S, op, S', parts) && Commits(whole, op, whole', wholeOut)
    ensures Splits(h, S', whole') && Housed(h, S')
    ensures forall key :: Proj(Flatten(parts), key) == Proj(wholeOut, key)
    ensures multiset(Flatten(parts)) == multiset(wholeOut)
  {
    hide RouteKey;
    hide Commits;
    hide SplitsAt;
    hide HousedAt;
    hide Proj;
    forall key ensures Proj(Flatten(parts), key) == Proj(wholeOut, key) {
      PassProjects(h, S, S', whole, whole', op, parts, wholeOut, key);
    }
    SameRoutesSameEvents(Flatten(parts), wholeOut);
    forall i | 0 <= i < |S'| ensures SplitsAt(h, |S'|, S'[i], i, whole') && HousedAt(h, |S'|, S'[i], i) {
      PassSplitsAt(h, S, S', whole, whole', op, parts, wholeOut, i);
      assert HousedAt(h, |S|, S[i], i);
      CommitKeepsHoused(h, |S|, i, op, S[i], S'[i], parts[i]);
    }
  }

  // ---- Whole runs ----

  /** One call of the aggregator: a tick in its symbol's shard, or a pass over all of them. */
  ghost predicate Calls(h: Hash, S: seq<ShardState>, op: Op, S': seq<ShardState>, out: seq<SpreadEvent>)
    requires S != []
  {
    if op.TickOp? then
      CleanTick(op.tick) && TidyTick(op.tick) && OneShardCommits(S, Home(h, |S|, op.tick.symbol), op, S', out)
    else exists parts :: PassAll(S, op, S', parts) && out == Flatten(parts)
  }

  /** A run of an aggregator with n shards over these calls. */
  ghost predicate CallRun(h: Hash, n: nat, ops: seq<Op>, states: seq<seq<ShardState>>, outs: seq<seq<SpreadEvent>>) {
    && n > 0 && |states| == |ops| + 1 && |outs| == |ops|
    && states[0] == seq(n, _ => ShardState(map[], map[]))
    && forall m :: 0 <= m < |ops| ==> CallAt(h, n, ops, states, outs, m)
  }

  ghost predicate CallAt(h: Hash, n: nat, ops: seq<Op>, states: seq<seq<ShardState>>, outs: seq<seq<SpreadEvent>>, m: nat)
    requires |states| == |ops| + 1 && |outs| == |ops| && m < |ops| && n > 0
  {
    |states[m]| == n && Calls(h, states[m], ops[m], states[m + 1], outs[m])
  }

  /** What the single shard does in one call is one commit. */
  lemma SingleCommits(g: Hash, S: seq<ShardState>, op: Op, S': seq<ShardState>, out: seq<SpreadEvent>)
    requires |S| == 1 && Calls(g, S, op, S', out)
    ensures |S'| == 1 && Commits(S[0], op, S'[0], out)
    ensures op.TickOp? || op.now != 0
  {
    hide Commits;
    if !op.TickOp? {
      var parts :| PassAll(S, op, S', parts) && out == Flatten(parts);
      assert parts[..0] == [] && Flatten([]) == [];
      assert out == [] + parts[0];
      assert out == parts[0];
    }
  }

  lemma CallInvisible(h: Hash, S: seq<ShardState>, S': seq<ShardState>, whole: ShardState, whole': ShardState,
                      op: Op, out: seq<SpreadEvent>, wholeOut: seq<SpreadEvent>)
    requires Splits(h, S, whole) && Housed(h, S) && Tidy(whole) && Calls(h, S, op, S', out) && Commits(whole, op, whole', wholeOut)
    ensures |S'| == |S| && Splits(h, S', whole') && Housed(h, S')
    ensures forall key :: Proj(out, key) == Proj(wholeOut, key)
    ensures multiset(out) == multiset(wholeOut)
  {
    hide RouteKey;
    hide Splits;
    hide Housed;
    hide Commits;
    if op.TickOp? {
      ShardingInvisible(h, S, S', whole, whole', op.env, op.tick, out, wholeOut);
    } else {
      var parts :| PassAll(S, op, S', parts) && out == Flatten(parts);
      PassInvisible(h, S, S', whole, whole', op, parts, wholeOut);
    }
  }

  lemma StartsSplit(h: Hash, n: nat)
    requires n > 0
    ensures var S := seq(n, _ => ShardState(map[], map[])); Splits(h, S, ShardState(map[], map[])) && Housed(h, S)
  {
  }

  lemma OneHouse(h: Hash, S: seq<ShardState>)
    requires Housed(h, S) && |S| == 1
    ensures Tidy(S[0])
  {
    assert HousedAt(h, |S|, S[0], 0);
  }

  /** A single shard splits itself. */
  lemma {:induction false} RunsStaySplit(h: Hash, n: nat, g: Hash, ops: seq<Op>, states: seq<seq<ShardState>>, outs: seq<seq<SpreadEvent>>,
                                         singles: seq<seq<ShardState>>, singleOuts: seq<seq<SpreadEvent>>, m: nat)
    requires CallRun(h, n, ops, states, outs) && CallRun(g, 1, ops, singles, singleOuts) && m <= |ops|
    ensures |states[m]| == n && |singles[m]| == 1 && Splits(h, states[m], singles[m][0]) && Housed(h, states[m]) && Housed(g, singles[m])
  {
    hide RouteKey;
    hide Calls;
    hide Splits;
    hide Housed;
    if m == 0 {
      StartsSplit(h, n);
      StartsSplit(g, 1);
    } else {
      RunsStaySplit(h, n, g, ops, states, outs, singles, singleOuts, m - 1);
      OneCallMore(h, n, g, ops, states, outs, singles, singleOuts, m - 1);
    }
  }

  lemma OneCallMore(h: Hash, n: nat, g: Hash, ops: seq<Op>, states: seq<seq<ShardState>>, outs: seq<seq<SpreadEvent>>,
                    singles: seq<seq<ShardState>>, singleOuts: seq<seq<SpreadEvent>>, m: nat)
    requires CallRun(h, n, ops, states, outs) && CallRun(g, 1, ops, singles, singleOuts) && m < |ops|
    requires |states[m]| == n && |singles[m]| == 1 && Splits(h, states[m], singles[m][0]) && Housed(h, states[m]) && Housed(g, singles[m])
    ensures |states[m + 1]| == n && |singles[m + 1]| == 1
    ensures Splits(h, states[m + 1], singles[m + 1][0]) && Housed(h, states[m + 1]) && Housed(g, singles[m + 1])
    ensures forall key :: Proj(outs[m], key) == Proj(singleOuts[m], key)
    ensures multiset(outs[m]) == multiset(singleOuts[m])
  {
    hide RouteKey;
    hide Calls;
    hide Splits;
    hide Housed;
    hide Commits;
    assert CallAt(h, n, ops, states, outs, m) && CallAt(g, 1, ops, singles, singleOuts, m);
    OneHouse(g, singles[m]);
    SingleCommits(g, singles[m], ops[m], singles[m + 1], singleOuts[m]);
    CallInvisible(h, states[m], states[m + 1], singles[m][0], singles[m + 1][0], ops[m], outs[m], singleOuts[m]);
    SingleStaysHoused(g, singles[m], ops[m], singles[m + 1], singleOuts[m]);
  }

  lemma SingleStaysHoused(g: Hash, S: seq<ShardState>, op: Op, S': seq<ShardState>, out: seq<SpreadEvent>)
    requires |S| == 1 && Housed(g, S) && Calls(g, S, op, S', out)
    ensures |S'| == 1 && Housed(g, S')
  {
    SingleCommits(g, S, op, S', out);
    hide RouteKey;
    hide Commits;
    HousedAfter(g, S, S', 0, op, out);
  }

  /**
   Whole runs: over any calls, ticks and passes alike, an aggregator with any hash and any number of
   shards emits in each call what a single shard emits, as a multiset and route by route.
   */
  lemma ShardingInvisibleThroughout(h: Hash, n: nat, g: Hash, ops: seq<Op>, states: seq<seq<ShardState>>, outs: seq<seq<SpreadEvent>>,
                                    singles: seq<seq<ShardState>>, singleOuts: seq<seq<SpreadEvent>>)
    requires CallRun(h, n, ops, states, outs) && CallRun(g, 1, ops, singles, singleOuts)
    ensures forall m :: 0 <= m < |ops| ==> multiset(outs[m]) == multiset(singleOuts[m])
    ensures forall m, key :: 0 <= m < |ops| ==> Proj(outs[m], key) == Proj(singleOuts[m], key)
    ensures |states[|ops|]| == n && |singles[|ops|]| == 1 && Splits(h, states[|ops|], singles[|ops|][0])
  {
    hide RouteKey;
    hide Calls;
    hide Splits;
    hide Housed;
    hide CallRun;
    assert |outs| == |ops| == |singleOuts| by { RunLengths(h, n, g, ops, states, outs, singles, singleOuts); }
    forall m | 0 <= m < |ops|
      ensures multiset(outs[m]) == multiset(singleOuts[m]) && forall key :: Proj(outs[m], key) == Proj(singleOuts[m], key)
    {
      RunsStaySplit(h, n, g, ops, states, outs, singles, singleOuts, m);
      OneCallMore(h, n, g, ops, states, outs, singles, singleOuts, m);
    }
    RunsStaySplit(h, n, g, ops, states, outs, singles, singleOuts, |ops|);
  }

  lemma RunLengths(h: Hash, n: nat, g: Hash, ops: seq<Op>, states: seq<seq<ShardState>>, outs: seq<seq<SpreadEvent>>,
                   singles: seq<seq<ShardState>>, singleOuts: seq<seq<SpreadEvent>>)
    requires CallRun(h, n, ops, states, outs) && CallRun(g, 1, ops, singles, singleOuts)
    ensures |outs| == |ops| == |singleOuts| && |states| == |singles| == |ops| + 1
  {
  }
}

/** The shards as objects: the locked sections of the aggregator and the calls that run them. */
module Shards {
  import opened Wrappers
  import opened Domain
  import opened Config
  import opened Search
  import opened Routes
  import opened Aggregator

  function Put(m: map<string, RouteState>, key: string, v: RouteMem): map<string, RouteState> {
    if v.Some? then m[key := v.value] else m - {key}
  }

  /** The tick has been applied to this route, completely. */
  ghost predicate Settled(env: Env, book: Book, t: MarketTick, before: map<string, RouteState>,
                          midway: map<string, RouteState>, out: seq<SpreadEvent>, key: string)
  {
    RouteStep(Get(before, key), TickInput(env, book, t, key)) == (Get(midway, key), Proj(out, key))
  }

  /** The observation loop has been through: observed routes are settled, others untouched. */
  ghost predicate Halfway(env: Env, book: Book, t: MarketTick, before: map<string, RouteState>,
                          midway: map<string, RouteState>, out: seq<SpreadEvent>, current: set<string>, key: string)
  {
    if key in current then Settled(env, book, t, before, midway, out, key)
    else Get(midway, key) == Get(before, key) && Proj(out, key) == []
  }

  ghost predicate AllHalfway(env: Env, book: Book, t: MarketTick, before: map<string, RouteState>,
                             midway: map<string, RouteState>, out: seq<SpreadEvent>, current: set<string>)
  {
    forall key :: Halfway(env, book, t, before, midway, out, current, key)
  }

  predicate AllColonFree(active: map<string, RouteState>) { forall key :: key in active ==> ColonFreeRoute(active[key].last) }

  lemma SameKey(e: SpreadEvent, s: real, ts: Time, tag: Lifecycle)
    ensures RouteKey(e.(spread := s, timestamp := ts, lifecycle := tag)) == RouteKey(e)
  {
  }

  lemma ObserveKeepsKey(st: RouteMem, ev: SpreadEvent, open: real, close: real)
    ensures var (st', out) := Observe(st, ev, open, close);
      && |out| <= 1 && (st'.Some? ==> RouteKey(st'.value.last) == RouteKey(ev))
      && (out != [] ==> RouteKey(out[0]) == RouteKey(ev))
      && (st'.Some? && ColonFreeRoute(ev) ==> ColonFreeRoute(st'.value.last))
  {
    SameKey(ev, ev.spread, ev.timestamp, Opened);
    SameKey(ev, ev.spread, ev.timestamp, Updated);
    SameKey(ev, ev.spread, ev.timestamp, Closed);
  }

  lemma ProjOne(out: seq<SpreadEvent>, more: seq<SpreadEvent>, key: string)
    requires |more| <= 1
    ensures Proj(out + more, key) == Proj(out, key) + if more != [] && RouteKey(more[0]) == key then more else []
  {
    hide RouteKey;
    if more == [] {
      assert out + more == out;
    } else {
      assert more == [more[0]];
      ProjSnoc(out, more[0], key);
    }
  }

  /** A route's own observation settles it. */
  lemma ObserveSettles(env: Env, book: Book, t: MarketTick, before: map<string, RouteState>, midway: map<string, RouteState>,
                       out: seq<SpreadEvent>, k: string, input: RouteInput)
    requires TickInput(env, book, t, k) == input
    requires Get(midway, k) == Get(before, k) && Proj(out, k) == []
    ensures var (st, more) := RouteStep(Get(midway, k), input);
      |more| <= 1 && (more != [] ==> RouteKey(more[0]) == k) ==> Settled(env, book, t, before, Put(midway, k, st), out + more, k)
  {
    hide RouteKey;
    hide TickInput;
    var (st, more) := RouteStep(Get(midway, k), input);
    if |more| <= 1 && (more != [] ==> RouteKey(more[0]) == k) {
      ProjOne(out, more, k);
      assert [] + more == more;
    }
  }

  lemma HalfwayElsewhere(env: Env, book: Book, t: MarketTick, before: map<string, RouteState>, midway: map<string, RouteState>,
                         out: seq<SpreadEvent>, more: seq<SpreadEvent>, current: set<string>, k: string, st: RouteMem, key: string)
    requires key != k && |more| <= 1 && (more != [] ==> RouteKey(more[0]) == k)
    requires Halfway(env, book, t, before, midway, out, current, key)
    ensures Halfway(env, book, t, before, Put(midway, k, st), out + more, current + {k}, key)
  {
    hide Proj;
    hide RouteKey;
    hide TickInput;
    hide RouteStep;
    ProjOne(out, more, key);
    assert Proj(out, key) + [] == Proj(out, key);
  }

  /** Observing one more candidate settles its route and touches no other. */
  lemma ObserveOne(env: Env, book: Book, t: MarketTick, before: map<string, RouteState>, midway: map<string, RouteState>,
                   out: seq<SpreadEvent>, current: set<string>, ev: SpreadEvent)
    requires IsCandidate(env, book, t.exchange, t.symbol, TickTime(t), ev)
    requires TidyBook(book) && TidyTick(t) && RouteKey(ev) !in current
    requires AllHalfway(env, book, t, before, midway, out, current)
    ensures var (st, more) := Observe(Get(midway, RouteKey(ev)), ev, env.settings.hardMin, CloseThreshold(env.settings));
      AllHalfway(env, book, t, before, Put(midway, RouteKey(ev), st), out + more, current + {RouteKey(ev)})
  {
    var k, open, close := RouteKey(ev), env.settings.hardMin, CloseThreshold(env.settings);
    InputOfObserved(env, book, t, ev);
    var (st, more) := Observe(Get(midway, k), ev, open, close);
    ObserveKeepsKey(Get(midway, k), ev, open, close);
    assert RouteStep(Get(midway, k), Observation(ev, open, close)) == (st, more);
    assert Halfway(env, book, t, before, midway, out, current, k);
    ObserveSettles(env, book, t, before, midway, out, k, Observation(ev, open, close));
    forall key ensures Halfway(env, book, t, before, Put(midway, k, st), out + more, current + {k}, key) {
      if key != k {
        HalfwayElsewhere(env, book, t, before, midway, out, more, current, k, st, key);
      }
    }
  }

  lemma InputWhenAbsent(env: Env, book: Book, t: MarketTick, k: string)
    requires forall ev :: !Observed(env, book, t, k, ev)
    ensures TickInput(env, book, t, k) == if t.symbol + ":" <= k then Missing(TickTime(t)) else Untouched
  {
    hide Observed;
    hide RouteKey;
  }

  // ---- What a tick does, for any names ----

  /** Observes the routes one after the other. */
  function ObserveList(env: Env, active: map<string, RouteState>, found: seq<SpreadEvent>): (map<string, RouteState>, seq<SpreadEvent>) {
    if found == [] then (active, [])
    else
      var (midway, out) := ObserveList(env, active, found[..|found| - 1]);
      var ev := found[|found| - 1];
      var (st, more) := Observe(Get(midway, RouteKey(ev)), ev, env.settings.hardMin, CloseThreshold(env.settings));
      (Put(midway, RouteKey(ev), st), out + more)
  }

  /** The list holds exactly the routes the tick observes, each once. */
  ghost predicate ListsCandidates(env: Env, book: Book, t: MarketTick, found: seq<SpreadEvent>) {
    && (forall ev :: ev in found <==> IsCandidate(env, book, t.exchange, t.symbol, TickTime(t), ev))
    && (forall n, m :: 0 <= n < m < |found| ==> found[n] != found[m])
  }

  function KeysOf(found: seq<SpreadEvent>): set<string> { set ev | ev in found :: RouteKey(ev) }

  /** The sweep closes an active route of the symbol that was not observed, and does nothing to any other. */
  predicate SweptAt(midway: map<string, RouteState>, after: map<string, RouteState>, closes: seq<SpreadEvent>,
                    current: set<string>, t: MarketTick, key: string)
  {
    var goes := key in midway && t.symbol + ":" <= key && key !in current;
    && Get(after, key) == (if goes then None else Get(midway, key))
    && Proj(closes, key) == if goes then [ClosingEvent(midway[key], TickTime(t))] else []
  }

  /** The sweep has still to look at `todo`. */
  predicate SweepingAt(midway: map<string, RouteState>, after: map<string, RouteState>, closes: seq<SpreadEvent>,
                       current: set<string>, t: MarketTick, todo: set<string>, key: string)
  {
    if key in todo then Get(after, key) == Get(midway, key) && Proj(closes, key) == []
    else SweptAt(midway, after, closes, current, t, key)
  }

  ghost predicate AllSweeping(midway: map<string, RouteState>, after: map<string, RouteState>, closes: seq<SpreadEvent>,
                              current: set<string>, t: MarketTick, todo: set<string>)
  {
    forall key :: SweepingAt(midway, after, closes, current, t, todo, key)
  }

  lemma SweepFirst(midway: map<string, RouteState>, current: set<string>, t: MarketTick, key: string)
    ensures SweepingAt(midway, midway, [], current, t, midway.Keys, key)
  {
  }

  lemma SweepLast(midway: map<string, RouteState>, after: map<string, RouteState>, closes: seq<SpreadEvent>,
                  current: set<string>, t: MarketTick, key: string)
    requires SweepingAt(midway, after, closes, current, t, {}, key)
    ensures SweptAt(midway, after, closes, current, t, key)
  {
    hide SweptAt;
  }

  lemma SweepOne(midway: map<string, RouteState>, after: map<string, RouteState>, closes: seq<SpreadEvent>,
                 current: set<string>, t: MarketTick, todo: set<string>, k: string)
    requires k in after && k in todo && RouteKey(after[k].last) == k
    requires AllSweeping(midway, after, closes, current, t, todo)
    ensures var goes := t.symbol + ":" <= k && k !in current;
      var more := if goes then [ClosingEvent(after[k], TickTime(t))] else [];
      AllSweeping(midway, if goes then after - {k} else after, closes + more, current, t, todo - {k})
  {
    hide RouteKey;
    hide SweptAt;
    hide SweepingAt;
    var goes := t.symbol + ":" <= k && k !in current;
    var more := if goes then [ClosingEvent(after[k], TickTime(t))] else [];
    var next, out, left := if goes then after - {k} else after, closes + more, todo - {k};
    forall key ensures SweepingAt(midway, next, out, current, t, left, key) {
      SweepOneAt(midway, after, closes, current, t, todo, k, key);
    }
  }

  lemma SweepOneAt(midway: map<string, RouteState>, after: map<string, RouteState>, closes: seq<SpreadEvent>,
                   current: set<string>, t: MarketTick, todo: set<string>, k: string, key: string)
    requires k in after && k in todo && RouteKey(after[k].last) == k
    requires SweepingAt(midway, after, closes, current, t, todo, k)
    requires SweepingAt(midway, after, closes, current, t, todo, key)
    ensures var goes := t.symbol + ":" <= k && k !in current;
      var more := if goes then [ClosingEvent(after[k], TickTime(t))] else [];
      SweepingAt(midway, if goes then after - {k} else after, closes + more, current, t, todo - {k}, key)
  {
    hide RouteKey;
    hide Proj;
    var goes := t.symbol + ":" <= k && k !in current;
    var more := if goes then [ClosingEvent(after[k], TickTime(t))] else [];
    SameKey(after[k].last, 0.0, TickTime(t), Closed);
    ProjOne(closes, more, key);
    assert [] + more == more;
  }

  /** One tick: its quote is stored, its routes are observed in some order, and its symbol is swept. */
  ghost predicate TickRuns(s: ShardState, env: Env, t: MarketTick, s': ShardState, out: seq<SpreadEvent>,
                           found: seq<SpreadEvent>, closes: seq<SpreadEvent>)
    requires CleanTick(t)
  {
    var book := BookAfter(s.prices, t);
    var (midway, seen) := ObserveList(env, s.active, found);
    && s'.prices == s.prices[t.symbol := book] && ListsCandidates(env, book, t, found) && out == seen + closes
    && forall key :: SweptAt(midway, s'.active, closes, KeysOf(found), t, key)
  }

  ghost predicate TickRun(s: ShardState, env: Env, t: MarketTick, s': ShardState, out: seq<SpreadEvent>)
    requires CleanTick(t)
  {
    if Outdated(s.prices, t) then s' == s && out == []
    else exists found, closes :: TickRuns(s, env, t, s', out, found, closes)
  }

  // ---- With colon-free names a tick is a commit ----

  /** The first observations settle their own routes and leave the others alone. */
  lemma {:induction false} ListSettles(env: Env, book: Book, t: MarketTick, before: map<string, RouteState>,
                                       found: seq<SpreadEvent>, n: nat)
    requires n <= |found| && ListsCandidates(env, book, t, found) && TidyBook(book) && TidyTick(t)
    ensures var (midway, out) := ObserveList(env, before, found[..n]);
      AllHalfway(env, book, t, before, midway, out, KeysOf(found[..n]))
  {
    hide RouteKey;
    hide TickInput;
    hide Observe;
    hide IsCandidate;
    if n == 0 {
      assert found[..0] == [];
      assert AllHalfway(env, book, t, before, before, [], {});
    } else {
      hide AllHalfway;
      ListSettles(env, book, t, before, found, n - 1);
      var ev, current := found[n - 1], KeysOf(found[..n - 1]);
      assert ev in found && found[..n][..n - 1] == found[..n - 1];
      assert RouteKey(ev) !in current by {
        if RouteKey(ev) in current {
          var m :| 0 <= m < n - 1 && RouteKey(found[m]) == RouteKey(ev);
          assert found[m] in found;
          CandidatesDiffer(env, book, t, found[m], ev);
        }
      }
      var (midway, out) := ObserveList(env, before, found[..n - 1]);
      ObserveOne(env, book, t, before, midway, out, current, ev);
      KeysGrow(found, n);
    }
  }

  lemma KeysGrow(found: seq<SpreadEvent>, n: nat)
    requires 0 < n <= |found|
    ensures KeysOf(found[..n]) == KeysOf(found[..n - 1]) + {RouteKey(found[n - 1])}
  {
    hide RouteKey;
    assert found[..n] == found[..n - 1] + [found[n - 1]];
  }

  /** After its observation and its sweep a route is settled. */
  lemma SweepSettles(env: Env, book: Book, t: MarketTick, before: map<string, RouteState>, midway: map<string, RouteState>,
                     after: map<string, RouteState>, seen: seq<SpreadEvent>, closes: seq<SpreadEvent>, current: set<string>, key: string)
    requires Halfway(env, book, t, before, midway, seen, current, key) && SweptAt(midway, after, closes, current, t, key)
    requires key !in current ==> forall ev :: !Observed(env, book, t, key, ev)
    ensures Settled(env, book, t, before, after, seen + closes, key)
  {
    ProjConcat(seen, closes, key);
    hide Proj;
    hide TickInput;
    hide Observed;
    hide RouteKey;
    assert Proj(seen, key) + [] == Proj(seen, key) && [] + Proj(closes, key) == Proj(closes, key);
    if key in current {
      hide RouteStep;
      hide ClosingEvent;
    } else {
      InputWhenAbsent(env, book, t, key);
    }
  }

  lemma {:induction false} ListStaysTidy(env: Env, active: map<string, RouteState>, found: seq<SpreadEvent>)
    requires AllColonFree(active) && forall ev :: ev in found ==> ColonFreeRoute(ev)
    ensures AllColonFree(ObserveList(env, active, found).0)
  {
    hide RouteKey;
    hide ColonFreeRoute;
    hide Observe;
    if found != [] {
      var front, ev := found[..|found| - 1], found[|found| - 1];
      ListStaysTidy(env, active, front);
      var midway := ObserveList(env, active, front).0;
      ObserveKeepsKey(Get(midway, RouteKey(ev)), ev, env.settings.hardMin, CloseThreshold(env.settings));
      assert ev in found;
    }
  }

  lemma TickStaysTidy(s: ShardState, env: Env, t: MarketTick, s': ShardState, out: seq<SpreadEvent>,
                      found: seq<SpreadEvent>, closes: seq<SpreadEvent>)
    requires Tidy(s) && CleanTick(t) && TidyTick(t) && TickRuns(s, env, t, s', out, found, closes)
    ensures Tidy(s') && TidyBook(BookAfter(s.prices, t))
  {
    hide RouteKey;
    hide ObserveList;
    hide IsCandidate;
    hide ColonFreeRoute;
    var book := BookAfter(s.prices, t);
    BookAfterIsTidy(s, t);
    forall ev | ev in found ensures ColonFreeRoute(ev) {
      CandidateIsTidy(env, book, t, ev);
    }
    ListStaysTidy(env, s.active, found);
    var midway := ObserveList(env, s.active, found).0;
    forall key | key in s'.active ensures ColonFreeRoute(s'.active[key].last) {
      assert SweptAt(midway, s'.active, closes, KeysOf(found), t, key);
    }
  }

  lemma BookAfterIsTidy(s: ShardState, t: MarketTick)
    requires Tidy(s) && CleanTick(t) && TidyTick(t)
    ensures TidyBook(BookAfter(s.prices, t))
  {
  }

  /** With colon-free names a tick moves every route by its own observation or absence, whatever the order of the list. */
  lemma TickIsCommit(s: ShardState, env: Env, t: MarketTick, s': ShardState, out: seq<SpreadEvent>)
    requires Tidy(s) && CleanTick(t) && TidyTick(t) && TickRun(s, env, t, s', out)
    ensures Tidy(s') && Commits(s, TickOp(env, t), s', out)
  {
    hide RouteKey;
    hide TickInput;
    hide ObserveList;
    hide IsCandidate;
    if !Outdated(s.prices, t) {
      var found, closes :| TickRuns(s, env, t, s', out, found, closes);
      TickStaysTidy(s, env, t, s', out, found, closes);
      var book := BookAfter(s.prices, t);
      var (midway, seen) := ObserveList(env, s.active, found);
      assert found[..|found|] == found;
      ListSettles(env, book, t, s.active, found, |found|);
      forall key ensures RouteCommits(s, TickOp(env, t), s', out, key) {
        assert Halfway(env, book, t, s.active, midway, seen, KeysOf(found), key);
        assert SweptAt(midway, s'.active, closes, KeysOf(found), t, key);
        if key !in KeysOf(found) {
          forall ev ensures !Observed(env, book, t, key, ev) {
            assert ev in found ==> RouteKey(ev) in KeysOf(found);
          }
        }
        SweepSettles(env, book, t, s.active, midway, s'.active, seen, closes, KeysOf(found), key);
      }
    }
  }

  class Shard {
    var prices: map<string, Book>
    var active: map<string, RouteState>

    function State(): ShardState
      reads this
    {
      ShardState(prices, active)
    }

    ghost predicate Valid()
      reads this
    {
      Keyed(State())
    }

    constructor ()
      ensures Valid() && State() == ShardState(map[], map[])
    {
      prices, active := map[], map[];
    }

    /** Opens, closes or raises one observed route; returns the event to emit, if any. */
    method ObserveRoute(env: Env, ev: SpreadEvent) returns (out: seq<SpreadEvent>)
      requires Valid()
      modifies this`active
      ensures Valid()
      ensures var (st, more) := Observe(Get(old(active), RouteKey(ev)), ev, env.settings.hardMin, CloseThreshold(env.settings));
        active == Put(old(active), RouteKey(ev), st) && out == more
      ensures ColonFreeRoute(ev) && Tidy(old(State())) ==> Tidy(State())
    {
      var key := RouteKey(ev);
      var close, open := CloseThreshold(env.settings), env.settings.hardMin;
      ObserveKeepsKey(Get(active, key), ev, open, close);
      hide RouteKey;
      if key !in active {
        if ev.spread < open {
          assert active - {key} == active;
          return [];
        }
        var opening := ev.(lifecycle := Opened);
        active := active[key := RouteState(ev.spread, opening, ev.timestamp)];
        return [opening];
      }
      active := active[key := active[key].(last := ev)];
      if ev.spread <= close {
        active := active - {key};
        return [ev.(lifecycle := Closed)];
      }
      if ev.spread > active[key].peak {
        active := active[key := active[key].(peak := ev.spread)];
        return [ev.(lifecycle := Updated)];
      }
      return [];
    }

    /** Searches the symbol and observes every eligible route, cross routes first. */
    method ObserveAll(env: Env, book: Book, t: MarketTick)
      returns (out: seq<SpreadEvent>, current: set<string>, ghost found: seq<SpreadEvent>)
      requires Valid()
      modifies this`active
      ensures Valid()
      ensures ListsCandidates(env, book, t, found) && current == KeysOf(found)
      ensures (active, out) == ObserveList(env, old(active), found)
    {
      hide RouteKey;
      hide CrossEvent;
      hide IntraEvent;
      hide RouteEligible;
      hide SymbolMayPass;
      hide Observe;
      hide ObserveList;
      hide KeysOf;
      hide Lists;
      hide ListsCandidates;
      out, current, found := [], {}, [];
      var now := TickTime(t);
      NothingListed(env, active);
      if !HasUsers(env) {
        NoCandidates(env, book, t);
        return;
      }
      var may := SymbolMayPassVolume(env, book, t.symbol, now);
      if !may {
        NoCandidates(env, book, t);
        return;
      }
      var cross := CrossCandidates(env, book, t.symbol, now);
      var i := 0;
      while i < |cross|
        invariant 0 <= i <= |cross|
        invariant Valid() && current == KeysOf(found) && (active, out) == ObserveList(env, old(active), found)
        invariant Lists(env, cross[..i], found)
      {
        var ev := cross[i];
        assert cross[..i + 1] == cross[..i] + [ev];
        ListsNext(env, cross[..i], found, ev);
        if RouteEligible(env, ev) {
          ListOneMore(env, old(active), found, ev);
          var more := ObserveRoute(env, ev);
          out, current, found := out + more, current + {RouteKey(ev)}, found + [ev];
        }
        i := i + 1;
      }
      assert cross[..|cross|] == cross;
      var intra := IntraEvent(env, book, t.exchange, t.symbol, now);
      ListIsComplete(env, book, t, cross, found);
      if intra.Some? && RouteEligible(env, intra.value) {
        var ev := intra.value;
        ListOneMore(env, old(active), found, ev);
        var more := ObserveRoute(env, ev);
        out, current, found := out + more, current + {RouteKey(ev)}, found + [ev];
      }
    }

    /** Closes every active route of the symbol that was not observed. */
    method SweepSymbol(t: MarketTick, current: set<string>) returns (closes: seq<SpreadEvent>)
      requires Valid()
      modifies this`active
      ensures Valid()
      ensures forall key :: SweptAt(old(active), active, closes, current, t, key)
    {
      hide RouteKey;
      hide SweptAt;
      hide SweepingAt;
      closes := [];
      var todo := active.Keys;
      forall key ensures SweepingAt(active, active, closes, current, t, todo, key) {
        SweepFirst(active, current, t, key);
      }
      while todo != {}
        invariant todo <= active.Keys && Valid()
        invariant AllSweeping(old(active), active, closes, current, t, todo)
      {
        var key := Pick(todo);
        SweepOne(old(active), active, closes, current, t, todo, key);
        todo := todo - {key};
        if t.symbol + ":" <= key && key !in current {
          closes := closes + [ClosingEvent(active[key], TickTime(t))];
          active := active - {key};
        } else {
          assert closes + [] == closes;
        }
      }
      forall key ensures SweptAt(old(active), active, closes, current, t, key) {
        SweepLast(old(active), active, closes, current, t, key);
      }
    }

    /** The locked section of one accepted or outdated tick. */
    method Tick(env: Env, t: MarketTick) returns (out: seq<SpreadEvent>)
      requires Valid() && CleanTick(t)
      modifies this
      ensures Valid() && TickRun(old(State()), env, t, State(), out)
      ensures Tidy(old(State())) && TidyTick(t) ==> Tidy(State()) && Commits(old(State()), TickOp(env, t), State(), out)
    {
      hide RouteKey;
      hide Observe;
      hide ObserveList;
      hide ListsCandidates;
      hide SweptAt;
      hide Commits;
      hide Tidy;
      hide Keyed;
      if Outdated(prices, t) {
        if Tidy(State()) && TidyTick(t) {
          TickIsCommit(State(), env, t, State(), []);
        }
        return [];
      }
      ghost var before := State();
      var book := BookAfter(prices, t);
      prices := prices[t.symbol := book];
      assert Valid() by { StillKeyed(before, State()); }
      var seen, current;
      ghost var found;
      seen, current, found := ObserveAll(env, book, t);
      var closes := SweepSymbol(t, current);
      out := seen + closes;
      assert TickRuns(before, env, t, State(), out, found, closes);
      if Tidy(before) && TidyTick(t) {
        TickIsCommit(before, env, t, State(), out);
      }
    }

    /** Closes, at `now`, all active routes or only those not seen for too long. */
    method CloseRoutes(now: Time, all: bool) returns (out: seq<SpreadEvent>)
      requires Valid()
      modifies this`active
      ensures Valid() && (Tidy(old(State())) ==> Tidy(State()))
      ensures forall key :: ClosedOff(old(active), now, all, active, out, key)
    {
      hide RouteKey;
      hide Keyed;
      hide Tidy;
      hide Expired;
      hide ClosedOff;
      hide ClosingAt;
      out := [];
      var todo := active.Keys;
      forall key ensures ClosingAt(active, now, all, active, out, todo, key) {
        CloseFirst(active, now, all, key);
      }
      while todo != {}
        invariant todo <= active.Keys
        invariant Valid() && (Tidy(old(State())) ==> Tidy(State()))
        invariant AllClosing(old(active), now, all, active, out, todo)
      {
        var key := Pick(todo);
        CloseKeeps(State(), key);
        CloseOne(old(active), now, all, active, out, todo, key);
        todo := todo - {key};
        if all || Expired(active[key], now) {
          out := out + [ClosingEvent(active[key], now)];
          active := active - {key};
        } else {
          assert out + [] == out;
        }
      }
      forall key ensures ClosedOff(old(active), now, all, active, out, key) {
        CloseLast(old(active), now, all, active, out, key);
      }
    }

    /** Deletes quotes received before the cut, and the maps that become empty. */
    static method PruneQuotes(all: map<string, Book>, cut: Time) returns (prices: map<string, Book>)
      ensures prices == Kept(all, cut)
    {
      hide KeptBook;
      prices := all;
      var todo := all.Keys;
      while todo != {}
        invariant todo <= all.Keys
        invariant forall sym :: sym in todo ==> Get(prices, sym) == Get(all, sym)
        invariant forall sym :: sym !in todo ==> Get(prices, sym) == Get(Kept(all, cut), sym)
      {
        var sym := Pick(todo);
        todo := todo - {sym};
        assert Get(prices, sym) == Get(all, sym);
        var book := KeptBook(prices[sym], cut);
        prices := if book == map[] then prices - {sym} else prices[sym := book];
      }
      SameMap(prices, Kept(all, cut));
    }

    method Janitor(now: Time, ttl: int) returns (out: seq<SpreadEvent>)
      requires Valid()
      modifies this
      ensures Valid() && (Tidy(old(State())) ==> Tidy(State()))
      ensures Commits(old(State()), JanitorOp(now, ttl), State(), out)
    {
      PruningKeepsShape(State(), now - ttl * 12);
      hide RouteKey;
      hide Kept;
      hide Keyed;
      hide Tidy;
      hide Commits;
      hide ClosedOff;
      prices := PruneQuotes(prices, now - ttl * 12);
      assert State() == old(State()).(prices := Kept(old(prices), now - ttl * 12));
      out := CloseRoutes(now, false);
      PassCommits(old(State()), JanitorOp(now, ttl), now, false, State(), out);
    }

    method FlushActive(now: Time) returns (out: seq<SpreadEvent>)
      requires Valid()
      modifies this`active
      ensures Valid() && (Tidy(old(State())) ==> Tidy(State()))
      ensures Commits(old(State()), FlushOp(now), State(), out)
    {
      hide RouteKey;
      out := CloseRoutes(now, true);
      PassCommits(old(State()), FlushOp(now), now, true, State(), out);
    }
  }

  ghost predicate ClosedOff(before: map<string, RouteState>, now: Time, all: bool,
                            after: map<string, RouteState>, out: seq<SpreadEvent>, key: string)
  {
    var closes := key in before && (all || Expired(before[key], now));
    RouteStep(Get(before, key), if closes then Missing(now) else Untouched) == (Get(after, key), Proj(out, key))
  }

  /** The closes have still to look at `todo`. */
  ghost predicate ClosingAt(before: map<string, RouteState>, now: Time, all: bool, after: map<string, RouteState>,
                            out: seq<SpreadEvent>, todo: set<string>, key: string)
  {
    if key in todo then Get(after, key) == Get(before, key) && Proj(out, key) == []
    else ClosedOff(before, now, all, after, out, key)
  }

  ghost predicate AllClosing(before: map<string, RouteState>, now: Time, all: bool, after: map<string, RouteState>,
                             out: seq<SpreadEvent>, todo: set<string>)
  {
    forall key :: ClosingAt(before, now, all, after, out, todo, key)
  }

  lemma CloseFirst(before: map<string, RouteState>, now: Time, all: bool, key: string)
    ensures ClosingAt(before, now, all, before, [], before.Keys, key)
  {
    hide Expired;
  }

  lemma CloseLast(before: map<string, RouteState>, now: Time, all: bool, after: map<string, RouteState>,
                  out: seq<SpreadEvent>, key: string)
    requires ClosingAt(before, now, all, after, out, {}, key)
    ensures ClosedOff(before, now, all, after, out, key)
  {
    hide ClosedOff;
  }

  lemma CloseOne(before: map<string, RouteState>, now: Time, all: bool, after: map<string, RouteState>,
                 out: seq<SpreadEvent>, todo: set<string>, k: string)
    requires k in after && k in todo && RouteKey(after[k].last) == k
    requires AllClosing(before, now, all, after, out, todo)
    ensures var closes := all || Expired(after[k], now);
      var more := if closes then [ClosingEvent(after[k], now)] else [];
      AllClosing(before, now, all, if closes then after - {k} else after, out + more, todo - {k})
  {
    hide RouteKey;
    hide Expired;
    hide ClosedOff;
    hide ClosingAt;
    var closes := all || Expired(after[k], now);
    var more := if closes then [ClosingEvent(after[k], now)] else [];
    var next, out', left := if closes then after - {k} else after, out + more, todo - {k};
    forall key ensures ClosingAt(before, now, all, next, out', left, key) {
      CloseOneAt(before, now, all, after, out, todo, k, key);
    }
  }

  lemma CloseOneAt(before: map<string, RouteState>, now: Time, all: bool, after: map<string, RouteState>,
                   out: seq<SpreadEvent>, todo: set<string>, k: string, key: string)
    requires k in after && k in todo && RouteKey(after[k].last) == k
    requires ClosingAt(before, now, all, after, out, todo, k)
    requires ClosingAt(before, now, all, after, out, todo, key)
    ensures var closes := all || Expired(after[k], now);
      var more := if closes then [ClosingEvent(after[k], now)] else [];
      ClosingAt(before, now, all, if closes then after - {k} else after, out + more, todo - {k}, key)
  {
    hide RouteKey;
    hide Expired;
    hide Proj;
    ClosingKeepsKey(after[k], now);
    var more := if all || Expired(after[k], now) then [ClosingEvent(after[k], now)] else [];
    ProjOne(out, more, key);
    assert [] + more == more;
    assert Proj(out, key) + [] == Proj(out, key);
  }

  lemma CloseKeeps(s: ShardState, key: string)
    ensures Keyed(s) ==> Keyed(s.(active := s.active - {key})) && (key in s.active ==> RouteKey(s.active[key].last) == key)
    ensures Tidy(s) ==> Tidy(s.(active := s.active - {key}))
  {
    hide RouteKey;
  }

  lemma ClosingKeepsKey(s: RouteState, now: Time)
    ensures RouteKey(ClosingEvent(s, now)) == RouteKey(s.last)
  {
    SameKey(s.last, 0.0, now, Closed);
    hide RouteKey;
  }

  lemma PassCommits(s: ShardState, op: Op, now: Time, all: bool, s': ShardState, out: seq<SpreadEvent>)
    requires (op.JanitorOp? && op.now == now && !all) || (op == FlushOp(now) && all)
    requires s'.prices == PricesAfter(op, s.prices)
    requires forall key :: ClosedOff(s.active, now, all, s'.active, out, key)
    ensures Commits(s, op, s', out)
  {
    hide RouteKey;
    hide Kept;
    hide Expired;
    forall key ensures RouteCommits(s, op, s', out, key) {
      assert ClosedOff(s.active, now, all, s'.active, out, key);
    }
  }

  lemma PruningKeepsShape(s: ShardState, cut: Time)
    ensures var s' := s.(prices := Kept(s.prices, cut));
      (Keyed(s) ==> Keyed(s')) && (Tidy(s) ==> Tidy(s'))
  {
    hide RouteKey;
  }

  lemma IntraIsNotCross(env: Env, book: Book, symbol: string, now: Time, exchange: string, ev: SpreadEvent)
    requires IntraEvent(env, book, exchange, symbol, now) == Some(ev)
    ensures ev.buyExchange == ev.sellExchange == exchange
    ensures CrossEvent(env, book, symbol, now, ev.buyExchange, ev.sellExchange).None?
  {
  }

  lemma IntraNotFound(env: Env, book: Book, t: MarketTick, cross: seq<SpreadEvent>, ev: SpreadEvent)
    requires forall n :: 0 <= n < |cross| ==>
      CrossEvent(env, book, t.symbol, TickTime(t), cross[n].buyExchange, cross[n].sellExchange) == Some(cross[n])
    requires IntraEvent(env, book, t.exchange, t.symbol, TickTime(t)) == Some(ev)
    ensures ev !in cross
  {
    IntraIsNotCross(env, book, t.symbol, TickTime(t), t.exchange, ev);
    hide CrossEvent;
    hide IntraEvent;
  }

  /** The search over a symbol that passes the prefilter gives exactly the candidates. */
  lemma CandidateIsListed(env: Env, book: Book, t: MarketTick, cross: seq<SpreadEvent>, ev: SpreadEvent)
    requires HasUsers(env) && SymbolMayPass(env, book, t.symbol, TickTime(t))
    requires forall n :: 0 <= n < |cross| ==>
      CrossEvent(env, book, t.symbol, TickTime(t), cross[n].buyExchange, cross[n].sellExchange) == Some(cross[n])
    requires forall buy, sell :: PairCovered(env, book, t.symbol, TickTime(t), buy, sell, cross)
    ensures IsCandidate(env, book, t.exchange, t.symbol, TickTime(t), ev)
      <==> RouteEligible(env, ev) && (ev in cross || IntraEvent(env, book, t.exchange, t.symbol, TickTime(t)) == Some(ev))
  {
    hide CrossEvent;
    hide IntraEvent;
    hide RouteEligible;
    hide SymbolMayPass;
    assert PairCovered(env, book, t.symbol, TickTime(t), ev.buyExchange, ev.sellExchange, cross);
  }

  /** The list holds the eligible ones of the routes seen so far, each once. */
  ghost predicate Lists(env: Env, seen: seq<SpreadEvent>, found: seq<SpreadEvent>) {
    && (forall ev :: ev in found <==> ev in seen && RouteEligible(env, ev))
    && (forall n, m :: 0 <= n < m < |found| ==> found[n] != found[m])
  }

  lemma ListsNext(env: Env, seen: seq<SpreadEvent>, found: seq<SpreadEvent>, ev: SpreadEvent)
    requires Lists(env, seen, found) && ev !in seen
    ensures Lists(env, seen + [ev], if RouteEligible(env, ev) then found + [ev] else found)
  {
    hide RouteEligible;
  }

  lemma NothingListed(env: Env, active: map<string, RouteState>)
    ensures Lists(env, [], []) && KeysOf([]) == {} && ObserveList(env, active, []) == (active, [])
  {
  }

  lemma NoCandidates(env: Env, book: Book, t: MarketTick)
    requires !HasUsers(env) || !SymbolMayPass(env, book, t.symbol, TickTime(t))
    ensures ListsCandidates(env, book, t, [])
  {
    hide SymbolMayPass;
  }

  /** After the cross routes and the intra route of the exchange the list is complete. */
  lemma ListIsComplete(env: Env, book: Book, t: MarketTick, cross: seq<SpreadEvent>, found: seq<SpreadEvent>)
    requires HasUsers(env) && SymbolMayPass(env, book, t.symbol, TickTime(t)) && Lists(env, cross, found)
    requires forall n :: 0 <= n < |cross| ==>
      CrossEvent(env, book, t.symbol, TickTime(t), cross[n].buyExchange, cross[n].sellExchange) == Some(cross[n])
    requires forall buy, sell :: PairCovered(env, book, t.symbol, TickTime(t), buy, sell, cross)
    ensures var intra := IntraEvent(env, book, t.exchange, t.symbol, TickTime(t));
      ListsCandidates(env, book, t, if intra.Some? && RouteEligible(env, intra.value) then found + [intra.value] else found)
  {
    var intra := IntraEvent(env, book, t.exchange, t.symbol, TickTime(t));
    forall ev ensures IsCandidate(env, book, t.exchange, t.symbol, TickTime(t), ev)
                 <==> RouteEligible(env, ev) && (ev in cross || intra == Some(ev)) {
      CandidateIsListed(env, book, t, cross, ev);
    }
    if intra.Some? {
      IntraNotFound(env, book, t, cross, intra.value);
      ListsNext(env, cross, found, intra.value);
    }
    hide IsCandidate;
    hide IntraEvent;
    hide CrossEvent;
    hide RouteEligible;
    hide PairCovered;
    hide HasUsers;
    hide SymbolMayPass;
  }

  lemma ListOneMore(env: Env, active: map<string, RouteState>, found: seq<SpreadEvent>, ev: SpreadEvent)
    ensures var (midway, out) := ObserveList(env, active, found);
      var (st, more) := Observe(Get(midway, RouteKey(ev)), ev, env.settings.hardMin, CloseThreshold(env.settings));
      ObserveList(env, active, found + [ev]) == (Put(midway, RouteKey(ev), st), out + more)
    ensures KeysOf(found + [ev]) == KeysOf(found) + {RouteKey(ev)}
  {
    hide RouteKey;
    hide Observe;
    assert (found + [ev])[..|found|] == found;
    KeysGrow(found + [ev], |found| + 1);
    assert (found + [ev])[..|found| + 1] == found + [ev];
  }

  lemma StillKeyed(s: ShardState, s': ShardState)
    requires Keyed(s) && s'.active == s.active
    ensures Keyed(s')
  {
  }

  // ---- All shards ----

  ghost predicate OneShardCommits(S: seq<ShardState>, i: nat, op: Op, S': seq<ShardState>, out: seq<SpreadEvent>) {
    && i < |S| == |S'| && Commits(S[i], op, S'[i], out)
    && forall j :: 0 <= j < |S| && j != i ==> S'[j] == S[j]
  }

  /** The tick runs in one shard, and the others stay as they are. */
  ghost predicate OneShardRuns(S: seq<ShardState>, i: nat, env: Env, t: MarketTick, S': seq<ShardState>, out: seq<SpreadEvent>)
    requires CleanTick(t)
  {
    && i < |S| == |S'| && TickRun(S[i], env, t, S'[i], out)
    && forall j :: 0 <= j < |S| && j != i ==> S'[j] == S[j]
  }

  function Flatten(parts: seq<seq<SpreadEvent>>): seq<SpreadEvent> {
    if parts == [] then [] else Flatten(parts[..|parts| - 1]) + parts[|parts| - 1]
  }

  class ShardedAggregator {
    const shards: seq<Shard>
    const hash: string -> nat

    ghost predicate Valid()
      reads shards
    {
      && shards != []
      && (forall i, j :: 0 <= i < j < |shards| ==> shards[i] != shards[j])
      && (forall i :: 0 <= i < |shards| ==> shards[i].Valid())
    }

    ghost function States(): (S: seq<ShardState>)
      reads shards
      ensures |S| == |shards| && forall i :: 0 <= i < |S| ==> S[i] == shards[i].State()
    {
      seq(|shards|, i requires 0 <= i < |shards| reads shards => shards[i].State())
    }

    ghost predicate AllTidy()
      reads shards
    {
      forall i :: 0 <= i < |shards| ==> Tidy(shards[i].State())
    }

    function ShardFor(symbol: string): (i: nat)
      requires shards != []
      ensures i < |shards|
    {
      hash(symbol) % |shards|
    }

    constructor (n: nat, hash: string -> nat)
      requires n > 0
      ensures Valid() && AllTidy() && |shards| == n && this.hash == hash
      ensures forall i :: 0 <= i < n ==> fresh(shards[i]) && shards[i].State() == ShardState(map[], map[])
    {
      var made: seq<Shard> := [];
      while |made| < n
        invariant |made| <= n
        invariant forall i :: 0 <= i < |made| ==> fresh(made[i]) && made[i].State() == ShardState(map[], map[])
        invariant forall i, j :: 0 <= i < j < |made| ==> made[i] != made[j]
      {
        var s := new Shard();
        made := made + [s];
      }
      shards := made;
      this.hash := hash;
    }

    /** An invalid tick, or one whose symbol normalizes to nothing, is dropped before any lock is taken. */
    method ProcessTick(env: Env, tick: MarketTick) returns (out: seq<SpreadEvent>)
      requires Valid()
      modifies shards
      ensures Valid()
      ensures var t := Normalized(tick);
        if !ValidTick(tick) || t.symbol == "" then States() == old(States()) && out == []
        else
          && CleanTick(t)
          && OneShardRuns(old(States()), ShardFor(t.symbol), env, t, States(), out)
          && (old(AllTidy()) && TidyTick(t) ==>
                AllTidy() && OneShardCommits(old(States()), ShardFor(t.symbol), TickOp(env, t), States(), out))
    {
      hide RouteKey;
      if !ValidTick(tick) {
        return [];
      }
      var t := Normalized(tick);
      if t.symbol == "" {
        return [];
      }
      var i := ShardFor(t.symbol);
      out := shards[i].Tick(env, t);
    }

    /** Closes every active route, one shard at a time. */
    method FlushActive(now: Time) returns (out: seq<SpreadEvent>, ghost parts: seq<seq<SpreadEvent>>)
      requires Valid()
      modifies shards
      ensures Valid() && (old(AllTidy()) ==> AllTidy())
      ensures |parts| == |shards| && out == Flatten(parts)
      ensures forall i :: 0 <= i < |shards| ==> Commits(old(States())[i], FlushOp(now), States()[i], parts[i])
    {
      hide RouteKey;
      hide Commits;
      hide Tidy;
      hide Keyed;
      hide Shard.State;
      out, parts := [], [];
      ghost var S := States();
      var i := 0;
      while i < |shards|
        invariant 0 <= i <= |shards| && |parts| == i && out == Flatten(parts)
        invariant Valid() && (old(AllTidy()) ==> AllTidy())
        invariant forall j :: 0 <= j < i ==> Commits(S[j], FlushOp(now), shards[j].State(), parts[j])
        invariant forall j :: i <= j < |shards| ==> shards[j].State() == S[j]
      {
        var shard := shards[i];
        assert shard.State() == S[i];
        assert forall j :: 0 <= j < |shards| && j != i ==> shards[j] != shard;
        var more := shard.FlushActive(now);
        assert (parts + [more])[..|parts|] == parts;
        out, parts := out + more, parts + [more];
        i := i + 1;
      }
    }

    /** The periodic pass, one shard at a time; its events are sent after the last lock is released. */
    method Janitor(now: Time, ttl: int) returns (out: seq<SpreadEvent>, ghost parts: seq<seq<SpreadEvent>>)
      requires Valid()
      modifies shards
      ensures Valid() && (old(AllTidy()) ==> AllTidy())
      ensures |parts| == |shards| && out == Flatten(parts)
      ensures forall i :: 0 <= i < |shards| ==> Commits(old(States())[i], JanitorOp(now, ttl), States()[i], parts[i])
    {
      hide RouteKey;
      hide Commits;
      hide Tidy;
      hide Keyed;
      hide Shard.State;
      out, parts := [], [];
      ghost var S := States();
      var i := 0;
      while i < |shards|
        invariant 0 <= i <= |shards| && |parts| == i && out == Flatten(parts)
        invariant Valid() && (old(AllTidy()) ==> AllTidy())
        invariant forall j :: 0 <= j < i ==> Commits(S[j], JanitorOp(now, ttl), shards[j].State(), parts[j])
        invariant forall j :: i <= j < |shards| ==> shards[j].State() == S[j]
      {
        var shard := shards[i];
        assert shard.State() == S[i];
        assert forall j :: 0 <= j < |shards| && j != i ==> shards[j] != shard;
        var more := shard.Janitor(now, ttl);
        assert (parts + [more])[..|parts|] == parts;
        out, parts := out + more, parts + [more];
        i := i + 1;
      }
    }

    /**
     Re-evaluates one route from the shard of the signal's symbol: it succeeds exactly when the search
     there, over the quotes under the symbol's normal form, contains the route, with that search's figures.
     */
    ghost function RevalidateSignal(env: Env, s: Signal, now: Time): (r: Option<Signal>)
      requires shards != []
      reads shards
      ensures var prices := shards[ShardFor(s.symbol)].prices;
        && (r.Some? <==> exists ev :: HoldsRoute(env, prices, s, now, ev))
        && forall ev | HoldsRoute(env, prices, s, now, ev) :: r == Some(Refreshed(s, ev))
    {
      RevalidateIsSearch(env, shards[ShardFor(s.symbol)].prices, s, now);
      Revalidate(env, shards[ShardFor(s.symbol)].prices, s, now)
    }
  }
}

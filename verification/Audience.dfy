/** Who is told of a signal, in the figures of the signal, its legs and the user. */
module Audience {
  import opened Wrappers
  import opened Text
  import opened Domain
  import opened Volume
  import opened Search
  import opened OpenRoutes
  import opened Notifications
  import opened RouterProtocol

  // ---- The gates ----

  /** Without a futures leg funding does not matter; otherwise every known funding is far enough away, and one is known. */
  predicate FarFromFunding(s: Signal, u: User, now: Time) {
    (s.buyMarket != Futures && s.sellMarket != Futures)
    || (&& (s.buyNextFunding != 0 || s.sellNextFunding != 0)
        && (s.buyNextFunding != 0 ==> s.buyNextFunding >= now + u.minFundingMinutes * MINUTE)
        && (s.sellNextFunding != 0 ==> s.sellNextFunding >= now + u.minFundingMinutes * MINUTE))
  }

  function LegEstimate(data: VolumeData, s: Signal, exchange: string, market: Market, tf: Timeframe): Estimate {
    MarketEstimate(data, exchange, s.symbol, market, tf, s.openedAt, 0)
  }

  /** The 24-hour volume of the signal, or, with an engine and another window, the volume of each leg at the opening. */
  predicate LiquidEnough(volume: Option<VolumeData>, s: Signal, u: User) {
    if volume.None? || u.timeframe == TF24h then s.quoteVolume >= u.minVolume
    else
      var buy := LegEstimate(volume.value, s, s.buyExchange, s.buyMarket, u.timeframe);
      var sell := LegEstimate(volume.value, s, s.sellExchange, s.sellMarket, u.timeframe);
      if buy.knownMinutes > 0 && sell.knownMinutes > 0 then buy.volume >= u.minVolume && sell.volume >= u.minVolume
      else u.minVolume <= 0.0
  }

  /** A user is told exactly when the spread, every known funding time and every leg's volume meet his settings. */
  lemma WantsExactly(s: Signal, u: User, now: Time, volume: Option<VolumeData>)
    ensures Wants(s, u, now, volume) <==> s.peakSpread >= u.minSpread && FarFromFunding(s, u, now) && LiquidEnough(volume, s, u)
  {
  }

  /** The route prefilter passes a found route exactly when some user's own volume test accepts its signal, if users are measured alike. */
  lemma EligibleExactly(env: Env, ev: SpreadEvent, signalId: nat)
    requires env.users.Some? && forall id :: id in env.users.value ==> env.volume.Some? || env.users.value[id].timeframe == TF24h
    requires ev.buyExchange != "" && ev.sellExchange != ""
    ensures RouteEligible(env, ev) <==>
      exists id :: id in env.users.value && LiquidEnough(env.volume, NewSignal(ev, signalId, ev.timestamp), env.users.value[id])
  {
    var s := NewSignal(ev, signalId, ev.timestamp);
    forall id | id in env.users.value
      ensures LiquidEnough(env.volume, s, env.users.value[id]) <==> RouteVolume(env, ev, env.users.value[id]) >= env.users.value[id].minVolume
    {
    }
    hide LiquidEnough;
    hide RouteVolume;
  }

  /** When no leg with a recent quote reaches any user's minimum the tick observes nothing. */
  lemma TooThinForAll(env: Env, book: Book, exchange: string, symbol: string, now: Time, ev: SpreadEvent)
    requires env.users.Some? && forall id :: id in env.users.value ==> env.users.value[id].minVolume > 0.0
    requires forall id, ex, market :: id in env.users.value && HasRecent(book, ex, market, now, env.ttl) ==>
      LegVolume(env, ex, symbol, market, book[ex][market], env.users.value[id], now) < env.users.value[id].minVolume
    ensures !IsCandidate(env, book, exchange, symbol, now, ev)
  {
    hide LegVolume;
    hide CrossEvent;
    hide IntraEvent;
    hide RouteEligible;
    forall id, ex, market | id in env.users.value ensures !LegPasses(env, book, symbol, now, env.users.value[id], ex, market) {
      assert LegPasses(env, book, symbol, now, env.users.value[id], ex, market) ==> HasRecent(book, ex, market, now, env.ttl);
    }
  }

  // ---- The second look ----

  /** What the second look decides is a step a worker may take. */
  lemma JudgementIsAllowed(job: Job, current: Option<Signal>, hardMin: real, users: map<int, User>, now: Time,
                           volume: Option<VolumeData>, kept: Option<seq<int>>)
    requires Judged(job, current, hardMin, users, now, volume, kept)
    ensures MayKeep(job, kept)
  {
    hide Wants;
    if job.revalidate && kept.Some? {
      var wanted := StillWanting(current.value, job.chats, users, now, volume);
      assert Lists(kept.value, users, wanted);
      var id :| id in wanted;
      assert id in users && id in kept.value;
    }
  }

  /**
   An opening judged at the moment it was found, with the users of that moment, goes to everybody it was announced
   for: the aggregator finds the route again, with the spread it opened with.
   */
  lemma OpeningSurvivesItsSecondLook(env: Env, prices: map<string, Book>, ev: SpreadEvent, id: nat, now: Time,
                                     users: map<int, User>, chats: seq<int>, kept: Option<seq<int>>)
    requires NormalSymbol(ev.symbol) == ev.symbol && ev.symbol in prices && InSearch(env, prices[ev.symbol], ev.symbol, now, ev)
    requires ev.spread >= env.settings.hardMin && chats != []
    requires var s := NewSignal(ev.(lifecycle := Opened), id, now);
      && Lists(chats, users, set u | u in users && Wants(s, users[u], now, env.volume))
      && Judged(JobFor(s, OpenJob, chats), Revalidate(env, prices, s, now), env.settings.hardMin, users, now, env.volume, kept)
    ensures kept.Some? && forall chat :: chat in kept.value <==> chat in chats
  {
    hide Wants;
    hide InSearch;
    hide Revalidate;
    hide NormalSymbol;
    OpenedIsFoundAgain(env, prices, ev, id, now);
    var s := NewSignal(ev.(lifecycle := Opened), id, now);
    var first := chats[0];
    assert first in chats && first in users;
    assert first in StillWanting(s, chats, users, now, env.volume);
  }
}

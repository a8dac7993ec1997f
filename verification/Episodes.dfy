/**
 What a signal says.  An episode is the list of events a signal is made of, read off the log without
 the signal; a tracked, persisted or announced signal tells its episode and nothing else.
 */
module Episodes {
  import opened Wrappers
  import opened Domain
  import opened Tracking

  // ---- Episodes ----

  /** The event is one the episode takes notice of: sound, of this route, an opening first and none later, and not before it. */
  predicate Counts(ep: seq<SpreadEvent>, e: SpreadEvent, key: string) {
    && e.timestamp != 0 && e.symbol != "" && e.spread >= 0.0 && RouteKey(e) == key
    && if ep == [] then e.lifecycle in {Opened, Untagged} else e.lifecycle != Opened && e.timestamp >= ep[0].timestamp
  }

  predicate Closing(ep: seq<SpreadEvent>, e: SpreadEvent, closeAt: real) {
    ep != [] && (e.lifecycle == Closed || (e.lifecycle == Untagged && e.spread <= closeAt))
  }

  function NextEpisode(ep: seq<SpreadEvent>, e: SpreadEvent, key: string, closeAt: real): seq<SpreadEvent> {
    if !Counts(ep, e, key) then ep else if Closing(ep, e, closeAt) then [] else ep + [e]
  }

  /** The events of the signal that is open on this route after the log. */
  function Episode(log: seq<SpreadEvent>, key: string, closeAt: real): seq<SpreadEvent> {
    if log == [] then []
    else NextEpisode(Episode(log[..|log| - 1], key, closeAt), log[|log| - 1], key, closeAt)
  }

  // ---- Signals ----

  predicate IsHighest(x: real, values: seq<real>) { x in values && forall y :: y in values ==> y <= x }

  function Spreads(ep: seq<SpreadEvent>): seq<real> { seq(|ep|, i requires 0 <= i < |ep| => ep[i].spread) }

  function Volumes(ep: seq<SpreadEvent>): seq<real> { seq(|ep|, i requires 0 <= i < |ep| => ep[i].quoteVolume) }

  /** Route, time and initial spread of the first event, funding of the last, peak and volume of all. */
  predicate Tells(s: Signal, ep: seq<SpreadEvent>)
    requires ep != []
  {
    var first, last := ep[0], ep[|ep| - 1];
    && s.symbol == first.symbol && s.kind == first.kind
    && s.buyExchange == (if first.buyExchange != "" then first.buyExchange else first.exchangeA)
    && s.sellExchange == (if first.sellExchange != "" then first.sellExchange else first.exchangeB)
    && s.buyMarket == first.buyMarket && s.sellMarket == first.sellMarket
    && s.openedAt == first.timestamp && s.initialSpread == first.spread
    && IsHighest(s.peakSpread, Spreads(ep)) && IsHighest(s.quoteVolume, Volumes(ep))
    && s.buyFundingRate == last.buyFundingRate && s.sellFundingRate == last.sellFundingRate
    && s.buyNextFunding == last.buyNextFunding && s.sellNextFunding == last.sellNextFunding
  }

  predicate Running(s: Signal) { s.isActive && s.closedAt == 0 && s.finalSpread == 0.0 && s.duration == 0 }

  predicate EndedBy(s: Signal, e: SpreadEvent) {
    !s.isActive && s.closedAt == e.timestamp && s.finalSpread == e.spread && s.duration == e.timestamp - s.openedAt
  }

  /** The key of the route that the signal itself names. */
  function KeyOfSignal(s: Signal): string {
    KeyOf(s.symbol, s.kind, s.buyExchange, s.sellExchange, s.buyMarket, s.sellMarket)
  }

  lemma HighestOfMore(x: real, values: seq<real>, y: real)
    requires IsHighest(x, values)
    ensures IsHighest(if y > x then y else x, values + [y])
  {
    assert y in values + [y];
  }

  lemma {:induction false} FiguresOfMore(ep: seq<SpreadEvent>, e: SpreadEvent)
    ensures Spreads(ep + [e]) == Spreads(ep) + [e.spread] && Volumes(ep + [e]) == Volumes(ep) + [e.quoteVolume]
  {
  }

  lemma NewSignalTells(e: SpreadEvent, id: nat, chats: seq<int>)
    ensures var s := NewSignal(e, id, e.timestamp);
      Tells(s, [e]) && Running(s) && KeyOfSignal(s) == RouteKey(e) && s.id == id && s.notified == []
    ensures var s := NewSignal(e, id, e.timestamp).(notified := chats);
      Tells(s, [e]) && Running(s) && KeyOfSignal(s) == RouteKey(e) && s.id == id
  {
    assert e.spread in Spreads([e]) by { assert Spreads([e])[0] == e.spread; }
    assert e.quoteVolume in Volumes([e]) by { assert Volumes([e])[0] == e.quoteVolume; }
  }

  lemma UpdateTells(s: Signal, ep: seq<SpreadEvent>, e: SpreadEvent)
    requires ep != [] && Tells(s, ep) && Running(s) && e.timestamp >= ep[0].timestamp
    ensures var s' := UpdateSignal(s, e);
      && Tells(s', ep + [e]) && Running(s') && KeyOfSignal(s') == KeyOfSignal(s) && s'.id == s.id && s'.notified == s.notified
      && (s'.peakSpread > s.peakSpread <==> forall x :: x in ep ==> x.spread < e.spread)
  {
    hide IsHighest;
    hide KeyOf;
    FiguresOfMore(ep, e);
    HighestOfMore(s.peakSpread, Spreads(ep), e.spread);
    HighestOfMore(s.quoteVolume, Volumes(ep), e.quoteVolume);
    RaisedOverAll(s.peakSpread, ep, e);
  }

  lemma RaisedOverAll(peak: real, ep: seq<SpreadEvent>, e: SpreadEvent)
    requires IsHighest(peak, Spreads(ep))
    ensures e.spread > peak <==> forall x :: x in ep ==> x.spread < e.spread
  {
    var i :| 0 <= i < |ep| && Spreads(ep)[i] == peak;
    assert ep[i] in ep && ep[i].spread == peak;
    forall x | x in ep ensures x.spread <= peak {
      var j :| 0 <= j < |ep| && ep[j] == x;
      assert Spreads(ep)[j] == x.spread && Spreads(ep)[j] in Spreads(ep);
    }
  }

  // ---- The tracker's signals and calls tell the episodes ----

  /** The entry under a key tells the open episode of that key, names that very route, and was opened by its first event. */
  ghost predicate EntryTells(active: Active, log: seq<SpreadEvent>, chats: nat -> seq<int>, closeAt: real, key: string) {
    var ep := Episode(log, key, closeAt);
    && (key in active <==> ep != [])
    && (key in active ==>
          var s := active[key];
          && Tells(s, ep) && Running(s) && KeyOfSignal(s) == key
          && 1 <= s.id <= |log| && log[s.id - 1] == ep[0] && s.notified == chats(s.id))
  }

  predicate OpeningCalls(calls: seq<Call>, e: SpreadEvent, n: nat) {
    && |calls| == 2 && calls[0].Persist? && calls[1] == NotifyOpen(calls[0].signal)
    && var s := calls[0].signal; Tells(s, [e]) && Running(s) && KeyOfSignal(s) == RouteKey(e) && s.id == n && s.notified == []
  }

  predicate ClosingCallsOf(calls: seq<Call>, ep: seq<SpreadEvent>, e: SpreadEvent, id: nat, told: seq<int>)
    requires ep != []
  {
    && |calls| == 5 && calls[0].Persist?
    && var s := calls[0].signal;
      && calls[1..] == [Invalidate(id), DropUpdate(id), NotifyClose(s), ClearUpdates(id)]
      && Tells(s, ep + [e]) && EndedBy(s, e) && KeyOfSignal(s) == RouteKey(e) && s.id == id && s.notified == told
  }

  /** What the tracker hands on for one event, by the episodes before and after it. */
  ghost predicate Reports(calls: seq<Call>, ep: seq<SpreadEvent>, e: SpreadEvent, n: nat, active: Active, after: Active, closeAt: real) {
    var key := RouteKey(e);
    if !Counts(ep, e, key) then calls == []
    else if ep == [] then OpeningCalls(calls, e, n)
    else if Closing(ep, e, closeAt) then key in active && ClosingCallsOf(calls, ep, e, active[key].id, active[key].notified)
    else if exists x :: x in ep && x.spread >= e.spread then calls == []
    else key in after && calls == [Persist(after[key])] + if e.lifecycle == Updated then [NotifyUpdate(after[key])] else []
  }

  function RaisedCalls(s: Signal, e: SpreadEvent): seq<Call> {
    [Persist(s)] + if e.lifecycle == Updated then [NotifyUpdate(s)] else []
  }

  /** What the tracker does, by cases of the episode. */
  lemma HandleByEpisode(active: Active, e: SpreadEvent, n: nat, chats: seq<int>, closeAt: real, key: string, ep: seq<SpreadEvent>)
    requires (key in active <==> ep != []) && (ep != [] ==> active[key].openedAt == ep[0].timestamp)
    ensures var (after, calls) := Handle(active, e, n, chats, closeAt);
      if !Counts(ep, e, key) then Get(after, key) == Get(active, key) && (RouteKey(e) == key ==> calls == [])
      else if ep == [] then
        var s := NewSignal(e, n, e.timestamp); Get(after, key) == Some(s.(notified := chats)) && calls == [Persist(s), NotifyOpen(s)]
      else
        var s := UpdateSignal(active[key], e);
        if Closing(ep, e, closeAt) then (Get(after, key) == None && calls == ClosingCalls(CloseSignal(s, e.timestamp, e.spread)))
        else (Get(after, key) == Some(s) && calls == if s.peakSpread > active[key].peakSpread then RaisedCalls(s, e) else [])
  {
    hide RouteKey;
    hide UpdateSignal;
    hide NewSignal;
    hide CloseSignal;
  }

  /** One event, seen from the route of a key. */
  lemma HandleTells(active: Active, log: seq<SpreadEvent>, chats: nat -> seq<int>, closeAt: real, e: SpreadEvent, key: string)
    requires EntryTells(active, log, chats, closeAt, key)
    ensures EntryTells(Handle(active, e, |log| + 1, chats(|log| + 1), closeAt).0, log + [e], chats, closeAt, key)
  {
    hide Handle;
    hide UpdateSignal;
    hide NewSignal;
    hide CloseSignal;
    hide KeyOf;
    hide RouteKey;
    var ep, n := Episode(log, key, closeAt), |log| + 1;
    var after := Handle(active, e, n, chats(n), closeAt).0;
    assert (log + [e])[..|log|] == log;
    HandleByEpisode(active, e, n, chats(n), closeAt, key, ep);
    if Counts(ep, e, key) {
      if ep == [] {
        NewSignalTells(e, n, chats(n));
        assert ep + [e] == [e];
      } else {
        UpdateTells(active[key], ep, e);
      }
    } else {
      assert Get(after, key) == Get(active, key);
    }
    hide IsHighest;
  }

  lemma HandleReports(active: Active, log: seq<SpreadEvent>, chats: nat -> seq<int>, closeAt: real, e: SpreadEvent)
    requires EntryTells(active, log, chats, closeAt, RouteKey(e))
    ensures var (after, calls) := Handle(active, e, |log| + 1, chats(|log| + 1), closeAt);
      Reports(calls, Episode(log, RouteKey(e), closeAt), e, |log| + 1, active, after, closeAt)
  {
    hide Handle;
    hide UpdateSignal;
    hide NewSignal;
    hide CloseSignal;
    hide KeyOf;
    hide RouteKey;
    hide IsHighest;
    var key, n := RouteKey(e), |log| + 1;
    var ep := Episode(log, key, closeAt);
    HandleByEpisode(active, e, n, chats(n), closeAt, key, ep);
    if Counts(ep, e, key) {
      if ep == [] {
        NewSignalTells(e, n, chats(n));
      } else {
        UpdateTells(active[key], ep, e);
        EndTells(UpdateSignal(active[key], e), ep + [e], e);
      }
    }
  }

  lemma EndTells(s: Signal, ep: seq<SpreadEvent>, e: SpreadEvent)
    requires ep != [] && Tells(s, ep) && Running(s) && e.timestamp >= s.openedAt
    ensures var s' := CloseSignal(s, e.timestamp, e.spread);
      Tells(s', ep) && EndedBy(s', e) && KeyOfSignal(s') == KeyOfSignal(s) && s'.id == s.id && s'.notified == s.notified
  {
    hide KeyOf;
  }

  /** Over any log every tracked signal tells the open episode of the route it names and is filed under. */
  lemma {:induction false} TrackedTellEpisodes(log: seq<SpreadEvent>, chats: nat -> seq<int>, closeAt: real, key: string)
    ensures EntryTells(Replay(log, chats, closeAt).0, log, chats, closeAt, key)
  {
    hide Handle;
    hide NextEpisode;
    hide Tells;
    hide RouteKey;
    if log != [] {
      var front, e := log[..|log| - 1], log[|log| - 1];
      TrackedTellEpisodes(front, chats, closeAt, key);
      HandleTells(Replay(front, chats, closeAt).0, front, chats, closeAt, e, key);
      assert front + [e] == log;
      hide EntryTells;
    }
  }

  /**
   Every event of any log is reported by what it does to its episode: the first by the new signal, a raise by the
   raised one, the last by the ended one to those told of the opening, and any other not at all.
   */
  lemma EveryEventIsReported(log: seq<SpreadEvent>, e: SpreadEvent, chats: nat -> seq<int>, closeAt: real)
    ensures var (active, before), (after, calls) := Replay(log, chats, closeAt), Replay(log + [e], chats, closeAt);
      && before <= calls
      && Reports(calls[|before|..], Episode(log, RouteKey(e), closeAt), e, |log| + 1, active, after, closeAt)
  {
    hide Handle;
    hide Reports;
    assert (log + [e])[..|log|] == log;
    TrackedTellEpisodes(log, chats, closeAt, RouteKey(e));
    HandleReports(Replay(log, chats, closeAt).0, log, chats, closeAt, e);
    var (active, before) := Replay(log, chats, closeAt);
    var more := Handle(active, e, |log| + 1, chats(|log| + 1), closeAt).1;
    assert (before + more)[|before|..] == more;
  }

  // ---- The newest snapshot is not behind ----

  /** The newest persisted snapshot names the route and the opening of the tracked signal, and carries its peak. */
  ghost predicate Current(active: Active, newest: map<nat, Signal>) {
    forall key :: key in active ==> active[key].id in newest && SameStanding(newest[active[key].id], active[key])
  }

  predicate SameStanding(stored: Signal, s: Signal) {
    && stored.peakSpread == s.peakSpread && stored.initialSpread == s.initialSpread && stored.openedAt == s.openedAt
    && stored.isActive == s.isActive && KeyOfSignal(stored) == KeyOfSignal(s)
  }

  lemma HandleStaysCurrent(active: Active, newest: map<nat, Signal>, e: SpreadEvent, n: nat, chats: seq<int>, closeAt: real)
    requires Accounted(active, newest, n) && Current(active, newest)
    ensures var (after, calls) := Handle(active, e, n + 1, chats, closeAt);
      Current(after, if calls != [] && calls[0].Persist? then newest[calls[0].signal.id := calls[0].signal] else newest)
  {
    hide RouteKey;
    hide Current;
    hide SameStanding;
    hide Accounted;
    var key := RouteKey(e);
    var (after, calls) := Handle(active, e, n + 1, chats, closeAt);
    if key !in active && key in after {
      var s := NewSignal(e, n + 1, e.timestamp);
      NotifiedStands(s, chats);
      CurrentWith(active, newest, n, key, s.(notified := chats), s);
    } else if key in active && key in after {
      UpdateStands(active[key], e);
      if calls != [] {
        CurrentWith(active, newest, n, key, after[key], after[key]);
      } else {
        assert after == active[key := after[key]];
        CurrentUnstored(active, newest, key, after[key]);
      }
    } else if key in active {
      CurrentWithout(active, newest, n, key, calls[0].signal);
      assert after == active - {key};
    } else {
      assert after == active && calls == [];
    }
  }

  lemma CurrentWith(active: Active, newest: map<nat, Signal>, n: nat, key: string, s: Signal, stored: Signal)
    requires Accounted(active, newest, n) && Current(active, newest) && SameStanding(stored, s) && stored.id == s.id
    requires s.id == n + 1 || (key in active && s.id == active[key].id)
    ensures Current(active[key := s], newest[s.id := stored])
  {
    hide KeyOfSignal;
  }

  lemma CurrentWithout(active: Active, newest: map<nat, Signal>, n: nat, key: string, ended: Signal)
    requires Accounted(active, newest, n) && Current(active, newest) && key in active && ended.id == active[key].id
    ensures Current(active - {key}, newest[ended.id := ended])
  {
    hide KeyOfSignal;
  }

  lemma CurrentUnstored(active: Active, newest: map<nat, Signal>, key: string, s: Signal)
    requires Current(active, newest) && key in active && SameStanding(active[key], s) && s.id == active[key].id
    ensures Current(active[key := s], newest)
  {
    hide KeyOfSignal;
  }

  lemma NotifiedStands(s: Signal, chats: seq<int>)
    ensures SameStanding(s, s.(notified := chats))
  {
    hide KeyOf;
  }

  lemma UpdateStands(s: Signal, e: SpreadEvent)
    ensures var s' := UpdateSignal(s, e);
      s'.id == s.id && (s'.peakSpread <= s.peakSpread ==> SameStanding(s, s')) && SameStanding(s', s') && SameStanding(s, s)
  {
    hide KeyOf;
  }

  /** Over any log no tracked signal has risen above its newest persisted snapshot. */
  lemma {:induction false} NewestIsCurrent(log: seq<SpreadEvent>, chats: nat -> seq<int>, closeAt: real)
    ensures var (active, calls) := Replay(log, chats, closeAt); Current(active, Newest(calls))
  {
    hide Handle;
    hide Current;
    hide Accounted;
    if log == [] {
      assert Current(map[], map[]) by { NothingIsCurrent(); }
    } else {
      var front, e := log[..|log| - 1], log[|log| - 1];
      NewestIsCurrent(front, chats, closeAt);
      ReplayAccounts(front, chats, closeAt);
      var (active, calls) := Replay(front, chats, closeAt);
      HandleAccounts(active, Newest(calls), |front|, e, chats(|log|), closeAt);
      HandleStaysCurrent(active, Newest(calls), e, |front|, chats(|log|), closeAt);
      NewestAppend(calls, Handle(active, e, |log|, chats(|log|), closeAt).1);
    }
  }

  lemma NothingIsCurrent()
    ensures Current(map[], map[])
  {
  }
}

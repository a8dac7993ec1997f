/**
 The tracker: lifecycle events become signals, and each change of a signal is handed on, in a
 fixed order, to persistence and to the notification router.
 */
module Tracking {
  import opened Wrappers
  import opened Domain
  import opened Routes
  import opened Aggregator

  /** What the tracker asks of its collaborators, in order. */
  datatype Call =
    | Persist(signal: Signal)
    | NotifyOpen(signal: Signal)
    | NotifyUpdate(signal: Signal)
    | Invalidate(id: nat)
    | DropUpdate(id: nat)
    | NotifyClose(signal: Signal)
    | ClearUpdates(id: nat)

  type Active = map<string, Signal>

  function Opening(active: Active, key: string, e: SpreadEvent, id: nat, chats: seq<int>): (Active, seq<Call>) {
    var s := NewSignal(e, id, e.timestamp);
    (active[key := s.(notified := chats)], [Persist(s), NotifyOpen(s)])
  }

  /** A close is announced only after the signal was invalidated and its pending update dropped. */
  function ClosingCalls(s: Signal): seq<Call> {
    [Persist(s), Invalidate(s.id), DropUpdate(s.id), NotifyClose(s), ClearUpdates(s.id)]
  }

  /** `id` is the fresh identifier of a new signal and `chats` the chats the router notified of it. */
  function Handle(active: Active, e: SpreadEvent, id: nat, chats: seq<int>, closeAt: real): (Active, seq<Call>) {
    var key := RouteKey(e);
    if !Accepted(e) then (active, [])
    else if key !in active then
      if e.lifecycle in {Opened, Untagged} then Opening(active, key, e, id, chats) else (active, [])
    else if e.lifecycle == Opened || e.timestamp < active[key].openedAt then (active, [])
    else
      var s := UpdateSignal(active[key], e);
      var raised := s.peakSpread > active[key].peakSpread;
      var ended := CloseSignal(s, e.timestamp, e.spread);
      match e.lifecycle
      case Closed => (active - {key}, ClosingCalls(ended))
      case Updated => (active[key := s], if raised then [Persist(s), NotifyUpdate(s)] else [])
      case Untagged =>
        if e.spread <= closeAt then (active - {key}, ClosingCalls(ended))
        else (active[key := s], if raised then [Persist(s)] else [])
  }

  class Tracker {
    var active: map<string, Signal>

    constructor ()
      ensures active == map[]
    {
      active := map[];
    }

    method HandleEvent(e: SpreadEvent, id: nat, chats: seq<int>, closeAt: real) returns (calls: seq<Call>)
      modifies this
      ensures (active, calls) == Handle(old(active), e, id, chats, closeAt)
    {
      hide RouteKey;
      if e.timestamp == 0 || e.symbol == "" || e.spread < 0.0 {
        return [];
      }
      var key := RouteKey(e);
      var persist, notify, isOpening := None, None, false;
      var signal := Get(active, key);
      match e.lifecycle {
        case Opened =>
          if signal.None? {
            var s := NewSignal(e, id, e.timestamp);
            active := active[key := s];
            persist, notify, isOpening := Some(s), Some(s), true;
          }
        case Updated =>
          if signal.Some? && e.timestamp >= signal.value.openedAt {
            var s := UpdateSignal(signal.value, e);
            active := active[key := s];
            if s.peakSpread > signal.value.peakSpread {
              persist := Some(s);
            }
          }
        case Closed =>
          if signal.Some? && e.timestamp >= signal.value.openedAt {
            var s := CloseSignal(UpdateSignal(signal.value, e), e.timestamp, e.spread);
            active := active - {key};
            persist, notify, isOpening := Some(s), Some(s), false;
          }
        case Untagged =>
          if signal.None? {
            var s := NewSignal(e, id, e.timestamp);
            active := active[key := s];
            persist, notify, isOpening := Some(s), Some(s), true;
          } else if e.timestamp >= signal.value.openedAt {
            var s := UpdateSignal(signal.value, e);
            active := active[key := s];
            if s.peakSpread > signal.value.peakSpread {
              persist := Some(s);
            }
            if e.spread <= closeAt {
              s := CloseSignal(s, e.timestamp, e.spread);
              active := active - {key};
              persist, notify, isOpening := Some(s), Some(s), false;
            }
          }
      }
      calls := if persist.Some? then [Persist(persist.value)] else [];
      if notify.Some? {
        if isOpening {
          calls := calls + [NotifyOpen(notify.value)];
          if chats != [] && persist.Some? && persist.value.isActive && key in active {
            active := active[key := active[key].(notified := chats)];
          }
        } else {
          var s := notify.value;
          calls := calls + [Invalidate(s.id), DropUpdate(s.id), NotifyClose(s), ClearUpdates(s.id)];
        }
      } else if persist.Some? && e.lifecycle == Updated {
        calls := calls + [NotifyUpdate(persist.value)];
      }
      assert active == Handle(old(active), e, id, chats, closeAt).0;
      assert calls == Handle(old(active), e, id, chats, closeAt).1;
    }
  }

  // ---- Replaying a log ----

  /** Handles a log in order; the n-th event would open signal n, and chats(n) are the chats notified of it. */
  function Replay(log: seq<SpreadEvent>, chats: nat -> seq<int>, closeAt: real): (Active, seq<Call>) {
    if log == [] then (map[], [])
    else
      var (active, calls) := Replay(log[..|log| - 1], chats, closeAt);
      var (active', more) := Handle(active, log[|log| - 1], |log|, chats(|log|), closeAt);
      (active', calls + more)
  }

  function View(active: Active, key: string): Option<TrackView> {
    if key in active then Some(TrackView(active[key].openedAt, active[key].peakSpread)) else None
  }

  predicate AllActive(active: Active) { forall key :: key in active ==> active[key].isActive }

  predicate Tagged(log: seq<SpreadEvent>) { forall e :: e in log ==> e.lifecycle != Untagged }

  lemma HandleIsTrackStep(active: Active, e: SpreadEvent, id: nat, chats: seq<int>, closeAt: real, key: string)
    requires AllActive(active) && e.lifecycle != Untagged
    ensures var after := Handle(active, e, id, chats, closeAt).0;
      && AllActive(after)
      && View(after, key) == if RouteKey(e) == key then TrackStep(View(active, key), e) else View(active, key)
  {
    hide RouteKey;
  }

  /** The tracker's entry for a route depends on that route's own events alone. */
  lemma {:induction false} ReplayIsTrack(log: seq<SpreadEvent>, chats: nat -> seq<int>, closeAt: real, key: string)
    requires Tagged(log)
    ensures AllActive(Replay(log, chats, closeAt).0)
    ensures View(Replay(log, chats, closeAt).0, key) == Track(Proj(log, key))
  {
    hide RouteKey;
    hide Handle;
    hide TrackStep;
    if log != [] {
      var front, e := log[..|log| - 1], log[|log| - 1];
      ReplayIsTrack(front, chats, closeAt, key);
      HandleIsTrackStep(Replay(front, chats, closeAt).0, e, |log|, chats(|log|), closeAt, key);
      TrackAppend(Proj(front, key), if RouteKey(e) == key then [e] else []);
    }
  }

  // ---- What is persisted ----

  /** The newest snapshot of every signal among the calls. */
  function Newest(calls: seq<Call>): map<nat, Signal> {
    if calls == [] then map[]
    else
      var rest, c := Newest(calls[..|calls| - 1]), calls[|calls| - 1];
      if c.Persist? then rest[c.signal.id := c.signal] else rest
  }

  lemma {:induction false} NewestAppend(a: seq<Call>, b: seq<Call>)
    requires forall i :: 1 <= i < |b| ==> !b[i].Persist?
    ensures Newest(a + b) == if b != [] && b[0].Persist? then Newest(a)[b[0].signal.id := b[0].signal] else Newest(a)
  {
    if b == [] {
      assert a + b == a;
    } else {
      var front := b[..|b| - 1];
      assert (a + b)[..|a + b| - 1] == a + front;
      NewestAppend(a, front);
    }
  }

  /** A snapshot that is no longer active carries a duration that matches its times. */
  predicate SoundSnapshot(s: Signal) {
    !s.isActive ==> s.duration == s.closedAt - s.openedAt && s.duration >= 0
  }

  /** After n events: the newest snapshots are active exactly for the signals still tracked. */
  ghost predicate Accounted(active: Active, newest: map<nat, Signal>, n: nat) {
    && (forall key :: key in active ==> active[key].isActive && active[key].id in newest && newest[active[key].id].isActive)
    && (forall a, b :: a in active && b in active && active[a].id == active[b].id ==> a == b)
    && (forall id :: id in newest && newest[id].isActive ==> exists key :: key in active && active[key].id == id)
    && (forall id :: id in newest ==> 0 < id <= n && newest[id].id == id && SoundSnapshot(newest[id]))
  }

  lemma AccountOpening(active: Active, newest: map<nat, Signal>, n: nat, key: string, s: Signal, chats: seq<int>)
    requires Accounted(active, newest, n) && key !in active && s.id == n + 1 && s.isActive
    ensures Accounted(active[key := s.(notified := chats)], newest[s.id := s], n + 1)
  {
    var active', newest' := active[key := s.(notified := chats)], newest[s.id := s];
    forall id | id in newest' && newest'[id].isActive ensures exists k :: k in active' && active'[k].id == id {
      if id == s.id {
        assert active'[key].id == id;
      } else {
        var k :| k in active && active[k].id == id;
        assert k in active' && active'[k].id == id;
      }
    }
  }

  lemma AccountUpdate(active: Active, newest: map<nat, Signal>, n: nat, key: string, s: Signal, stored: bool)
    requires Accounted(active, newest, n) && key in active && s.id == active[key].id && s.isActive
    ensures Accounted(active[key := s], if stored then newest[s.id := s] else newest, n + 1)
  {
    var active', newest' := active[key := s], if stored then newest[s.id := s] else newest;
    forall id | id in newest' && newest'[id].isActive ensures exists k :: k in active' && active'[k].id == id {
      if id == s.id {
        assert active'[key].id == id;
      } else {
        var k :| k in active && active[k].id == id;
        assert k in active' && active'[k].id == id;
      }
    }
  }

  lemma AccountClose(active: Active, newest: map<nat, Signal>, n: nat, key: string, s: Signal)
    requires Accounted(active, newest, n) && key in active && s.id == active[key].id && !s.isActive && SoundSnapshot(s)
    ensures Accounted(active - {key}, newest[s.id := s], n + 1)
  {
    var active', newest' := active - {key}, newest[s.id := s];
    forall id | id in newest' && newest'[id].isActive ensures exists k :: k in active' && active'[k].id == id {
      var k :| k in active && active[k].id == id;
      assert k in active' && active'[k].id == id;
    }
  }

  /** One event keeps the account. */
  lemma HandleAccounts(active: Active, newest: map<nat, Signal>, n: nat, e: SpreadEvent, chats: seq<int>, closeAt: real)
    requires Accounted(active, newest, n)
    ensures var (active', more) := Handle(active, e, n + 1, chats, closeAt);
      && (forall i :: 1 <= i < |more| ==> !more[i].Persist?)
      && Accounted(active', if more != [] && more[0].Persist? then newest[more[0].signal.id := more[0].signal] else newest, n + 1)
  {
    hide RouteKey;
    var key := RouteKey(e);
    var (active', more) := Handle(active, e, n + 1, chats, closeAt);
    if more == [] && active' == active {
      assert Accounted(active, newest, n + 1);
    } else if key !in active {
      AccountOpening(active, newest, n, key, NewSignal(e, n + 1, e.timestamp), chats);
    } else {
      var s := UpdateSignal(active[key], e);
      var ended := CloseSignal(s, e.timestamp, e.spread);
      if key in active' {
        AccountUpdate(active, newest, n, key, s, more != []);
      } else {
        AccountClose(active, newest, n, key, ended);
      }
    }
  }

  lemma {:induction false} ReplayAccounts(log: seq<SpreadEvent>, chats: nat -> seq<int>, closeAt: real)
    ensures var (active, calls) := Replay(log, chats, closeAt); Accounted(active, Newest(calls), |log|)
  {
    hide RouteKey;
    hide Handle;
    hide Accounted;
    if log == [] {
      assert Accounted(map[], map[], 0) by { EmptyAccount(); }
    } else {
      var front, e := log[..|log| - 1], log[|log| - 1];
      ReplayAccounts(front, chats, closeAt);
      var (active, calls) := Replay(front, chats, closeAt);
      HandleAccounts(active, Newest(calls), |front|, e, chats(|log|), closeAt);
      NewestAppend(calls, Handle(active, e, |log|, chats(|log|), closeAt).1);
    }
  }

  lemma EmptyAccount()
    ensures Accounted(map[], map[], 0)
  {
  }

  // ---- The order of the calls ----

  predicate EndsSignal(c: Call) { c.NotifyClose? || c.DropUpdate? }

  function EndedId(c: Call): nat
    requires EndsSignal(c)
  {
    if c.NotifyClose? then c.signal.id else c.id
  }

  /** A close is announced, and a pending update dropped, after the invalidation of the signal. */
  ghost predicate CloseGuarded(calls: seq<Call>) {
    forall j :: 0 <= j < |calls| && EndsSignal(calls[j]) ==> Invalidate(EndedId(calls[j])) in calls[..j]
  }

  lemma GuardedAppend(a: seq<Call>, b: seq<Call>)
    requires CloseGuarded(a) && CloseGuarded(b)
    ensures CloseGuarded(a + b)
  {
    forall j | 0 <= j < |a + b| && EndsSignal((a + b)[j]) ensures Invalidate(EndedId((a + b)[j])) in (a + b)[..j] {
      if j < |a| {
        assert (a + b)[..j] == a[..j];
      } else {
        assert (a + b)[..j] == a + b[..j - |a|];
      }
    }
  }

  lemma HandleIsGuarded(active: Active, e: SpreadEvent, id: nat, chats: seq<int>, closeAt: real)
    ensures CloseGuarded(Handle(active, e, id, chats, closeAt).1)
  {
    hide RouteKey;
    var calls := Handle(active, e, id, chats, closeAt).1;
    forall j | 0 <= j < |calls| && EndsSignal(calls[j]) ensures Invalidate(EndedId(calls[j])) in calls[..j] {
      assert j in {2, 3} && calls[1] == Invalidate(EndedId(calls[j])) && calls[..j][1] == calls[1];
    }
  }

  lemma {:induction false} ReplayIsGuarded(log: seq<SpreadEvent>, chats: nat -> seq<int>, closeAt: real)
    ensures CloseGuarded(Replay(log, chats, closeAt).1)
  {
    hide Handle;
    hide CloseGuarded;
    if log == [] {
      EmptyIsGuarded();
    } else {
      var front := log[..|log| - 1];
      ReplayIsGuarded(front, chats, closeAt);
      var (active, calls) := Replay(front, chats, closeAt);
      HandleIsGuarded(active, log[|log| - 1], |log|, chats(|log|), closeAt);
      GuardedAppend(calls, Handle(active, log[|log| - 1], |log|, chats(|log|), closeAt).1);
    }
  }

  lemma EmptyIsGuarded()
    ensures CloseGuarded([])
  {
  }

  /** Every announced close and every dropped update names a signal. */
  lemma {:induction false} ReplayIsNamed(log: seq<SpreadEvent>, chats: nat -> seq<int>, closeAt: real)
    ensures forall c :: c in Replay(log, chats, closeAt).1 && EndsSignal(c) ==> EndedId(c) != 0
  {
    hide Handle;
    hide Accounted;
    if log != [] {
      var front, e := log[..|log| - 1], log[|log| - 1];
      ReplayIsNamed(front, chats, closeAt);
      ReplayAccounts(front, chats, closeAt);
      var (active, calls) := Replay(front, chats, closeAt);
      HandleIsNamed(active, Newest(calls), |front|, e, chats(|log|), closeAt);
    }
  }

  lemma HandleIsNamed(active: Active, newest: map<nat, Signal>, n: nat, e: SpreadEvent, chats: seq<int>, closeAt: real)
    requires Accounted(active, newest, n)
    ensures forall c :: c in Handle(active, e, n + 1, chats, closeAt).1 && EndsSignal(c) ==> EndedId(c) != 0
  {
    hide RouteKey;
  }

  // ---- No update follows the clearing of its thresholds ----

  ghost predicate ClearsLast(calls: seq<Call>) {
    forall i, j :: 0 <= i < j < |calls| && calls[i].ClearUpdates? && calls[j].NotifyUpdate? ==> calls[i].id != calls[j].signal.id
  }

  /** Cleared signals are no longer tracked, and their identifiers are not given out again. */
  ghost predicate ClearedAreGone(calls: seq<Call>, active: Active, n: nat) {
    forall i :: 0 <= i < |calls| && calls[i].ClearUpdates? ==> IsGone(calls[i].id, active, n)
  }

  predicate IsGone(id: nat, active: Active, n: nat) { id <= n && forall key :: key in active ==> active[key].id != id }

  lemma HandleClears(active: Active, newest: map<nat, Signal>, n: nat, e: SpreadEvent, chats: seq<int>, closeAt: real)
    requires Accounted(active, newest, n)
    ensures var (active', more) := Handle(active, e, n + 1, chats, closeAt);
      && ClearsLast(more) && ClearedAreGone(more, active', n + 1)
      && (forall c :: c in more && c.NotifyUpdate? ==> exists key :: key in active && active[key].id == c.signal.id)
  {
    hide RouteKey;
  }

  lemma HandleKeepsGone(active: Active, n: nat, e: SpreadEvent, chats: seq<int>, closeAt: real, id: nat)
    requires IsGone(id, active, n)
    ensures IsGone(id, Handle(active, e, n + 1, chats, closeAt).0, n + 1)
  {
    hide RouteKey;
  }

  lemma ClearsAppend(calls: seq<Call>, more: seq<Call>, active: Active, after: Active, n: nat)
    requires ClearsLast(calls) && ClearedAreGone(calls, active, n) && ClearsLast(more) && ClearedAreGone(more, after, n + 1)
    requires forall c :: c in more && c.NotifyUpdate? ==> exists key :: key in active && active[key].id == c.signal.id
    requires forall id :: IsGone(id, active, n) ==> IsGone(id, after, n + 1)
    ensures ClearsLast(calls + more) && ClearedAreGone(calls + more, after, n + 1)
  {
    var all := calls + more;
    forall i, j | 0 <= i < j < |all| && all[i].ClearUpdates? && all[j].NotifyUpdate? ensures all[i].id != all[j].signal.id {
      if i < |calls| <= j {
        assert IsGone(calls[i].id, active, n) && all[j] in more;
      }
    }
    forall i | 0 <= i < |all| && all[i].ClearUpdates? ensures IsGone(all[i].id, after, n + 1) {
      if i < |calls| {
        assert IsGone(calls[i].id, active, n);
      }
    }
  }

  /** Over any log no update is announced after the thresholds of its signal were cleared. */
  lemma {:induction false} ReplayClearsLast(log: seq<SpreadEvent>, chats: nat -> seq<int>, closeAt: real)
    ensures var (active, calls) := Replay(log, chats, closeAt); ClearsLast(calls) && ClearedAreGone(calls, active, |log|)
  {
    hide Handle;
    hide Accounted;
    hide IsGone;
    if log != [] {
      var front, e := log[..|log| - 1], log[|log| - 1];
      ReplayClearsLast(front, chats, closeAt);
      ReplayAccounts(front, chats, closeAt);
      var (active, calls) := Replay(front, chats, closeAt);
      var (active', more) := Handle(active, e, |log|, chats(|log|), closeAt);
      HandleClears(active, Newest(calls), |front|, e, chats(|log|), closeAt);
      forall id | IsGone(id, active, |front|) ensures IsGone(id, active', |log|) {
        HandleKeepsGone(active, |front|, e, chats(|log|), closeAt, id);
      }
      ClearsAppend(calls, more, active, active', |front|);
    }
  }
}

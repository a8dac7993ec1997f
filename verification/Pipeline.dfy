/**
 The aggregator and the tracker together: replaying the events of any ordered run reproduces the
 aggregator's active routes, and after the shutdown flush nothing is left open.
 */
module Pipeline {
  import opened Domain
  import opened Routes
  import opened Aggregator
  import opened Shards
  import opened Sharding
  import opened Runs
  import opened Tracking

  /**
   A log in which each route's events appear in commit order.  Events of different routes may
   overtake each other between the lock and the channel.
   */
  ghost predicate Carries(log: seq<SpreadEvent>, r: Run) {
    forall key :: Proj(log, key) == Proj(Flatten(r.outs), key)
  }

  lemma {:induction false} OwnProjection(log: seq<SpreadEvent>, e: SpreadEvent)
    requires e in log
    ensures e in Proj(log, RouteKey(e))
  {
    hide RouteKey;
    var front, last := log[..|log| - 1], log[|log| - 1];
    assert log == front + [last];
    if e in front {
      OwnProjection(front, e);
    }
  }

  /** Every event of the log carries a tag and passes the tracker's guards. */
  lemma LogIsSound(h: Hash, r: Run, log: seq<SpreadEvent>)
    requires IsRun(h, r) && Carries(log, r)
    ensures forall e :: e in log ==> Accepted(e) && e.lifecycle != Untagged
  {
    hide RouteKey;
    hide IsRun;
    hide Accepted;
    hide LegalAt;
    forall e | e in log ensures Accepted(e) && e.lifecycle != Untagged {
      var key := RouteKey(e);
      OwnProjection(log, e);
      SoundProjection(h, r, key, e);
    }
  }

  lemma SoundProjection(h: Hash, r: Run, key: string, e: SpreadEvent)
    requires IsRun(h, r) && e in Proj(Flatten(r.outs), key)
    ensures Accepted(e) && e.lifecycle != Untagged
  {
    hide RouteKey;
    var inputs := Inputs(h, r, key, r.Len());
    assert r.outs[..r.Len()] == r.outs;
    RunIsRoutes(h, r, key, r.Len());
    InputsAreGood(h, r, key);
    OutputsAccepted(inputs);
    RouteGrammar(inputs);
    var evs := Proj(Flatten(r.outs), key);
    var i :| 0 <= i < |evs| && evs[i] == e;
    assert LegalAt(evs, i);
  }

  /**
   The mirror: for any ordered run, any log that carries it, leaves the tracker with exactly
   the routes that are active in some shard, each with the aggregator's peak and opening time.
   */
  lemma TrackerMirrorsAggregator(h: Hash, r: Run, log: seq<SpreadEvent>, chats: nat -> seq<int>, closeAt: real)
    requires IsRun(h, r) && OrderedRun(h, r) && Carries(log, r)
    ensures var active := Replay(log, chats, closeAt).0;
      && (forall key :: key in active <==> exists i :: 0 <= i < |r.Last()| && key in r.Last()[i].active)
      && (forall key, i :: 0 <= i < |r.Last()| && key in r.Last()[i].active && key in active ==>
            && active[key].peakSpread == r.Last()[i].active[key].peak
            && active[key].openedAt == r.Last()[i].active[key].openedAt)
  {
    hide RouteKey;
    var active := Replay(log, chats, closeAt).0;
    LogIsSound(h, r, log);
    RunIsHoused(h, r, r.Len());
    forall key
      ensures Mirrors(View(active, key), Memory(h, r.Last(), key))
      ensures key in active <==> exists i :: 0 <= i < |r.Last()| && key in r.Last()[i].active
    {
      MirrorOneRoute(h, r, log, chats, closeAt, key);
      ActiveIsMemory(h, r, r.Len(), key);
    }
    forall key, i | 0 <= i < |r.Last()| && key in r.Last()[i].active && key in active
      ensures active[key].peakSpread == r.Last()[i].active[key].peak
      ensures active[key].openedAt == r.Last()[i].active[key].openedAt
    {
      assert HousedAt(h, |r.Last()|, r.Last()[i], i);
      assert Mirrors(View(active, key), Memory(h, r.Last(), key));
    }
  }

  lemma MirrorOneRoute(h: Hash, r: Run, log: seq<SpreadEvent>, chats: nat -> seq<int>, closeAt: real, key: string)
    requires IsRun(h, r) && OrderedRun(h, r) && Carries(log, r) && Tagged(log)
    ensures |r.Last()| == r.Shards()
    ensures Mirrors(View(Replay(log, chats, closeAt).0, key), Memory(h, r.Last(), key))
  {
    hide RouteKey;
    hide RouteStep;
    hide TrackStep;
    hide Handle;
    var inputs := Inputs(h, r, key, r.Len());
    ReplayIsTrack(log, chats, closeAt, key);
    assert r.outs[..r.Len()] == r.outs;
    RunIsRoutes(h, r, key, r.Len());
    InputsAreGood(h, r, key);
    OrderedMirror(inputs);
  }

  // ---- Shutdown ----

  /** The last commits of the run are the flush of every shard, at one moment. */
  ghost predicate EndsWithFlush(r: Run, now: Time)
    requires r.states != []
  {
    && r.Len() >= r.Shards()
    && forall i :: 0 <= i < r.Shards() ==> r.commits[r.Len() - r.Shards() + i] == Commit(i, FlushOp(now))
  }

  /** A flushed route has no memory. */
  lemma FlushForgets(h: Hash, r: Run, m: nat, now: Time, key: string)
    requires IsRun(h, r) && m < r.Len() && r.commits[m] == Commit(KeyHome(h, r.Shards(), key), FlushOp(now))
    ensures |r.states[m + 1]| == r.Shards() && Memory(h, r.states[m + 1], key).None?
  {
    hide RouteKey;
    MemoryStep(h, r, key, m);
  }

  lemma FlushElsewhere(h: Hash, r: Run, m: nat, i: nat, now: Time, key: string)
    requires IsRun(h, r) && m < r.Len() && r.commits[m] == Commit(i, FlushOp(now))
    requires |r.states[m]| == r.Shards() && Memory(h, r.states[m], key).None?
    ensures |r.states[m + 1]| == r.Shards() && Memory(h, r.states[m + 1], key).None?
  {
    hide RouteKey;
    MemoryStep(h, r, key, m);
  }

  lemma {:induction false} FlushedAfter(h: Hash, r: Run, now: Time, key: string, n: nat)
    requires IsRun(h, r) && EndsWithFlush(r, now) && KeyHome(h, r.Shards(), key) < n <= r.Shards()
    ensures var m := r.Len() - r.Shards() + n; |r.states[m]| == r.Shards() && Memory(h, r.states[m], key).None?
  {
    hide RouteKey;
    hide StepAt;
    var m := r.Len() - r.Shards() + n - 1;
    assert r.commits[r.Len() - r.Shards() + (n - 1)] == Commit(n - 1, FlushOp(now));
    if KeyHome(h, r.Shards(), key) == n - 1 {
      FlushForgets(h, r, m, now, key);
    } else {
      FlushedAfter(h, r, now, key, n - 1);
      FlushElsewhere(h, r, m, n - 1, now, key);
    }
  }

  /**
   After the shutdown flush no route is active, no signal is tracked, and the newest snapshot
   of every signal ever persisted is closed, with a duration that is its closing time less its
   opening time and not negative.
   */
  lemma NothingLeftOpen(h: Hash, r: Run, now: Time, log: seq<SpreadEvent>, chats: nat -> seq<int>, closeAt: real)
    requires IsRun(h, r) && OrderedRun(h, r) && EndsWithFlush(r, now) && Carries(log, r)
    ensures forall i :: 0 <= i < |r.Last()| ==> r.Last()[i].active == map[]
    ensures Replay(log, chats, closeAt).0 == map[]
    ensures var newest := Newest(Replay(log, chats, closeAt).1);
      forall id :: id in newest ==> !newest[id].isActive && newest[id].duration == newest[id].closedAt - newest[id].openedAt >= 0
  {
    hide RouteKey;
    hide StepAt;
    TrackerMirrorsAggregator(h, r, log, chats, closeAt);
    forall i, key | 0 <= i < |r.Last()| ensures key !in r.Last()[i].active {
      FlushedAfter(h, r, now, key, r.Shards());
      ActiveIsMemory(h, r, r.Len(), key);
    }
    ReplayAccounts(log, chats, closeAt);
    var active := Replay(log, chats, closeAt).0;
    assert forall key :: key !in active;
  }
}

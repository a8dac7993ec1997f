/**
 The life of the application is not empty: any run of the aggregator can be served, its events sent and
 handled, and the application then shut down without giving up.
 */
module ShutdownServes {
  import opened Wrappers
  import opened Domain
  import opened Routes
  import opened Aggregator
  import opened Shards
  import opened Sharding
  import opened Runs
  import opened Tracking
  import opened Persistence
  import opened Shutdown
  import P = PersistenceProtocol

  /** Nothing is held, everything sent is handled, and the persistence worker is between batches. */
  predicate Settled(st: State) {
    EmptyFrom(st.hands, 0) && st.handled == |st.sent| && st.buffer.phase.Idle? && st.prompt && st.complete
  }

  /** The first m commits of a run. */
  ghost function Part(r: Run, m: nat): Run
    requires m <= r.Len() && |r.states| == r.Len() + 1 && |r.outs| == r.Len()
  {
    Run(r.states[..m + 1], r.commits[..m], r.outs[..m])
  }

  // ---- Sending and handling ----

  lemma {:induction false} SendAll(world: World, steps: seq<Step>, st: State, w: nat) returns (steps': seq<Step>, st': State)
    requires Execute(world, steps) == Some(st) && w < |st.hands| && (w == CLEANUP ==> st.stage.Flushed?)
    ensures Execute(world, steps') == Some(st')
    ensures st' == st.(sent := st.sent + st.hands[w], hands := st.hands[w := []])
    decreases |st.hands[w]|
  {
    hide Execute;
    if st.hands[w] == [] {
      steps', st' := steps, st;
      assert st.hands[w := []] == st.hands && st.sent + [] == st.sent;
    } else {
      var next := SendOne(world, st, w);
      OneMore(world, steps, st, Send(w), next);
      steps', st' := SendAll(world, steps + [Send(w)], next, w);
      assert next.sent + next.hands[w] == st.sent + st.hands[w];
      assert next.hands[w := []] == st.hands[w := []];
    }
  }

  lemma SendOne(world: World, st: State, w: nat) returns (next: State)
    requires w < |st.hands| && st.hands[w] != [] && (w == CLEANUP ==> st.stage.Flushed?)
    ensures Next(world, st, Send(w)) == Some(next)
    ensures next == st.(sent := st.sent + [st.hands[w][0]], hands := st.hands[w := st.hands[w][1..]])
  {
    hide CommitNext;
    hide HandleNext;
    hide WorkerNext;
    next := Next(world, st, Send(w)).value;
  }

  lemma {:induction false} HandleAll(world: World, steps: seq<Step>, st: State) returns (steps': seq<Step>, st': State)
    requires Execute(world, steps) == Some(st) && st.handled <= |st.sent| && st.buffer.phase.Idle?
    ensures Execute(world, steps') == Some(st')
    ensures st' == st.(handled := |st.sent|, buffer := st'.buffer, bufferSteps := st'.bufferSteps) && st'.buffer.phase.Idle?
    decreases |st.sent| - st.handled
  {
    hide Execute;
    if st.handled == |st.sent| {
      steps', st' := steps, st;
    } else {
      var next := HandleOne(world, st);
      OneMore(world, steps, st, HandleEvent, next);
      steps', st' := HandleAll(world, steps + [HandleEvent], next);
    }
  }

  lemma HandleOne(world: World, st: State) returns (next: State)
    requires st.handled < |st.sent| && st.buffer.phase.Idle?
    ensures Next(world, st, HandleEvent) == Some(next)
    ensures next == st.(handled := st.handled + 1, buffer := next.buffer, bufferSteps := next.bufferSteps) && next.buffer.phase.Idle?
  {
    hide CommitNext;
    hide WorkerNext;
    hide Handle;
    hide Replay;
    next := Next(world, st, HandleEvent).value;
  }

  // ---- Serving a run ----

  /** Its ticks and janitor passes; the flushes belong to the shutdown. */
  predicate ServingOnly(r: Run) { forall m :: 0 <= m < r.Len() ==> !r.commits[m].op.FlushOp? }

  function HandFor(op: Op): nat { if op.TickOp? then JANITOR + 1 else JANITOR }

  lemma ServeCommit(world: World, steps: seq<Step>, st: State, c: Commit, after: seq<ShardState>, out: seq<SpreadEvent>)
      returns (steps': seq<Step>, st': State)
    requires Execute(world, steps) == Some(st) && st.run.states != [] && st.stage.Serving? && Settled(st) && |st.hands| >= 3
    requires world.shards > 0 && c.shard < world.shards && !c.op.FlushOp?
    requires Proper(world.hash, world.shards, c.shard, c.op) && OneShardCommits(st.run.Last(), c.shard, c.op, after, out)
    ensures Execute(world, steps') == Some(st')
    ensures st'.run == Shutdown.Extended(st.run, c, after, out) && st'.stage.Serving? && Settled(st') && |st'.hands| == |st.hands|
    ensures st'.sent == st.sent + out
  {
    hide Execute;
    hide Proper;
    hide OneShardCommits;
    var w := HandFor(c.op);
    var committed := CommitOne(world, st, w, c, after, out);
    OneMore(world, steps, st, CommitStep(w, c, after, out), committed);
    var sent;
    steps', sent := SendAll(world, steps + [CommitStep(w, c, after, out)], committed, w);
    assert sent.hands == st.hands by { assert st.hands[w] == []; }
    steps', st' := HandleAll(world, steps', sent);
  }

  lemma CommitOne(world: World, st: State, w: nat, c: Commit, after: seq<ShardState>, out: seq<SpreadEvent>) returns (next: State)
    requires st.run.states != [] && w < |st.hands| && world.shards > 0 && c.shard < world.shards
    requires MayCommit(st, w, c) && EmptyFrom(st.hands, 0)
    requires Proper(world.hash, world.shards, c.shard, c.op) && OneShardCommits(st.run.Last(), c.shard, c.op, after, out)
    ensures Next(world, st, CommitStep(w, c, after, out)) == Some(next)
    ensures next == st.(run := Shutdown.Extended(st.run, c, after, out), hands := st.hands[w := out],
                        stage := if c.op.FlushOp? then Flushing(c.shard + 1) else st.stage)
  {
    hide Proper;
    hide OneShardCommits;
    hide HandleNext;
    hide WorkerNext;
    assert st.hands[w] == [] && [] + out == out;
    assert PromptAt(st.hands, w, out);
    next := Next(world, st, CommitStep(w, c, after, out)).value;
  }

  /** Any run of ticks and janitor passes can be served commit by commit. */
  lemma {:induction false} ServeRun(world: World, r: Run, m: nat) returns (steps: seq<Step>, st: State)
    requires IsRun(world.hash, r) && r.Shards() == world.shards && world.senders >= 3 && ServingOnly(r) && m <= r.Len()
    ensures Execute(world, steps) == Some(st) && st.run == Part(r, m) && st.stage.Serving? && Settled(st)
    ensures |st.hands| == world.senders && st.sent == Flatten(r.outs[..m])
  {
    hide Proper;
    hide OneShardCommits;
    if m == 0 {
      steps, st := [], Init(world);
      assert r.states[0] == seq(world.shards, _ => ShardState(map[], map[]));
      assert r.states[..1] == [r.states[0]];
    } else {
      hide Next;
      hide Settled;
      hide Part;
      hide IsRun;
      RunHasShards(world.hash, r);
      steps, st := ServeRun(world, r, m - 1);
      PartGrows(world.hash, r, m - 1);
      var c, after, out := r.commits[m - 1], r.states[m], r.outs[m - 1];
      steps, st := ServeCommit(world, steps, st, c, after, out);
    }
  }

  lemma PartGrows(h: Hash, r: Run, m: nat)
    requires IsRun(h, r) && m < r.Len()
    ensures var c, after, out := r.commits[m], r.states[m + 1], r.outs[m];
      && Part(r, m).states != [] && c.shard < r.Shards() && Proper(h, r.Shards(), c.shard, c.op)
      && OneShardCommits(Part(r, m).Last(), c.shard, c.op, after, out)
      && Shutdown.Extended(Part(r, m), c, after, out) == Part(r, m + 1)
      && Flatten(r.outs[..m + 1]) == Flatten(r.outs[..m]) + out
  {
    hide Proper;
    hide OneShardCommits;
    assert StepAt(h, r, m);
    var c, after, out := r.commits[m], r.states[m + 1], r.outs[m];
    assert Part(r, m).Last() == r.states[m];
    ShardExists(r.states[m], c.shard, c.op, after, out);
    assert r.states[..m + 1] + [after] == r.states[..m + 2] && r.commits[..m] + [c] == r.commits[..m + 1]
      && r.outs[..m] + [out] == r.outs[..m + 1];
    FlattenSnoc(r.outs[..m], out);
  }

  lemma ShardExists(S: seq<ShardState>, i: nat, op: Op, S': seq<ShardState>, out: seq<SpreadEvent>)
    requires OneShardCommits(S, i, op, S', out)
    ensures i < |S| == |S'|
  {
    hide Commits;
  }

  // ---- The flush ----

  /** A flush of a shard can be carried out: it closes all its routes. */
  lemma FlushExists(s: ShardState, now: Time) returns (s': ShardState, out: seq<SpreadEvent>)
    requires Keyed(s)
    ensures Commits(s, FlushOp(now), s', out)
  {
    hide RouteKey;
    hide ClosedOff;
    hide ClosingAt;
    var after;
    forall key ensures ClosingAt(s.active, now, true, s.active, [], s.active.Keys, key) {
      CloseFirst(s.active, now, true, key);
    }
    assert AllClosing(s.active, now, true, s.active, [], s.active.Keys);
    after, out := FlushFrom(s.active, now, s.active, [], s.active.Keys);
    forall key ensures ClosedOff(s.active, now, true, after, out, key) {
      CloseLast(s.active, now, true, after, out, key);
    }
    s' := s.(active := after);
    PassCommits(s, FlushOp(now), now, true, s', out);
  }

  lemma {:induction false} FlushFrom(before: map<string, RouteState>, now: Time, after: map<string, RouteState>,
                                     out: seq<SpreadEvent>, todo: set<string>)
      returns (after': map<string, RouteState>, out': seq<SpreadEvent>)
    requires AllClosing(before, now, true, after, out, todo) && todo <= after.Keys
    requires forall key :: key in after ==> RouteKey(after[key].last) == key
    ensures AllClosing(before, now, true, after', out', {})
    decreases |todo|
  {
    hide RouteKey;
    hide AllClosing;
    if todo == {} {
      after', out' := after, out;
    } else {
      var k :| k in todo;
      CloseOne(before, now, true, after, out, todo, k);
      after', out' := FlushFrom(before, now, after - {k}, out + [ClosingEvent(after[k], now)], todo - {k});
    }
  }

  lemma {:induction false} FlushShards(world: World, steps: seq<Step>, st: State, n: nat) returns (steps': seq<Step>, st': State)
    requires world.shards > 0 && world.senders >= 2 && Execute(world, steps) == Some(st) && n <= world.shards
    requires st.stage == Flushing(n) && EmptyFrom(st.hands, 1) && st.prompt && st.complete && st.buffer.phase.Idle? && st.handled == |st.sent|
    ensures Execute(world, steps') == Some(st')
    ensures st' == st.(run := st'.run, hands := st'.hands, stage := Flushing(world.shards)) && |st'.hands| == |st.hands| && EmptyFrom(st'.hands, 1)
    ensures Begins(st.run, st'.run)
    decreases world.shards - n
  {
    hide Execute;
    hide Next;
    if n == world.shards {
      steps', st' := steps, st;
    } else {
      ReachedStates(world, steps);
      var S := st.run.Last();
      LastIsHoused(world, st);
      var s', out := FlushExists(S[n], st.now);
      var after := S[n := s'];
      assert OneShardCommits(S, n, FlushOp(st.now), after, out) by { hide Commits; }
      var next := FlushOne(world, st, n, after, out);
      OneMore(world, steps, st, CommitStep(CLEANUP, Commit(n, FlushOp(st.now)), after, out), next);
      steps', st' := FlushShards(world, steps + [CommitStep(CLEANUP, Commit(n, FlushOp(st.now)), after, out)], next, n + 1);
    }
  }

  ghost predicate Begins(r: Run, r': Run) { r.states <= r'.states && r.commits <= r'.commits && r.outs <= r'.outs }

  lemma LastIsHoused(world: World, st: State)
    requires Shutdown.Inv(world, st)
    ensures st.run.states != [] && |st.run.Last()| == world.shards && forall i :: 0 <= i < world.shards ==> Keyed(st.run.Last()[i])
    ensures |st.hands| == world.senders && (st.stage.Flushing? ==> st.now != 0)
  {
    LastHasShards(world.hash, st.run);
    RunIsHoused(world.hash, st.run, st.run.Len());
    hide IsRun;
    hide Carrying;
    hide PutsOk;
    forall i | 0 <= i < world.shards ensures Keyed(st.run.Last()[i]) {
      assert HousedAt(world.hash, world.shards, st.run.Last()[i], i);
    }
  }

  lemma FlushOne(world: World, st: State, n: nat, after: seq<ShardState>, out: seq<SpreadEvent>) returns (next: State)
    requires st.run.states != [] && |st.hands| >= 2 && n < world.shards && st.stage == Flushing(n) && st.now != 0 && EmptyFrom(st.hands, 1)
    requires st.prompt && OneShardCommits(st.run.Last(), n, FlushOp(st.now), after, out)
    ensures Next(world, st, CommitStep(CLEANUP, Commit(n, FlushOp(st.now)), after, out)) == Some(next)
    ensures next == st.(run := next.run, hands := next.hands, stage := Flushing(n + 1))
    ensures |next.hands| == |st.hands| && EmptyFrom(next.hands, 1) && Begins(st.run, next.run)
  {
    hide OneShardCommits;
    hide HandleNext;
    hide WorkerNext;
    assert PromptAt(st.hands, CLEANUP, out);
    next := Next(world, st, CommitStep(CLEANUP, Commit(n, FlushOp(st.now)), after, out)).value;
  }

  // ---- The end ----

  /** With all saves succeeding the final flush runs to its end. */
  lemma {:induction false} Drain(world: World, steps: seq<Step>, st: State) returns (steps': seq<Step>, st': State)
    requires world.shards > 0 && world.senders >= 2 && Execute(world, steps) == Some(st) && (st.stage.FinalFlush? || st.stage.Finished?)
    ensures Execute(world, steps') == Some(st') && st'.stage.Finished? && st'.run == st.run && st'.prompt == st.prompt && st'.complete == st.complete
    decreases Bound(world, st)
  {
    hide Execute;
    hide Next;
    hide FinalBound;
    hide Inv;
    if st.stage.Finished? {
      steps', st' := steps, st;
    } else {
      ReachedStates(world, steps);
      var step := FinalFlushGoesOn(world, steps);
      FinalStep(world, st, step);
      var next := Next(world, st, step).value;
      StepKeeps(world, st, step);
      BoundIsNat(world, st);
      BoundIsNat(world, next);
      WorkerFrame(world, st, step);
      OneMore(world, steps, st, step, next);
      steps', st' := Drain(world, steps + [step], next);
    }
  }

  ghost function Bound(world: World, st: State): nat { if FinalBound(st) >= 0 then FinalBound(st) else 0 }

  lemma WorkerFrame(world: World, st: State, step: Step)
    requires Next(world, st, step).Some? && (step.Finish? || (step.Worker? && P.Drains(step.step)))
    ensures var st' := Next(world, st, step).value; st'.run == st.run && st'.prompt == st.prompt && st'.complete == st.complete
  {
    hide CommitNext;
    hide HandleNext;
    hide P.Next;
    hide P.Enabled;
  }

  lemma StopServing(world: World, st: State, now: Time) returns (a: State, b: State, c: State)
    requires st.stage.Serving? && |st.hands| >= 2 && EmptyFrom(st.hands, 0) && now != 0
    ensures Next(world, st, StopJanitor) == Some(a) && Next(world, a, StopIngestion) == Some(b) && Next(world, b, BeginFlush(now)) == Some(c)
    ensures c == st.(stage := Flushing(0), now := now)
  {
    hide CommitNext;
    hide HandleNext;
    hide WorkerNext;
    a, b := st.(stage := JanitorGone), st.(stage := IngestionGone);
    c := b.(stage := Flushing(0), now := now);
  }

  lemma EndServing(world: World, st: State) returns (a: State, b: State, c: State, d: State)
    requires st.stage.Flushed? && |st.hands| > 0 && st.hands[CLEANUP] == [] && st.handled == |st.sent| && st.buffer.phase.Idle?
    ensures Next(world, st, CloseChannel) == Some(a) && Next(world, a, StopTracker) == Some(b) && Next(world, b, CloseBuffer) == Some(c)
    ensures Next(world, c, BeginFinal) == Some(d) && d.stage.FinalFlush? && d.run == st.run && d.prompt == st.prompt && d.complete == st.complete
  {
    hide CommitNext;
    hide HandleNext;
    hide WorkerNext;
    a, b := st.(stage := ChannelClosed), st.(stage := TrackerGone);
    c := Next(world, b, CloseBuffer).value;
    d := c.(stage := FinalFlush);
  }

  lemma Flush(world: World, steps: seq<Step>, st: State, now: Time) returns (steps': seq<Step>, st': State)
    requires world.shards > 0 && world.senders >= 2 && now != 0
    requires Execute(world, steps) == Some(st) && st.stage.Serving? && Settled(st)
    ensures Execute(world, steps') == Some(st') && st'.stage.Flushed? && |st'.hands| > 0 && st'.hands[CLEANUP] == []
    ensures st'.handled == |st'.sent| && st'.buffer.phase.Idle? && st'.prompt && st'.complete && Begins(st.run, st'.run)
  {
    hide Execute;
    hide Next;
    ReachedStates(world, steps);
    LastIsHoused(world, st);
    hide Inv;
    var a, b, c := StopServing(world, st, now);
    OneMore(world, steps, st, StopJanitor, a);
    OneMore(world, steps + [StopJanitor], a, StopIngestion, b);
    OneMore(world, steps + [StopJanitor] + [StopIngestion], b, BeginFlush(now), c);
    var d;
    steps', d := FlushShards(world, steps + [StopJanitor] + [StopIngestion] + [BeginFlush(now)], c, 0);
    var e := d.(stage := Flushed);
    assert Next(world, d, EndFlush) == Some(e) by { FlushEnds(world, d, e); }
    OneMore(world, steps', d, EndFlush, e);
    var f;
    steps', f := SendAll(world, steps' + [EndFlush], e, CLEANUP);
    steps', st' := HandleAll(world, steps', f);
  }

  lemma FlushEnds(world: World, d: State, e: State)
    requires d.stage == Flushing(world.shards) && e == d.(stage := Flushed)
    ensures Next(world, d, EndFlush) == Some(e)
  {
    hide CommitNext;
    hide HandleNext;
    hide WorkerNext;
  }

  /**
   Whatever run of ticks and janitor passes: the application can serve it, send and handle all its events, and then
   shut down, so that the shutdown finishes without giving up and with every event sent promptly.
   */
  lemma EveryRunCanEndWell(world: World, r: Run, now: Time) returns (steps: seq<Step>)
    requires IsRun(world.hash, r) && r.Shards() == world.shards && world.senders >= 3 && ServingOnly(r) && now != 0
    ensures Execute(world, steps).Some?
    ensures var st := Execute(world, steps).value; st.stage.Finished? && st.complete && st.prompt && Begins(r, st.run)
  {
    hide Execute;
    hide Next;
    hide IsRun;
    var st;
    assert world.shards > 0 by { RunHasShards(world.hash, r); }
    steps, st := ServeRun(world, r, r.Len());
    assert Part(r, r.Len()) == r by { WholeRun(world.hash, r); }
    var flushed;
    steps, flushed := Flush(world, steps, st, now);
    var a, b, c, d := EndServing(world, flushed);
    OneMore(world, steps, flushed, CloseChannel, a);
    steps := steps + [CloseChannel];
    OneMore(world, steps, a, StopTracker, b);
    steps := steps + [StopTracker];
    OneMore(world, steps, b, CloseBuffer, c);
    steps := steps + [CloseBuffer];
    OneMore(world, steps, c, BeginFinal, d);
    steps := steps + [BeginFinal];
    var last;
    steps, last := Drain(world, steps, d);
  }

  lemma RunHasShards(h: Hash, r: Run)
    requires IsRun(h, r)
    ensures r.states != [] && r.Shards() > 0 && |r.states| == r.Len() + 1 && |r.outs| == r.Len()
  {
  }

  lemma WholeRun(h: Hash, r: Run)
    requires IsRun(h, r)
    ensures |r.states| == r.Len() + 1 && |r.outs| == r.Len() && Part(r, r.Len()) == r
  {
    assert r.states[..r.Len() + 1] == r.states && r.commits[..r.Len()] == r.commits && r.outs[..r.Len()] == r.outs;
  }
}

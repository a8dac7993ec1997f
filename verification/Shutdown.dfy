/**
 The threads of the application from the first tick to the end of a controlled shutdown: ingestion
 workers and the janitor commit and send, the tracker handles and persists, the persistence worker
 saves, and the cleanup stops them one after the other.
 */
module Shutdown {
  import opened Wrappers
  import opened Domain
  import opened Aggregator
  import opened Shards
  import opened Sharding
  import opened Runs
  import opened Tracking
  import opened Persistence
  import opened Pipeline
  import P = PersistenceProtocol

  /** Where the cleanup stands. */
  datatype Stage =
    | Serving
    | JanitorGone
    | IngestionGone
    | Flushing(shard: nat)
    | Flushed
    | ChannelClosed
    | TrackerGone
    | BufferClosed
    | FinalFlush
    | Finished

  /** The hash, the number of shards and of senders, and what the tracker's collaborators answer. */
  datatype World = World(hash: Hash, shards: nat, senders: nat, chats: nat -> seq<int>, closeAt: real)

  /**
   `hands[w]` are the events sender w has committed and not yet sent: sender 0 is the cleanup,
   sender 1 the janitor, the others are ingestion workers.  `sent` is the channel's history, of
   which the tracker has handled the first `handled`.  `prompt` says that no route was committed
   while another sender still held an event of it, `complete` that neither the flush nor the final
   save gave up.
   */
  datatype State = State(run: Run, hands: seq<seq<SpreadEvent>>, sent: seq<SpreadEvent>, handled: nat,
                         buffer: P.State, bufferSteps: seq<P.Step>, stage: Stage, now: Time, prompt: bool, complete: bool)

  datatype Step =
    | CommitStep(hand: nat, commit: Commit, after: seq<ShardState>, out: seq<SpreadEvent>)
    | Send(hand: nat)
    | HandleEvent
    | Worker(step: P.Step)
    | StopJanitor
    | StopIngestion
    | BeginFlush(now: Time)
    | EndFlush
    | GiveUp
    | CloseChannel
    | StopTracker
    | CloseBuffer
    | BeginFinal
    | Finish

  const CLEANUP: nat := 0
  const JANITOR: nat := 1
  const LIMIT: int := 500

  ghost function Init(world: World): State {
    State(Run([seq(world.shards, _ => ShardState(map[], map[]))], [], []), seq(world.senders, _ => []), [], 0,
          P.START, [], Serving, 0, true, true)
  }

  /** Who may commit what, and when. */
  predicate MayCommit(st: State, hand: nat, c: Commit)
    requires hand < |st.hands|
  {
    match c.op
    case TickOp(_, _) => hand > JANITOR && (st.stage.Serving? || st.stage.JanitorGone?) && st.hands[hand] == []
    case JanitorOp(_, _) => hand == JANITOR && st.stage.Serving?
    case FlushOp(now) => hand == CLEANUP && st.stage == Flushing(c.shard) && now == st.now
  }

  /** No other sender holds an event of a route that is now committed. */
  predicate PromptAt(hands: seq<seq<SpreadEvent>>, hand: nat, out: seq<SpreadEvent>) {
    forall w, e, e2 :: 0 <= w < |hands| && w != hand && e in hands[w] && e2 in out ==> RouteKey(e) != RouteKey(e2)
  }

  function Extended(r: Run, c: Commit, after: seq<ShardState>, out: seq<SpreadEvent>): Run {
    Run(r.states + [after], r.commits + [c], r.outs + [out])
  }

  ghost function CommitNext(world: World, st: State, hand: nat, c: Commit, after: seq<ShardState>, out: seq<SpreadEvent>): Option<State> {
    if st.run.states == [] || hand >= |st.hands| || c.shard >= world.shards || world.shards == 0 then None
    else if !MayCommit(st, hand, c) || !Proper(world.hash, world.shards, c.shard, c.op)
      || !OneShardCommits(st.run.Last(), c.shard, c.op, after, out) then None
    else
      Some(st.(run := Extended(st.run, c, after, out), hands := st.hands[hand := st.hands[hand] + out],
               prompt := st.prompt && PromptAt(st.hands, hand, out),
               stage := if c.op.FlushOp? then Flushing(c.shard + 1) else st.stage))
  }

  function BufferAfter(buffer: P.State, steps: seq<P.Step>, calls: seq<Call>): (P.State, seq<P.Step>) {
    if calls != [] && calls[0].Persist? then
      (P.Next(buffer, P.PutStep(calls[0].signal)), steps + [P.PutStep(calls[0].signal)])
    else (buffer, steps)
  }

  /** The tracker handles one event and persists what it must. */
  function HandleNext(world: World, st: State): Option<State> {
    if st.handled >= |st.sent| then None
    else
      var active := Replay(st.sent[..st.handled], world.chats, world.closeAt).0;
      var calls := Handle(active, st.sent[st.handled], st.handled + 1, world.chats(st.handled + 1), world.closeAt).1;
      var (buffer, steps) := BufferAfter(st.buffer, st.bufferSteps, calls);
      Some(st.(handled := st.handled + 1, buffer := buffer, bufferSteps := steps))
  }

  predicate OfWorker(step: P.Step) {
    (step.TakeStep? && step.limit == LIMIT) || step.SavedStep? || step.FailedStep? || step.AckStep?
  }

  /** A failed save ends the final flush, and the worker with it. */
  function WorkerNext(st: State, step: P.Step): Option<State> {
    if st.stage.Finished? || !OfWorker(step) || !P.Enabled(st.buffer, step) then None
    else
      var st' := st.(buffer := P.Next(st.buffer, step), bufferSteps := st.bufferSteps + [step]);
      Some(if st.stage.FinalFlush? && step.FailedStep? then st'.(stage := Finished, complete := false) else st')
  }

  predicate EmptyFrom(hands: seq<seq<SpreadEvent>>, w: nat) { forall v :: w <= v < |hands| ==> hands[v] == [] }

  ghost function Next(world: World, st: State, step: Step): Option<State> {
    match step
    case CommitStep(hand, c, after, out) => CommitNext(world, st, hand, c, after, out)
    case Send(w) =>
      if w >= |st.hands| || st.hands[w] == [] || (w == CLEANUP && !st.stage.Flushed?) then None
      else Some(st.(sent := st.sent + [st.hands[w][0]], hands := st.hands[w := st.hands[w][1..]]))
    case HandleEvent => HandleNext(world, st)
    case Worker(s) => WorkerNext(st, s)
    case StopJanitor => if st.stage.Serving? && |st.hands| > JANITOR && st.hands[JANITOR] == [] then Some(st.(stage := JanitorGone)) else None
    case StopIngestion => if st.stage.JanitorGone? && EmptyFrom(st.hands, JANITOR + 1) then Some(st.(stage := IngestionGone)) else None
    case BeginFlush(now) => if st.stage.IngestionGone? && now != 0 then Some(st.(stage := Flushing(0), now := now)) else None
    case EndFlush => if st.stage == Flushing(world.shards) then Some(st.(stage := Flushed)) else None
    case GiveUp => if st.stage.Flushed? && |st.hands| > 0 then Some(st.(hands := st.hands[CLEANUP := []], complete := false)) else None
    case CloseChannel => if st.stage.Flushed? && |st.hands| > 0 && st.hands[CLEANUP] == [] then Some(st.(stage := ChannelClosed)) else None
    case StopTracker => if st.stage.ChannelClosed? && st.handled == |st.sent| then Some(st.(stage := TrackerGone)) else None
    case CloseBuffer =>
      if st.stage.TrackerGone? then
        Some(st.(stage := BufferClosed, buffer := P.Next(st.buffer, P.CloseStep), bufferSteps := st.bufferSteps + [P.CloseStep]))
      else None
    case BeginFinal => if st.stage.BufferClosed? && st.buffer.phase.Idle? then Some(st.(stage := FinalFlush)) else None
    case Finish => if st.stage.FinalFlush? && st.buffer.phase.Idle? && IsBatch(st.buffer.items, LIMIT, []) then Some(st.(stage := Finished)) else None
  }

  ghost function Execute(world: World, steps: seq<Step>): Option<State> {
    if steps == [] then Some(Init(world))
    else
      var before := Execute(world, steps[..|steps| - 1]);
      if before.None? then None else Next(world, before.value, steps[|steps| - 1])
  }

  // ---- The run of the aggregator ----

  ghost predicate RunOk(world: World, st: State) {
    && IsRun(world.hash, st.run) && st.run.Shards() == world.shards > 0
    && |st.hands| == world.senders >= 2
  }

  lemma ExtendRun(h: Hash, r: Run, c: Commit, after: seq<ShardState>, out: seq<SpreadEvent>)
    requires IsRun(h, r) && Proper(h, r.Shards(), c.shard, c.op) && OneShardCommits(r.Last(), c.shard, c.op, after, out)
    requires |r.Last()| == r.Shards()
    ensures IsRun(h, Extended(r, c, after, out))
  {
    hide Proper;
    hide OneShardCommits;
    var r' := Extended(r, c, after, out);
    forall m | 0 <= m < r'.Len() ensures StepAt(h, r', m) {
      if m < r.Len() {
        assert StepAt(h, r, m);
        assert r'.states[m] == r.states[m] && r'.states[m + 1] == r.states[m + 1];
        assert r'.commits[m] == r.commits[m] && r'.outs[m] == r.outs[m];
      } else {
        assert r'.states[m] == r.Last() && r'.states[m + 1] == after && r'.commits[m] == c && r'.outs[m] == out;
      }
    }
  }

  lemma RunStep(world: World, st: State, step: Step)
    requires RunOk(world, st) && Next(world, st, step).Some?
    ensures RunOk(world, Next(world, st, step).value)
  {
    hide IsRun;
    hide Proper;
    hide OneShardCommits;
    hide MayCommit;
    hide PromptAt;
    hide HandleNext;
    hide WorkerNext;
    if step.CommitStep? {
      LastHasShards(world.hash, st.run);
      ExtendRun(world.hash, st.run, step.commit, step.after, step.out);
    } else {
      OthersKeepRun(world, st, step);
    }
  }

  lemma LastHasShards(h: Hash, r: Run)
    requires IsRun(h, r)
    ensures r.states != [] && |r.Last()| == r.Shards()
  {
    RunIsHoused(h, r, r.Len());
  }

  lemma OthersKeepRun(world: World, st: State, step: Step)
    requires !step.CommitStep? && Next(world, st, step).Some?
    ensures var st' := Next(world, st, step).value; st'.run == st.run && |st'.hands| == |st.hands| && (st.prompt ==> st'.prompt)
  {
    hide Replay;
    hide Handle;
  }

  // ---- The channel carries the run ----

  /** Of each route at most one sender holds events, and those follow what was sent. */
  ghost predicate KeyOk(log: seq<SpreadEvent>, sent: seq<SpreadEvent>, hands: seq<seq<SpreadEvent>>, key: string) {
    && (forall v, w :: 0 <= v < |hands| && 0 <= w < |hands| && v != w ==> Proj(hands[v], key) == [] || Proj(hands[w], key) == [])
    && (forall w :: 0 <= w < |hands| && Sole(hands, w, key) ==> Proj(log, key) == Proj(sent, key) + Proj(hands[w], key))
  }

  predicate Sole(hands: seq<seq<SpreadEvent>>, w: nat, key: string) {
    forall v :: 0 <= v < |hands| && v != w ==> Proj(hands[v], key) == []
  }

  lemma {:induction false} NoneProjected(evs: seq<SpreadEvent>, key: string)
    requires forall e :: e in evs ==> RouteKey(e) != key
    ensures Proj(evs, key) == []
  {
    hide RouteKey;
    if evs != [] {
      var front, last := evs[..|evs| - 1], evs[|evs| - 1];
      assert forall e :: e in front ==> e in evs;
      NoneProjected(front, key);
      assert last in evs;
    }
  }

  lemma {:induction false} ProjectedIsIn(evs: seq<SpreadEvent>, key: string) returns (e: SpreadEvent)
    requires Proj(evs, key) != []
    ensures e in evs && RouteKey(e) == key
  {
    hide RouteKey;
    var front, last := evs[..|evs| - 1], evs[|evs| - 1];
    if RouteKey(last) == key {
      e := last;
    } else {
      e := ProjectedIsIn(front, key);
      assert evs == front + [last];
    }
  }

  lemma CommitKeyOk(log: seq<SpreadEvent>, sent: seq<SpreadEvent>, hands: seq<seq<SpreadEvent>>, w: nat, out: seq<SpreadEvent>, key: string)
    requires KeyOk(log, sent, hands, key) && w < |hands| && PromptAt(hands, w, out)
    ensures KeyOk(log + out, sent, hands[w := hands[w] + out], key)
  {
    hide RouteKey;
    hide Proj;
    var hands' := hands[w := hands[w] + out];
    ProjConcat(log, out, key);
    ProjConcat(hands[w], out, key);
    if Proj(out, key) == [] {
      assert forall v :: 0 <= v < |hands| ==> Proj(hands'[v], key) == Proj(hands[v], key);
      forall v | 0 <= v < |hands'| && Sole(hands', v, key)
        ensures Proj(log + out, key) == Proj(sent, key) + Proj(hands'[v], key)
      {
        assert Sole(hands, v, key);
      }
    } else {
      var e2 := ProjectedIsIn(out, key);
      forall v | 0 <= v < |hands| && v != w ensures Proj(hands[v], key) == [] {
        NoneProjected(hands[v], key);
      }
      assert Sole(hands, w, key);
      var s, x, o := Proj(sent, key), Proj(hands[w], key), Proj(out, key);
      assert s + x + o == s + (x + o);
      assert Proj(hands'[w], key) != [];
      forall v | 0 <= v < |hands'| && Sole(hands', v, key)
        ensures Proj(log + out, key) == Proj(sent, key) + Proj(hands'[v], key)
      {
        assert v == w;
      }
    }
  }

  lemma SendKeyOk(log: seq<SpreadEvent>, sent: seq<SpreadEvent>, hands: seq<seq<SpreadEvent>>, w: nat, key: string)
    requires KeyOk(log, sent, hands, key) && w < |hands| && hands[w] != []
    ensures KeyOk(log, sent + [hands[w][0]], hands[w := hands[w][1..]], key)
  {
    hide RouteKey;
    hide Proj;
    hide KeyOk;
    var e, rest := hands[w][0], hands[w][1..];
    ProjSnoc(sent, e, key);
    assert hands[w] == [e] + rest;
    ProjConcat([e], rest, key);
    ProjOf(e, key);
    if RouteKey(e) == key {
      SendOwn(log, sent, hands, w, key);
    } else {
      assert [] + Proj(rest, key) == Proj(rest, key) && Proj(sent, key) + [] == Proj(sent, key);
      SameHandsOk(log, sent, hands, sent + [e], hands[w := rest], key);
    }
  }

  /** Of another route nothing is sent. */
  lemma SameHandsOk(log: seq<SpreadEvent>, sent: seq<SpreadEvent>, hands: seq<seq<SpreadEvent>>,
                    sent': seq<SpreadEvent>, hands': seq<seq<SpreadEvent>>, key: string)
    requires KeyOk(log, sent, hands, key) && |hands'| == |hands| && Proj(sent', key) == Proj(sent, key)
    requires forall v :: 0 <= v < |hands| ==> Proj(hands'[v], key) == Proj(hands[v], key)
    ensures KeyOk(log, sent', hands', key)
  {
    hide Proj;
    forall v | 0 <= v < |hands'| && Sole(hands', v, key) ensures Proj(log, key) == Proj(sent', key) + Proj(hands'[v], key) {
      assert Sole(hands, v, key);
    }
  }

  /** The first event of the only sender that holds any moves to the channel. */
  lemma SendOwn(log: seq<SpreadEvent>, sent: seq<SpreadEvent>, hands: seq<seq<SpreadEvent>>, w: nat, key: string)
    requires KeyOk(log, sent, hands, key) && w < |hands| && hands[w] != []
    requires var e, rest := hands[w][0], hands[w][1..];
      Proj(hands[w], key) == [e] + Proj(rest, key) && Proj(sent + [e], key) == Proj(sent, key) + [e]
    ensures KeyOk(log, sent + [hands[w][0]], hands[w := hands[w][1..]], key)
  {
    hide Proj;
    var e, rest := hands[w][0], hands[w][1..];
    var hands' := hands[w := rest];
    assert Sole(hands, w, key);
    var s, x := Proj(sent, key), Proj(rest, key);
    assert s + ([e] + x) == s + [e] + x;
    forall v | 0 <= v < |hands'| && v != w ensures Proj(hands'[v], key) == [] {
      assert Proj(hands[v], key) == [];
    }
    forall v | 0 <= v < |hands'| && Sole(hands', v, key) ensures Proj(log, key) == Proj(sent + [e], key) + Proj(hands'[v], key) {
      assert v != w ==> Proj(hands'[w], key) == [];
    }
  }

  lemma ProjOf(e: SpreadEvent, key: string)
    ensures Proj([e], key) == if RouteKey(e) == key then [e] else []
  {
    hide RouteKey;
    assert [e][..0] == [];
  }

  ghost predicate Carrying(st: State) {
    st.prompt && st.complete ==> forall key :: KeyOk(Flatten(st.run.outs), st.sent, st.hands, key)
  }

  lemma FlattenSnoc(parts: seq<seq<SpreadEvent>>, more: seq<SpreadEvent>)
    ensures Flatten(parts + [more]) == Flatten(parts) + more
  {
    assert (parts + [more])[..|parts|] == parts;
  }

  lemma CarryingStep(world: World, st: State, step: Step)
    requires Carrying(st) && Next(world, st, step).Some?
    ensures Carrying(Next(world, st, step).value)
  {
    hide KeyOk;
    hide Replay;
    hide Handle;
    hide Proper;
    hide OneShardCommits;
    hide MayCommit;
    hide PromptAt;
    var st' := Next(world, st, step).value;
    if st'.prompt && st'.complete {
      if step.CommitStep? {
        FlattenSnoc(st.run.outs, step.out);
        forall key ensures KeyOk(Flatten(st'.run.outs), st'.sent, st'.hands, key) {
          CommitKeyOk(Flatten(st.run.outs), st.sent, st.hands, step.hand, step.out, key);
        }
      } else if step.Send? {
        forall key ensures KeyOk(Flatten(st'.run.outs), st'.sent, st'.hands, key) {
          SendKeyOk(Flatten(st.run.outs), st.sent, st.hands, step.hand, key);
        }
      } else {
        assert st'.run == st.run && st'.sent == st.sent && st'.hands == st.hands;
      }
    }
  }

  // ---- The stages ----

  predicate Before(stage: Stage) { stage.Serving? || stage.JanitorGone? || stage.IngestionGone? }

  predicate AfterFlush(stage: Stage) {
    stage.Flushed? || stage.ChannelClosed? || stage.TrackerGone? || stage.BufferClosed? || stage.FinalFlush? || stage.Finished?
  }

  predicate AfterChannel(stage: Stage) { AfterFlush(stage) && !stage.Flushed? }

  /** Which senders are done at each stage. */
  predicate HandsOk(st: State) {
    && |st.hands| >= 2
    && (Before(st.stage) ==> st.hands[CLEANUP] == [])
    && (!st.stage.Serving? ==> st.hands[JANITOR] == [])
    && (!st.stage.Serving? && !st.stage.JanitorGone? ==> EmptyFrom(st.hands, JANITOR + 1))
    && (AfterChannel(st.stage) ==> st.hands[CLEANUP] == [])
  }

  lemma HandsStep(world: World, st: State, step: Step)
    requires HandsOk(st) && Next(world, st, step).Some?
    ensures HandsOk(Next(world, st, step).value)
  {
    hide Replay;
    hide Handle;
    hide Proper;
    hide OneShardCommits;
    hide PromptAt;
  }

  /** The shards flushed so far are the last commits. */
  predicate FlushOk(world: World, st: State) {
    && (st.stage.Flushing? ==> st.now != 0 && st.stage.shard <= world.shards && FlushedUpTo(st.run.commits, st.stage.shard, st.now))
    && (AfterFlush(st.stage) ==> FlushedUpTo(st.run.commits, world.shards, st.now))
  }

  predicate FlushedUpTo(commits: seq<Commit>, n: nat, now: Time) {
    n <= |commits| && forall i :: 0 <= i < n ==> commits[|commits| - n + i] == Commit(i, FlushOp(now))
  }

  lemma FlushOneMore(commits: seq<Commit>, n: nat, now: Time)
    requires FlushedUpTo(commits, n, now)
    ensures FlushedUpTo(commits + [Commit(n, FlushOp(now))], n + 1, now)
  {
    var all := commits + [Commit(n, FlushOp(now))];
    forall i | 0 <= i < n + 1 ensures all[|all| - (n + 1) + i] == Commit(i, FlushOp(now)) {
      if i < n {
        assert all[|all| - (n + 1) + i] == commits[|commits| - n + i];
      }
    }
  }

  lemma FlushStep(world: World, st: State, step: Step)
    requires FlushOk(world, st) && Next(world, st, step).Some?
    ensures FlushOk(world, Next(world, st, step).value)
  {
    hide Replay;
    hide Handle;
    hide Proper;
    hide OneShardCommits;
    hide PromptAt;
    hide FlushedUpTo;
    if step.CommitStep? && step.commit.op.FlushOp? {
      FlushOneMore(st.run.commits, step.commit.shard, st.now);
    } else if step.BeginFlush? {
      NoneFlushed(st.run.commits, step.now);
    }
  }

  lemma NoneFlushed(commits: seq<Commit>, now: Time)
    ensures FlushedUpTo(commits, 0, now)
  {
  }

  // ---- The tracker and the buffer ----

  predicate AfterTracker(stage: Stage) { stage.TrackerGone? || stage.BufferClosed? || stage.FinalFlush? || stage.Finished? }

  predicate BufferIsClosed(stage: Stage) { stage.BufferClosed? || stage.FinalFlush? || stage.Finished? }

  /** The buffer has been given what the handled events persist, in order, and was closed after that. */
  ghost predicate PutsOk(world: World, st: State) {
    && st.handled <= |st.sent|
    && P.Reaches(st.bufferSteps, st.buffer)
    && P.Puts(st.bufferSteps) == P.Persisted(Replay(st.sent[..st.handled], world.chats, world.closeAt).1)
    && P.ClosedLast(st.bufferSteps)
    && (P.CloseStep in st.bufferSteps ==> BufferIsClosed(st.stage))
    && (AfterTracker(st.stage) ==> st.handled == |st.sent|)
  }

  lemma ReachOneMore(steps: seq<P.Step>, st: P.State, step: P.Step)
    requires P.Reaches(steps, st) && P.Enabled(st, step)
    ensures P.Reaches(steps + [step], P.Next(st, step))
    ensures P.Puts(steps + [step]) == P.Puts(steps) + if step.PutStep? then [step.signal] else []
  {
    assert (steps + [step])[..|steps|] == steps;
  }

  lemma CloseLastOneMore(steps: seq<P.Step>, step: P.Step)
    requires P.ClosedLast(steps) && (step.PutStep? ==> P.CloseStep !in steps)
    ensures P.ClosedLast(steps + [step])
  {
    var all := steps + [step];
    forall i, j | 0 <= i < j < |all| && all[i].CloseStep? ensures !all[j].PutStep? {
      assert all[i] == steps[i] && steps[i] in steps;
    }
  }

  /** Only the first call of one event persists. */
  lemma PersistedMore(log: seq<SpreadEvent>, e: SpreadEvent, world: World)
    ensures var (active, calls) := Replay(log, world.chats, world.closeAt);
      var more := Handle(active, e, |log| + 1, world.chats(|log| + 1), world.closeAt).1;
      P.Persisted(Replay(log + [e], world.chats, world.closeAt).1)
      == P.Persisted(calls) + if more != [] && more[0].Persist? then [more[0].signal] else []
  {
    hide Handle;
    hide Accounted;
    assert (log + [e])[..|log|] == log;
    var (active, calls) := Replay(log, world.chats, world.closeAt);
    var more := Handle(active, e, |log| + 1, world.chats(|log| + 1), world.closeAt).1;
    ReplayAccounts(log, world.chats, world.closeAt);
    HandleAccounts(active, Newest(calls), |log|, e, world.chats(|log| + 1), world.closeAt);
    PersistedAppend(calls, more);
  }

  lemma {:induction false} PersistedAppend(a: seq<Call>, b: seq<Call>)
    requires forall i :: 1 <= i < |b| ==> !b[i].Persist?
    ensures P.Persisted(a + b) == P.Persisted(a) + if b != [] && b[0].Persist? then [b[0].signal] else []
  {
    if b == [] {
      assert a + b == a;
    } else {
      var front := b[..|b| - 1];
      assert (a + b)[..|a + b| - 1] == a + front;
      PersistedAppend(a, front);
    }
  }

  lemma HandlePuts(world: World, st: State)
    requires PutsOk(world, st) && HandleNext(world, st).Some?
    requires !AfterTracker(st.stage)
    ensures PutsOk(world, HandleNext(world, st).value)
  {
    hide Handle;
    hide Replay;
    hide P.Reaches;
    hide P.ClosedLast;
    hide P.Puts;
    hide P.Persisted;
    var log, e := st.sent[..st.handled], st.sent[st.handled];
    PersistedMore(log, e, world);
    assert st.sent[..st.handled + 1] == log + [e];
    var more := Handle(Replay(log, world.chats, world.closeAt).0, e, st.handled + 1, world.chats(st.handled + 1), world.closeAt).1;
    if more != [] && more[0].Persist? {
      ReachOneMore(st.bufferSteps, st.buffer, P.PutStep(more[0].signal));
      CloseLastOneMore(st.bufferSteps, P.PutStep(more[0].signal));
    }
  }

  lemma WorkerPuts(world: World, st: State, step: P.Step)
    requires PutsOk(world, st) && WorkerNext(st, step).Some?
    ensures PutsOk(world, WorkerNext(st, step).value)
  {
    hide Replay;
    hide P.Next;
    hide P.Enabled;
    hide P.Reaches;
    hide P.ClosedLast;
    hide P.Puts;
    hide P.Persisted;
    ReachOneMore(st.bufferSteps, st.buffer, step);
    CloseLastOneMore(st.bufferSteps, step);
  }

  lemma PutsStep(world: World, st: State, step: Step)
    requires HandsOk(st) && PutsOk(world, st) && Next(world, st, step).Some?
    ensures PutsOk(world, Next(world, st, step).value)
  {
    hide Replay;
    hide HandleNext;
    hide WorkerNext;
    hide P.Next;
    hide P.Reaches;
    hide P.ClosedLast;
    hide P.Puts;
    hide P.Persisted;
    hide OneShardCommits;
    hide Proper;
    hide PromptAt;
    match step {
      case HandleEvent =>
        assert !AfterTracker(st.stage) by { HandlesBeforeTheEnd(world, st); }
        HandlePuts(world, st);
      case Worker(s) => WorkerPuts(world, st, s);
      case CloseBuffer =>
        ReachOneMore(st.bufferSteps, st.buffer, P.CloseStep);
        CloseLastOneMore(st.bufferSteps, P.CloseStep);
      case Send(w) => SendPuts(world, st, w);
      case _ =>
    }
  }

  lemma HandlesBeforeTheEnd(world: World, st: State)
    requires PutsOk(world, st) && HandleNext(world, st).Some?
    ensures !AfterTracker(st.stage)
  {
    hide Replay;
    hide Handle;
  }

  lemma SendPuts(world: World, st: State, w: nat)
    requires HandsOk(st) && PutsOk(world, st) && Next(world, st, Send(w)).Some?
    ensures PutsOk(world, Next(world, st, Send(w)).value)
  {
    hide Replay;
    hide P.Reaches;
    hide P.ClosedLast;
    hide P.Puts;
    hide P.Persisted;
    assert !AfterTracker(st.stage);
    assert Next(world, st, Send(w)).value.sent[..st.handled] == st.sent[..st.handled];
  }

  // ---- Every run of the application ----

  /** The worker that finished without giving up left nothing behind. */
  predicate DrainedOk(st: State) { st.stage.Finished? && st.complete ==> st.buffer.items == map[] }

  lemma DrainedStep(world: World, st: State, step: Step)
    requires PutsOk(world, st) && DrainedOk(st) && Next(world, st, step).Some?
    ensures DrainedOk(Next(world, st, step).value)
  {
    hide Replay;
    hide Handle;
    hide P.Enabled;
    hide P.Reaches;
    hide P.ClosedLast;
    hide P.Puts;
    hide P.Persisted;
    hide OneShardCommits;
    hide Proper;
    hide PromptAt;
    if step.HandleEvent? {
      HandlesBeforeTheEnd(world, st);
    }
  }

  ghost predicate Inv(world: World, st: State) {
    RunOk(world, st) && Carrying(st) && HandsOk(st) && FlushOk(world, st) && PutsOk(world, st) && DrainedOk(st)
  }

  lemma InitInv(world: World)
    requires world.shards > 0 && world.senders >= 2
    ensures Inv(world, Init(world))
  {
    var st := Init(world);
    assert P.Reaches([], P.START) && P.Puts([]) == [];
    assert st.sent[..0] == [];
    forall key ensures KeyOk(Flatten(st.run.outs), st.sent, st.hands, key) {
      assert Proj([], key) == [];
    }
  }

  lemma StepKeeps(world: World, st: State, step: Step)
    requires Inv(world, st) && Next(world, st, step).Some?
    ensures Inv(world, Next(world, st, step).value)
  {
    hide Next;
    hide RunOk;
    hide Carrying;
    hide HandsOk;
    hide FlushOk;
    hide PutsOk;
    hide DrainedOk;
    RunStep(world, st, step);
    CarryingStep(world, st, step);
    HandsStep(world, st, step);
    FlushStep(world, st, step);
    PutsStep(world, st, step);
    DrainedStep(world, st, step);
  }

  lemma {:induction false} ReachedStates(world: World, steps: seq<Step>)
    requires world.shards > 0 && world.senders >= 2 && Execute(world, steps).Some?
    ensures Inv(world, Execute(world, steps).value)
  {
    hide Next;
    hide Inv;
    hide Init;
    if steps == [] {
      InitInv(world);
    } else {
      ReachedStates(world, steps[..|steps| - 1]);
      StepKeeps(world, Execute(world, steps[..|steps| - 1]).value, steps[|steps| - 1]);
    }
  }

  lemma NothingHeld(log: seq<SpreadEvent>, sent: seq<SpreadEvent>, hands: seq<seq<SpreadEvent>>, key: string)
    requires KeyOk(log, sent, hands, key) && |hands| > 0 && EmptyFrom(hands, 0)
    ensures Proj(sent, key) == Proj(log, key)
  {
    assert Proj([], key) == [];
    hide Proj;
    assert Sole(hands, 0, key);
    assert Proj(sent, key) + [] == Proj(sent, key);
  }

  lemma CarriesAll(world: World, st: State)
    requires Inv(world, st) && st.stage.Finished? && st.complete && st.prompt
    ensures IsRun(world.hash, st.run) && Carries(st.sent, st.run) && EndsWithFlush(st.run, st.now)
  {
    hide IsRun;
    hide PutsOk;
    hide KeyOk;
    assert forall w :: 0 <= w < |st.hands| ==> st.hands[w] == [];
    forall key ensures Proj(st.sent, key) == Proj(Flatten(st.run.outs), key) {
      NothingHeld(Flatten(st.run.outs), st.sent, st.hands, key);
    }
  }

  /**
   The whole life of the application.  Whatever the interleaving of workers, janitor, tracker,
   persistence worker and cleanup: when the shutdown has finished, neither the flush nor the final
   save gave up, commit times never went back per symbol and events were sent promptly, then no
   route and no signal is active, and the repository holds exactly the newest snapshot of every
   signal of this run, each of them closed with a duration that is not negative.
   */
  lemma ShutdownStoresOnlyClosedSignals(world: World, steps: seq<Step>)
    requires world.shards > 0 && world.senders >= 2 && Execute(world, steps).Some?
    requires var st := Execute(world, steps).value;
      st.stage.Finished? && st.complete && st.prompt && InOrder(world, st.run)
    ensures var st := Execute(world, steps).value;
      var (active, calls) := Replay(st.sent, world.chats, world.closeAt);
      && NoneActive(st.run)
      && active == map[]
      && st.buffer.rows == Newest(calls)
      && forall id :: id in st.buffer.rows ==> ClosedRow(st.buffer.rows[id])
  {
    hide Execute;
    hide IsRun;
    hide OrderedRun;
    ReachedStates(world, steps);
    var st := Execute(world, steps).value;
    CarriesAll(world, st);
    LastHasShards(world.hash, st.run);
    NothingLeftOpen(world.hash, st.run, st.now, st.sent, world.chats, world.closeAt);
    var (active, calls) := Replay(st.sent, world.chats, world.closeAt);
    ReplayAccounts(st.sent, world.chats, world.closeAt);
    assert st.sent[..st.handled] == st.sent;
    P.EmptyBufferIsStored(calls, active, |st.sent|, st.bufferSteps, st.buffer);
  }

  /** Commit times never went back for any symbol. */
  ghost predicate InOrder(world: World, r: Run) { IsRun(world.hash, r) ==> OrderedRun(world.hash, r) }

  predicate NoneActive(r: Run) { r.states != [] && forall i :: 0 <= i < |r.Last()| ==> r.Last()[i].active == map[] }

  predicate ClosedRow(s: Signal) { !s.isActive && s.duration == s.closedAt - s.openedAt >= 0 }

  // ---- The final flush ends ----

  /** In the final flush only the worker still moves, and it moves or finishes until it has finished. */
  lemma FinalFlushGoesOn(world: World, steps: seq<Step>) returns (step: Step)
    requires world.shards > 0 && world.senders >= 2 && Execute(world, steps).Some? && Execute(world, steps).value.stage.FinalFlush?
    ensures step.Finish? || (step.Worker? && P.Drains(step.step))
    ensures Next(world, Execute(world, steps).value, step).Some?
  {
    hide Execute;
    ReachedStates(world, steps);
    var st := Execute(world, steps).value;
    P.ReachableInv(st.bufferSteps, st.buffer);
    if st.buffer.phase.Saving? || st.buffer.items != map[] {
      var s := P.DrainGoesOn(st.buffer, LIMIT);
      step := Worker(s);
    } else {
      step := Finish;
    }
  }

  /** What the final flush can still do when its saves succeed: bounded by the size of the buffer. */
  function FinalBound(st: State): int { if st.stage.Finished? then 0 else P.Remaining(st.buffer) + 1 }

  lemma FinalStep(world: World, st: State, step: Step)
    requires Inv(world, st) && (st.stage.FinalFlush? || st.stage.Finished?) && Next(world, st, step).Some?
    requires step.Worker? ==> !step.step.FailedStep?
    ensures var st' := Next(world, st, step).value;
      (st'.stage.FinalFlush? || st'.stage.Finished?) && 0 <= FinalBound(st') < FinalBound(st)
  {
    hide IsRun;
    hide Carrying;
    hide FlushOk;
    hide OneShardCommits;
    hide Proper;
    hide PromptAt;
    hide Replay;
    hide P.Next;
    hide P.Enabled;
    hide P.Remaining;
    hide P.Reaches;
    hide P.Puts;
    hide P.Persisted;
    hide P.ClosedLast;
    P.ReachableInv(st.bufferSteps, st.buffer);
    SavingInBounds(st.buffer);
    P.RemainingIsNat(st.buffer);
    if step.Worker? {
      P.DrainStep(st.buffer, step.step);
    }
  }

  lemma SavingInBounds(st: P.State)
    requires P.Inv(st)
    ensures st.phase.Saving? ==> st.phase.done <= |st.phase.batch|
  {
  }

  ghost function ExecuteFrom(world: World, st: State, steps: seq<Step>): Option<State>
    decreases |steps|
  {
    if steps == [] then Some(st)
    else
      var next := Next(world, st, steps[0]);
      if next.None? then None else ExecuteFrom(world, next.value, steps[1..])
  }

  lemma {:induction false} FinalStepsAreFew(world: World, st: State, more: seq<Step>)
    requires Inv(world, st) && (st.stage.FinalFlush? || st.stage.Finished?) && ExecuteFrom(world, st, more).Some?
    requires forall i :: 0 <= i < |more| && more[i].Worker? ==> !more[i].step.FailedStep?
    ensures |more| <= FinalBound(st)
    decreases |more|
  {
    hide Next;
    hide Inv;
    hide FinalBound;
    if more == [] {
      BoundIsNat(world, st);
    } else {
      StepKeeps(world, st, more[0]);
      FinalStep(world, st, more[0]);
      FinalStepsAreFew(world, Next(world, st, more[0]).value, more[1..]);
    }
  }

  lemma BoundIsNat(world: World, st: State)
    requires Inv(world, st)
    ensures FinalBound(st) >= 0
  {
    P.ReachableInv(st.bufferSteps, st.buffer);
    SavingInBounds(st.buffer);
    P.RemainingIsNat(st.buffer);
  }

  /** The final flush ends: while saves succeed, at most three steps for each buffered signal, and one more. */
  lemma FinalFlushTerminates(world: World, steps: seq<Step>, more: seq<Step>)
    requires world.shards > 0 && world.senders >= 2 && Execute(world, steps).Some?
    requires var st := Execute(world, steps).value; st.stage.FinalFlush? && st.buffer.phase.Idle? && ExecuteFrom(world, st, more).Some?
    requires forall i :: 0 <= i < |more| && more[i].Worker? ==> !more[i].step.FailedStep?
    ensures |more| <= 3 * |Execute(world, steps).value.buffer.items| + 1
  {
    hide Execute;
    hide Inv;
    ReachedStates(world, steps);
    FinalStepsAreFew(world, Execute(world, steps).value, more);
  }

  // ---- A shutdown that finishes ----

  lemma OneMore(world: World, steps: seq<Step>, st: State, step: Step, st': State)
    requires Execute(world, steps) == Some(st) && Next(world, st, step) == Some(st')
    ensures Execute(world, steps + [step]) == Some(st')
  {
    hide Next;
    assert (steps + [step])[..|steps|] == steps;
  }

  /** Nothing was committed but flushes, nothing is held and nothing buffered. */
  ghost predicate Quiet(world: World, st: State) {
    && st.run.states != [] && st.run.Last() == seq(world.shards, _ => ShardState(map[], map[]))
    && |st.hands| == world.senders && EmptyFrom(st.hands, 0) && st.sent == [] && st.handled == 0
    && st.buffer == P.START && st.prompt && st.complete
  }

  lemma EmptyFlush(now: Time)
    ensures var s := ShardState(map[], map[]); Commits(s, FlushOp(now), s, [])
  {
  }

  lemma {:induction false} QuietFlush(world: World, now: Time, n: nat) returns (steps: seq<Step>, st: State)
    requires n <= world.shards && world.shards > 0 && world.senders >= 2 && now != 0
    ensures Execute(world, steps) == Some(st) && Quiet(world, st) && st.stage == Flushing(n) && st.now == now
  {
    hide Next;
    hide Commits;
    if n == 0 {
      var begin := Init(world);
      var one, two := begin.(stage := JanitorGone), begin.(stage := IngestionGone);
      st := two.(stage := Flushing(0), now := now);
      assert Next(world, begin, StopJanitor) == Some(one) && Next(world, one, StopIngestion) == Some(two)
        && Next(world, two, BeginFlush(now)) == Some(st) by { QuietStops(world, begin, one, two, st, now); }
      assert Execute(world, []) == Some(begin);
      OneMore(world, [], begin, StopJanitor, one);
      OneMore(world, [] + [StopJanitor], one, StopIngestion, two);
      OneMore(world, [] + [StopJanitor] + [StopIngestion], two, BeginFlush(now), st);
      steps := [] + [StopJanitor] + [StopIngestion] + [BeginFlush(now)];
    } else {
      var before;
      steps, before := QuietFlush(world, now, n - 1);
      var step := CommitStep(CLEANUP, Commit(n - 1, FlushOp(now)), before.run.Last(), []);
      st := QuietCommit(world, before, n - 1);
      OneMore(world, steps, before, step, st);
      steps := steps + [step];
    }
  }

  lemma QuietStops(world: World, begin: State, one: State, two: State, st: State, now: Time)
    requires world.senders >= 2 && now != 0 && begin == Init(world) && one == begin.(stage := JanitorGone)
    requires two == begin.(stage := IngestionGone) && st == two.(stage := Flushing(0), now := now)
    ensures Next(world, begin, StopJanitor) == Some(one) && Next(world, one, StopIngestion) == Some(two)
    ensures Next(world, two, BeginFlush(now)) == Some(st)
  {
  }

  lemma QuietCommit(world: World, st: State, i: nat) returns (st': State)
    requires Quiet(world, st) && st.stage == Flushing(i) && i < world.shards && world.senders >= 2 && st.now != 0
    ensures Next(world, st, CommitStep(CLEANUP, Commit(i, FlushOp(st.now)), st.run.Last(), [])) == Some(st')
    ensures Quiet(world, st') && st'.stage == Flushing(i + 1) && st'.now == st.now
  {
    hide Commits;
    EmptyFlush(st.now);
    var S := st.run.Last();
    assert S[i] == ShardState(map[], map[]);
    assert OneShardCommits(S, i, FlushOp(st.now), S, []);
    assert st.hands[CLEANUP] + [] == st.hands[CLEANUP];
    assert st.hands[CLEANUP := st.hands[CLEANUP]] == st.hands;
    st' := Next(world, st, CommitStep(CLEANUP, Commit(i, FlushOp(st.now)), S, [])).value;
  }

  lemma QuietDelivery(world: World, st: State) returns (a: State, b: State, c: State)
    requires Quiet(world, st) && st.stage == Flushing(world.shards) && world.senders >= 2
    ensures Next(world, st, EndFlush) == Some(a) && Next(world, a, CloseChannel) == Some(b) && Next(world, b, StopTracker) == Some(c)
    ensures c == st.(stage := TrackerGone)
  {
    hide CommitNext;
    hide HandleNext;
    hide WorkerNext;
    a, b, c := st.(stage := Flushed), st.(stage := ChannelClosed), st.(stage := TrackerGone);
  }

  lemma QuietEnd(world: World, st: State) returns (a: State, b: State, c: State)
    requires st.stage.TrackerGone? && st.buffer == P.START && st.complete && st.prompt
    ensures Next(world, st, CloseBuffer) == Some(a) && Next(world, a, BeginFinal) == Some(b) && Next(world, b, Finish) == Some(c)
    ensures c.stage.Finished? && c.complete && c.prompt
  {
    hide CommitNext;
    hide HandleNext;
    hide WorkerNext;
    var closed := st.(buffer := P.Next(st.buffer, P.CloseStep), bufferSteps := st.bufferSteps + [P.CloseStep]);
    assert IsBatch(map[], LIMIT, []);
    a, b, c := closed.(stage := BufferClosed), closed.(stage := FinalFlush), closed.(stage := Finished);
  }

  /** For any number of shards, senders and any time of the flush a shutdown can finish without giving up. */
  lemma ShutdownCanFinish(world: World, now: Time) returns (steps: seq<Step>)
    requires world.shards > 0 && world.senders >= 2 && now != 0
    ensures Execute(world, steps).Some?
    ensures var st := Execute(world, steps).value; st.stage.Finished? && st.complete && st.prompt
  {
    hide Next;
    hide Execute;
    hide Quiet;
    var st;
    steps, st := QuietFlush(world, now, world.shards);
    var a, b, c := QuietDelivery(world, st);
    assert c.buffer == P.START && c.complete && c.prompt by { QuietBuffer(world, st); }
    var d, e, f := QuietEnd(world, c);
    OneMore(world, steps, st, EndFlush, a);
    steps := steps + [EndFlush];
    OneMore(world, steps, a, CloseChannel, b);
    steps := steps + [CloseChannel];
    OneMore(world, steps, b, StopTracker, c);
    steps := steps + [StopTracker];
    OneMore(world, steps, c, CloseBuffer, d);
    steps := steps + [CloseBuffer];
    OneMore(world, steps, d, BeginFinal, e);
    steps := steps + [BeginFinal];
    OneMore(world, steps, e, Finish, f);
    steps := steps + [Finish];
  }

  lemma QuietBuffer(world: World, st: State)
    requires Quiet(world, st)
    ensures st.buffer == P.START && st.complete && st.prompt
  {
  }
}

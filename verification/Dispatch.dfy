/**
 The way from the tick channel to the aggregator: a dispatcher spreads ticks over queues by a
 hash of the symbol, and one worker drains each queue.
 */
module Dispatch {
  import opened Wrappers
  import opened Domain

  /** The hash of a symbol; any function will do. */
  type Hash = string -> nat

  function Lane(hash: Hash, symbol: string, lanes: nat): (r: nat)
    requires lanes > 0
    ensures r < lanes
  {
    hash(symbol) % lanes
  }

  function BySymbol(ticks: seq<MarketTick>, symbol: string): seq<MarketTick> {
    if ticks == [] then []
    else
      var front, t := BySymbol(ticks[..|ticks| - 1], symbol), ticks[|ticks| - 1];
      if t.symbol == symbol then front + [t] else front
  }

  function Item(t: Option<MarketTick>): seq<MarketTick> { if t.Some? then [t.value] else [] }

  lemma {:induction false} BySymbolAppend(a: seq<MarketTick>, b: seq<MarketTick>, symbol: string)
    ensures BySymbol(a + b, symbol) == BySymbol(a, symbol) + BySymbol(b, symbol)
  {
    if b == [] {
      assert a + b == a;
    } else {
      BySymbolAppend(a, b[..|b| - 1], symbol);
      assert (a + b)[..|a + b| - 1] == a + b[..|b| - 1];
    }
  }

  datatype Dispatcher = Waiting | Holding(tick: MarketTick) | Gone(lost: Option<MarketTick>)

  datatype Worker = Idle | Busy(tick: MarketTick) | Left

  /** `taken` are the ticks received from the channel and `done` those given to the aggregator, each in order. */
  datatype State = State(
    dispatcher: Dispatcher, queues: seq<seq<MarketTick>>, workers: seq<Worker>, stopping: bool,
    taken: seq<MarketTick>, done: seq<MarketTick>)

  datatype Step =
    | Take(tick: MarketTick)
    | Enqueue
    | Quit
    | Dequeue(w: nat)
    | Process(w: nat)
    | Leave(w: nat)
    | Stop

  function Init(lanes: nat): State {
    State(Waiting, seq(lanes, _ => []), seq(lanes, _ => Idle), false, [], [])
  }

  /** A queue holds 4096 ticks; the dispatcher waits for room, or for the stop. */
  const CAPACITY: nat := 4096

  function Next(s: State, step: Step, hash: Hash): Option<State> {
    match step
    case Take(t) => if s.dispatcher.Waiting? && |s.queues| > 0 then Some(s.(dispatcher := Holding(t), taken := s.taken + [t])) else None
    case Enqueue =>
      if !s.dispatcher.Holding? || |s.queues| == 0 then None
      else
        var t := s.dispatcher.tick;
        var q := Lane(hash, t.symbol, |s.queues|);
        if |s.queues[q]| >= CAPACITY then None
        else Some(s.(dispatcher := Waiting, queues := s.queues[q := s.queues[q] + [t]]))
    case Quit =>
      if !s.stopping || s.dispatcher.Gone? then None
      else Some(s.(dispatcher := Gone(if s.dispatcher.Holding? then Some(s.dispatcher.tick) else None)))
    case Dequeue(w) =>
      if w >= |s.workers| || w >= |s.queues| || !s.workers[w].Idle? || s.queues[w] == [] then None
      else Some(s.(workers := s.workers[w := Busy(s.queues[w][0])], queues := s.queues[w := s.queues[w][1..]]))
    case Process(w) =>
      if w >= |s.workers| || !s.workers[w].Busy? then None
      else Some(s.(workers := s.workers[w := Idle], done := s.done + [s.workers[w].tick]))
    case Leave(w) =>
      if w >= |s.workers| || !s.workers[w].Idle? || !s.stopping then None else Some(s.(workers := s.workers[w := Left]))
    case Stop => Some(s.(stopping := true))
  }

  function Execute(lanes: nat, steps: seq<Step>, hash: Hash): Option<State> {
    if steps == [] then Some(Init(lanes))
    else
      var before := Execute(lanes, steps[..|steps| - 1], hash);
      if before.None? then None else Next(before.value, steps[|steps| - 1], hash)
  }

  // ---- The invariant ----

  function InDispatcher(d: Dispatcher): Option<MarketTick> {
    match d
    case Waiting => None
    case Holding(t) => Some(t)
    case Gone(lost) => lost
  }

  function InWorker(w: Worker): Option<MarketTick> { if w.Busy? then Some(w.tick) else None }

  /** Everything a queue and its worker hold belongs to the lane. */
  ghost predicate LaneSound(s: State, w: nat, hash: Hash)
    requires |s.workers| == |s.queues| && w < |s.queues|
  {
    && (forall t :: t in s.queues[w] ==> Lane(hash, t.symbol, |s.queues|) == w)
    && (s.workers[w].Busy? ==> Lane(hash, s.workers[w].tick.symbol, |s.queues|) == w)
  }

  /** The ticks of a symbol on their way: with the dispatcher, in the queue of the lane and with its worker. */
  function OnTheWay(s: State, w: nat): seq<MarketTick>
    requires |s.workers| == |s.queues| && w < |s.queues|
  {
    Item(InWorker(s.workers[w])) + s.queues[w] + Item(InDispatcher(s.dispatcher))
  }

  ghost predicate Conserved(s: State, symbol: string, hash: Hash)
    requires |s.workers| == |s.queues| > 0
  {
    BySymbol(s.taken, symbol) == BySymbol(s.done, symbol) + BySymbol(OnTheWay(s, Lane(hash, symbol, |s.queues|)), symbol)
  }

  ghost predicate Inv(s: State, hash: Hash) {
    && |s.workers| == |s.queues| > 0
    && (forall w :: 0 <= w < |s.queues| ==> LaneSound(s, w, hash))
    && (forall symbol :: Conserved(s, symbol, hash))
  }

  lemma LaneStep(s: State, step: Step, hash: Hash, w: nat)
    requires Inv(s, hash) && Next(s, step, hash).Some? && w < |s.queues|
    ensures var s' := Next(s, step, hash).value; |s'.workers| == |s'.queues| == |s.queues| && LaneSound(s', w, hash)
  {
    hide Lane;
    hide Conserved;
    assert LaneSound(s, w, hash);
    if step.Dequeue? && step.w == w {
      assert s.queues[w][0] in s.queues[w];
    }
  }

  lemma NoTicks(symbol: string)
    ensures BySymbol([], symbol) == []
  {
  }

  lemma OneTick(t: MarketTick, symbol: string)
    ensures BySymbol([t], symbol) == if t.symbol == symbol then [t] else []
  {
    assert [t][..0] == [];
  }

  lemma OnTheWayBySymbol(s: State, w: nat, symbol: string)
    requires |s.workers| == |s.queues| && w < |s.queues|
    ensures BySymbol(OnTheWay(s, w), symbol)
         == BySymbol(Item(InWorker(s.workers[w])), symbol) + BySymbol(s.queues[w], symbol)
            + BySymbol(Item(InDispatcher(s.dispatcher)), symbol)
  {
    BySymbolAppend(Item(InWorker(s.workers[w])) + s.queues[w], Item(InDispatcher(s.dispatcher)), symbol);
    BySymbolAppend(Item(InWorker(s.workers[w])), s.queues[w], symbol);
  }

  /** A symbol's ticks on their way, piece by piece. */
  function Pieces(s: State, w: nat, symbol: string): seq<MarketTick>
    requires |s.workers| == |s.queues| && w < |s.queues|
  {
    BySymbol(Item(InWorker(s.workers[w])), symbol) + BySymbol(s.queues[w], symbol) + BySymbol(Item(InDispatcher(s.dispatcher)), symbol)
  }

  predicate Counted(s: State, symbol: string, w: nat)
    requires |s.workers| == |s.queues| && w < |s.queues|
  {
    BySymbol(s.taken, symbol) == BySymbol(s.done, symbol) + Pieces(s, w, symbol)
  }

  lemma TakeCounts(s: State, t: MarketTick, hash: Hash, symbol: string, w: nat)
    requires |s.workers| == |s.queues| && w < |s.queues| && Counted(s, symbol, w) && Next(s, Take(t), hash).Some?
    ensures Counted(Next(s, Take(t), hash).value, symbol, w)
  {
    hide BySymbol;
    NoTicks(symbol);
    BySymbolAppend(s.taken, [t], symbol);
  }

  lemma EnqueueCounts(s: State, hash: Hash, symbol: string, w: nat)
    requires |s.workers| == |s.queues| && w < |s.queues| && Counted(s, symbol, w) && Next(s, Enqueue, hash).Some?
    requires w == Lane(hash, symbol, |s.queues|)
    ensures Counted(Next(s, Enqueue, hash).value, symbol, w)
  {
    hide BySymbol;
    hide Lane;
    var t := s.dispatcher.tick;
    NoTicks(symbol);
    OneTick(t, symbol);
    BySymbolAppend(s.queues[Lane(hash, t.symbol, |s.queues|)], [t], symbol);
  }

  lemma DequeueCounts(s: State, v: nat, hash: Hash, symbol: string, w: nat)
    requires |s.workers| == |s.queues| && w < |s.queues| && Counted(s, symbol, w) && Next(s, Dequeue(v), hash).Some?
    ensures Counted(Next(s, Dequeue(v), hash).value, symbol, w)
  {
    hide BySymbol;
    NoTicks(symbol);
    if v == w {
      assert s.queues[v] == [s.queues[v][0]] + s.queues[v][1..];
      BySymbolAppend([s.queues[v][0]], s.queues[v][1..], symbol);
    }
  }

  lemma ProcessCounts(s: State, v: nat, hash: Hash, symbol: string, w: nat)
    requires |s.workers| == |s.queues| && w < |s.queues| && Counted(s, symbol, w) && Next(s, Process(v), hash).Some?
    requires v != w ==> s.workers[v].tick.symbol != symbol
    ensures Counted(Next(s, Process(v), hash).value, symbol, w)
  {
    hide BySymbol;
    NoTicks(symbol);
    OneTick(s.workers[v].tick, symbol);
    BySymbolAppend(s.done, [s.workers[v].tick], symbol);
  }

  /** Every step conserves the ticks of a symbol. */
  lemma ConservedStep(s: State, step: Step, hash: Hash, symbol: string)
    requires Inv(s, hash) && Next(s, step, hash).Some?
    ensures var s' := Next(s, step, hash).value; |s'.workers| == |s'.queues| == |s.queues| && Conserved(s', symbol, hash)
  {
    hide BySymbol;
    hide Lane;
    var s', w := Next(s, step, hash).value, Lane(hash, symbol, |s.queues|);
    assert Conserved(s, symbol, hash);
    OnTheWayBySymbol(s, w, symbol);
    OnTheWayBySymbol(s', w, symbol);
    match step {
      case Take(t) => TakeCounts(s, t, hash, symbol, w);
      case Enqueue => EnqueueCounts(s, hash, symbol, w);
      case Dequeue(v) => DequeueCounts(s, v, hash, symbol, w);
      case Process(v) =>
        assert LaneSound(s, v, hash);
        ProcessCounts(s, v, hash, symbol, w);
      case _ =>
    }
  }

  lemma {:induction false} ReachedStates(lanes: nat, steps: seq<Step>, hash: Hash)
    requires lanes > 0 && Execute(lanes, steps, hash).Some?
    ensures Inv(Execute(lanes, steps, hash).value, hash)
  {
    hide Next;
    hide LaneSound;
    hide Conserved;
    if steps == [] {
      InitInv(lanes, hash);
    } else {
      ReachedStates(lanes, steps[..|steps| - 1], hash);
      var s, step := Execute(lanes, steps[..|steps| - 1], hash).value, steps[|steps| - 1];
      LaneStep(s, step, hash, 0);
      forall w: nat | w < |s.queues| ensures LaneSound(Next(s, step, hash).value, w, hash) {
        LaneStep(s, step, hash, w);
      }
      forall symbol ensures Conserved(Next(s, step, hash).value, symbol, hash) {
        ConservedStep(s, step, hash, symbol);
      }
    }
  }

  lemma InitInv(lanes: nat, hash: Hash)
    requires lanes > 0
    ensures Inv(Init(lanes), hash)
  {
    hide Lane;
    forall symbol ensures Conserved(Init(lanes), symbol, hash) {
      NoTicks(symbol);
      OnTheWayBySymbol(Init(lanes), Lane(hash, symbol, lanes), symbol);
    }
  }

  /**
   For any hash, any number of workers and any interleaving, the aggregator is given the ticks of
   each symbol in the order in which they arrived, without a gap; the rest is still on the way.
   */
  lemma SymbolOrderKept(lanes: nat, steps: seq<Step>, hash: Hash, symbol: string)
    requires lanes > 0 && Execute(lanes, steps, hash).Some?
    ensures var s := Execute(lanes, steps, hash).value;
      && BySymbol(s.done, symbol) <= BySymbol(s.taken, symbol)
      && |s.workers| == |s.queues| > 0
      && BySymbol(s.taken, symbol)
         == BySymbol(s.done, symbol) + BySymbol(OnTheWay(s, Lane(hash, symbol, |s.queues|)), symbol)
  {
    hide Execute;
    hide Lane;
    hide BySymbol;
    hide OnTheWay;
    ReachedStates(lanes, steps, hash);
    assert Conserved(Execute(lanes, steps, hash).value, symbol, hash);
  }

  // ---- Everything received can be delivered ----

  /** The ticks received from the channel, read off the steps. */
  function ReceivedBy(steps: seq<Step>): seq<MarketTick> {
    if steps == [] then []
    else
      var front, step := ReceivedBy(steps[..|steps| - 1]), steps[|steps| - 1];
      if step.Take? then front + [step.tick] else front
  }

  /** Nobody leaves before the stop, and what was taken is what was received. */
  ghost predicate Serving(s: State, steps: seq<Step>) {
    && s.taken == ReceivedBy(steps)
    && (s.dispatcher.Gone? ==> s.stopping) && (forall w :: 0 <= w < |s.workers| && s.workers[w].Left? ==> s.stopping)
  }

  lemma {:induction false} ReachedServing(lanes: nat, steps: seq<Step>, hash: Hash)
    requires lanes > 0 && Execute(lanes, steps, hash).Some?
    ensures Serving(Execute(lanes, steps, hash).value, steps)
  {
    if steps != [] {
      ReachedServing(lanes, steps[..|steps| - 1], hash);
    }
  }

  predicate AtRest(s: State) {
    s.dispatcher.Waiting? && (forall w :: 0 <= w < |s.workers| ==> s.workers[w].Idle?) && forall w :: 0 <= w < |s.queues| ==> s.queues[w] == []
  }

  /** At rest every tick received was given to the aggregator, in order per symbol. */
  lemma RestMeansDelivered(lanes: nat, steps: seq<Step>, hash: Hash, symbol: string)
    requires lanes > 0 && Execute(lanes, steps, hash).Some? && AtRest(Execute(lanes, steps, hash).value)
    ensures BySymbol(Execute(lanes, steps, hash).value.done, symbol) == BySymbol(ReceivedBy(steps), symbol)
  {
    hide Execute;
    hide Lane;
    hide BySymbol;
    SymbolOrderKept(lanes, steps, hash, symbol);
    ReachedServing(lanes, steps, hash);
    NoTicks(symbol);
    var s := Execute(lanes, steps, hash).value;
    assert OnTheWay(s, Lane(hash, symbol, |s.queues|)) == [];
  }

  function Waits(queues: seq<seq<MarketTick>>): nat {
    if queues == [] then 0 else Waits(queues[..|queues| - 1]) + |queues[|queues| - 1]|
  }

  function BusyOnes(workers: seq<Worker>): nat {
    if workers == [] then 0 else BusyOnes(workers[..|workers| - 1]) + if workers[|workers| - 1].Busy? then 1 else 0
  }

  lemma {:induction false} WaitsMove(queues: seq<seq<MarketTick>>, w: nat, q: seq<MarketTick>)
    requires w < |queues|
    ensures Waits(queues[w := q]) + |queues[w]| == Waits(queues) + |q|
  {
    var front, last := queues[..|queues| - 1], |queues| - 1;
    if w < last {
      assert queues[w := q][..last] == front[w := q];
      WaitsMove(front, w, q);
    } else {
      assert queues[w := q][..last] == front;
    }
  }

  lemma {:induction false} BusyMove(workers: seq<Worker>, w: nat, pc: Worker)
    requires w < |workers|
    ensures BusyOnes(workers[w := pc]) + (if workers[w].Busy? then 1 else 0) == BusyOnes(workers) + if pc.Busy? then 1 else 0
  {
    var front, last := workers[..|workers| - 1], |workers| - 1;
    if w < last {
      assert workers[w := pc][..last] == front[w := pc];
      BusyMove(front, w, pc);
    } else {
      assert workers[w := pc][..last] == front;
    }
  }

  /** How far the ticks inside still have to go. */
  function StillToGo(s: State): nat {
    2 * Waits(s.queues) + BusyOnes(s.workers) + if s.dispatcher.Holding? then 3 else 0
  }

  predicate Moves(step: Step) { step.Enqueue? || step.Dequeue? || step.Process? }

  /** Every such step brings a tick nearer to the aggregator. */
  lemma MoveCounts(s: State, step: Step, hash: Hash)
    requires |s.workers| == |s.queues| && Moves(step) && Next(s, step, hash).Some?
    ensures var s' := Next(s, step, hash).value; StillToGo(s') < StillToGo(s) && s'.stopping == s.stopping
  {
    hide Waits;
    hide BusyOnes;
    match step {
      case Enqueue =>
        var q := Lane(hash, s.dispatcher.tick.symbol, |s.queues|);
        WaitsMove(s.queues, q, s.queues[q] + [s.dispatcher.tick]);
      case Dequeue(w) =>
        WaitsMove(s.queues, w, s.queues[w][1..]);
        BusyMove(s.workers, w, Busy(s.queues[w][0]));
      case Process(w) => BusyMove(s.workers, w, Idle);
    }
  }

  /** Before the stop, and until it is at rest, a tick can move on, however full the queues are. */
  lemma DispatchGoesOn(s: State, steps: seq<Step>, hash: Hash) returns (step: Step)
    requires Inv(s, hash) && Serving(s, steps) && !s.stopping && !AtRest(s)
    ensures Moves(step) && Next(s, step, hash).Some?
  {
    hide Conserved;
    hide LaneSound;
    if w :| 0 <= w < |s.workers| && s.workers[w].Busy? {
      step := Process(w);
    } else if w :| 0 <= w < |s.queues| && s.queues[w] != [] {
      step := Dequeue(w);
    } else {
      step := Enqueue;
    }
  }

  /** So from every reached state before the stop all ticks received can be delivered. */
  lemma {:induction false} AllCanBeDelivered(lanes: nat, steps: seq<Step>, hash: Hash) returns (more: seq<Step>)
    requires lanes > 0 && Execute(lanes, steps, hash).Some? && !Execute(lanes, steps, hash).value.stopping
    ensures Execute(lanes, steps + more, hash).Some? && AtRest(Execute(lanes, steps + more, hash).value)
    ensures ReceivedBy(steps + more) == ReceivedBy(steps) && forall step :: step in more ==> Moves(step)
    decreases StillToGo(Execute(lanes, steps, hash).value)
  {
    hide Next;
    hide StillToGo;
    hide AtRest;
    hide Serving;
    var s := Execute(lanes, steps, hash).value;
    if AtRest(s) {
      more := [];
      assert steps + more == steps;
    } else {
      ReachedStates(lanes, steps, hash);
      ReachedServing(lanes, steps, hash);
      var step := DispatchGoesOn(s, steps, hash);
      MoveCounts(s, step, hash);
      assert (steps + [step])[..|steps|] == steps;
      var rest := AllCanBeDelivered(lanes, steps + [step], hash);
      more := [step] + rest;
      assert steps + [step] + rest == steps + more;
    }
  }
}

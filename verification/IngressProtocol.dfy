/**
 The coalescer at run time: any number of producers, the forwarding goroutine and any number of
 callers of the stop, interleaved.  The stop flag is atomic and not covered by the map's lock, so
 a producer may read it, lose the processor, and write afterwards.  Submissions are numbered in
 the order in which they are written; `stored` holds the key of each.
 */
module IngressProtocol {
  import opened Wrappers
  import opened Ingress

  datatype Producer = Resting | Passed(key: TickKey) | Writing(key: TickKey) | Notifying

  datatype Runner = Selecting | Flushing | Forwarding(n: nat) | PuttingBack(n: nat) | Ended

  datatype Stopper = Absent | Marked | Cleared | AwaitingEnd | Returned

  datatype State = State(
    latest: map<TickKey, nat>, token: bool, stopped: bool, done: bool, lock: Option<nat>,
    producers: seq<Producer>, runner: Runner, stoppers: seq<Stopper>,
    stored: seq<TickKey>, sent: seq<nat>)

  datatype Step =
    | Begin(p: nat, key: TickKey)
    | Acquire(p: nat)
    | Write(p: nat)
    | Notify(p: nat)
    | Receive
    | TakeNext(key: TickKey)
    | Drained
    | Forward
    | SeeDone
    | PutBack
    | Finish
    | Mark(c: nat)
    | Clear(c: nat)
    | CloseDone(c: nat)
    | Return(c: nat)

  function Init(producers: nat, stoppers: nat): State {
    State(map[], false, false, false, None, seq(producers, _ => Resting), Selecting, seq(stoppers, _ => Absent), [], [])
  }

  function Move(s: State, p: nat, pc: Producer): State
    requires p < |s.producers|
  {
    s.(producers := s.producers[p := pc])
  }

  predicate OfProducer(step: Step) { step.Begin? || step.Acquire? || step.Write? || step.Notify? }

  predicate OfStopper(step: Step) { step.Mark? || step.Clear? || step.CloseDone? || step.Return? }

  predicate OfRunner(step: Step) { !OfProducer(step) && !OfStopper(step) }

  function ProducerNext(s: State, step: Step): Option<State>
    requires OfProducer(step)
  {
    if step.p >= |s.producers| then None
    else
      var p, pc := step.p, s.producers[step.p];
      match step
      case Begin(_, key) =>
        if !pc.Resting? then None else Some(if s.stopped then s else Move(s, p, Passed(key)))
      case Acquire(_) =>
        if !pc.Passed? || s.lock.Some? then None
        else if s.stopped then Some(Move(s, p, Resting))
        else Some(Move(s, p, Writing(pc.key)).(lock := Some(p)))
      case Write(_) =>
        if !pc.Writing? then None
        else Some(Move(s, p, Notifying).(lock := None, latest := s.latest[pc.key := |s.stored|], stored := s.stored + [pc.key]))
      case Notify(_) => if pc.Notifying? then Some(Move(s, p, Resting).(token := true)) else None
  }

  function RunnerNext(s: State, step: Step): Option<State>
    requires OfRunner(step)
  {
    match step
    case Receive => if s.runner.Selecting? && s.token then Some(s.(runner := Flushing, token := false)) else None
    case Finish => if s.runner.Selecting? && s.done then Some(s.(runner := Ended)) else None
    case Drained => if s.runner.Flushing? && s.lock.None? && s.latest == map[] then Some(s.(runner := Selecting)) else None
    case TakeNext(key) =>
      if s.runner.Flushing? && s.lock.None? && key in s.latest then
        Some(s.(runner := Forwarding(s.latest[key]), latest := s.latest - {key}))
      else None
    case Forward => if s.runner.Forwarding? then Some(s.(runner := Flushing, sent := s.sent + [s.runner.n])) else None
    case SeeDone => if s.runner.Forwarding? && s.done then Some(s.(runner := PuttingBack(s.runner.n))) else None
    case PutBack =>
      if !s.runner.PuttingBack? || s.lock.Some? || s.runner.n >= |s.stored| then None
      else if s.stopped then Some(s.(runner := Selecting))
      else Some(s.(runner := Selecting, latest := s.latest[s.stored[s.runner.n] := s.runner.n]))
  }

  function StopperNext(s: State, step: Step): Option<State>
    requires OfStopper(step)
  {
    if step.c >= |s.stoppers| then None
    else
      var c, pc := step.c, s.stoppers[step.c];
      match step
      case Mark(_) => if pc.Absent? then Some(s.(stoppers := s.stoppers[c := Marked], stopped := true)) else None
      case Clear(_) =>
        if pc.Marked? && s.lock.None? then Some(s.(stoppers := s.stoppers[c := Cleared], latest := map[])) else None
      case CloseDone(_) => if pc.Cleared? then Some(s.(stoppers := s.stoppers[c := AwaitingEnd], done := true)) else None
      case Return(_) =>
        if pc.AwaitingEnd? && s.runner.Ended? then Some(s.(stoppers := s.stoppers[c := Returned])) else None
  }

  function Next(s: State, step: Step): Option<State> {
    if OfProducer(step) then ProducerNext(s, step)
    else if OfStopper(step) then StopperNext(s, step)
    else RunnerNext(s, step)
  }

  function Execute(s: State, steps: seq<Step>): Option<State> {
    if steps == [] then Some(s)
    else
      var before := Execute(s, steps[..|steps| - 1]);
      if before.None? then None else Next(before.value, steps[|steps| - 1])
  }

  // ---- The invariants ----

  predicate PastClear(c: Stopper) { c.Cleared? || c.AwaitingEnd? || c.Returned? }

  /** The stop protocol: the flag before the clear, the clear before the signal, the signal before the end. */
  predicate StopOrder(s: State) {
    && (s.done ==> s.stopped)
    && (s.runner.PuttingBack? || s.runner.Ended? ==> s.done)
    && (forall p :: 0 <= p < |s.producers| && s.producers[p].Writing? ==> s.lock == Some(p))
    && (forall c :: 0 <= c < |s.stoppers| && !s.stoppers[c].Absent? ==> s.stopped)
    && (forall c :: 0 <= c < |s.stoppers| && PastClear(s.stoppers[c]) ==> s.lock.None? && s.latest == map[])
    && (forall c :: 0 <= c < |s.stoppers| && s.stoppers[c].Returned? ==> s.runner.Ended?)
    && (s.lock.Some? ==> s.lock.value < |s.producers| && s.producers[s.lock.value].Writing?)
  }

  function InFlight(s: State): Option<nat> {
    if s.runner.Forwarding? || s.runner.PuttingBack? then Some(s.runner.n) else None
  }

  /** Per key: what was forwarded, then what is in flight, then what is in the map, in the order of submission. */
  predicate SentOrdered(s: State) {
    && (forall a :: 0 <= a < |s.sent| ==> s.sent[a] < |s.stored|)
    && (forall a, b :: 0 <= a < b < |s.sent| && s.stored[s.sent[a]] == s.stored[s.sent[b]] ==> s.sent[a] < s.sent[b])
  }

  predicate MapOrdered(s: State) {
    && (forall key :: key in s.latest ==> s.latest[key] < |s.stored| && s.stored[s.latest[key]] == key)
    && (forall a, key :: 0 <= a < |s.sent| && key in s.latest && s.sent[a] < |s.stored| && s.stored[s.sent[a]] == key ==>
          s.sent[a] < s.latest[key])
  }

  predicate FlightOrdered(s: State) {
    InFlight(s).Some? ==>
      var n := InFlight(s).value;
      && n < |s.stored|
      && (s.stored[n] in s.latest ==> n < s.latest[s.stored[n]])
      && (forall a :: 0 <= a < |s.sent| && s.sent[a] < |s.stored| && s.stored[s.sent[a]] == s.stored[n] ==> s.sent[a] < n)
  }

  predicate Ordered(s: State) { SentOrdered(s) && MapOrdered(s) && FlightOrdered(s) }

  predicate NewerSent(s: State, n: nat)
    requires n < |s.stored|
  {
    exists a :: 0 <= a < |s.sent| && n <= s.sent[a] < |s.stored| && s.stored[s.sent[a]] == s.stored[n]
  }

  /** Of the submission's key this one or a newer one is in the map, in flight or forwarded. */
  predicate Carried(s: State, n: nat)
    requires n < |s.stored|
  {
    || (s.stored[n] in s.latest && n <= s.latest[s.stored[n]])
    || (InFlight(s).Some? && n <= InFlight(s).value < |s.stored| && s.stored[InFlight(s).value] == s.stored[n])
    || NewerSent(s, n)
  }

  predicate NewestCarried(s: State) { !s.stopped ==> forall n :: 0 <= n < |s.stored| ==> Carried(s, n) }

  ghost predicate AboutToNotify(s: State) { exists p :: 0 <= p < |s.producers| && s.producers[p].Notifying? }

  predicate RunnerActive(s: State) { s.runner.Flushing? || s.runner.Forwarding? || s.runner.PuttingBack? }

  /** A map that is not empty has a token, an active forwarder or a producer about to signal, until the stop. */
  ghost predicate SomeoneComes(s: State) {
    s.latest != map[] ==> s.stopped || s.token || RunnerActive(s) || AboutToNotify(s)
  }

  lemma StopOrderProducer(s: State, step: Step)
    requires StopOrder(s) && OfProducer(step) && ProducerNext(s, step).Some?
    ensures StopOrder(ProducerNext(s, step).value)
  {
  }

  lemma StopOrderStopper(s: State, step: Step)
    requires StopOrder(s) && OfStopper(step) && StopperNext(s, step).Some?
    ensures StopOrder(StopperNext(s, step).value)
  {
  }

  lemma StopOrderRunner(s: State, step: Step)
    requires StopOrder(s) && OfRunner(step) && RunnerNext(s, step).Some?
    ensures StopOrder(RunnerNext(s, step).value)
  {
  }

  lemma StopOrderStep(s: State, step: Step)
    requires StopOrder(s) && Next(s, step).Some?
    ensures StopOrder(Next(s, step).value)
  {
    hide StopOrder;
    hide SentOrdered;
    hide MapOrdered;
    hide FlightOrdered;
    hide ProducerNext;
    hide StopperNext;
    hide RunnerNext;
    if OfProducer(step) {
      StopOrderProducer(s, step);
    } else if OfStopper(step) {
      StopOrderStopper(s, step);
    } else {
      StopOrderRunner(s, step);
    }
  }

  lemma ComesStep(s: State, step: Step)
    requires StopOrder(s) && SomeoneComes(s) && Next(s, step).Some?
    ensures SomeoneComes(Next(s, step).value)
  {
    var s' := Next(s, step).value;
    if AboutToNotify(s) {
      var p :| 0 <= p < |s.producers| && s.producers[p].Notifying?;
      assert s'.producers[p].Notifying? || s'.token;
    }
    if step.Write? {
      assert s'.producers[step.p].Notifying?;
    }
  }

  lemma SentStep(s: State, step: Step)
    requires Ordered(s) && Next(s, step).Some?
    ensures SentOrdered(Next(s, step).value)
  {
  }

  lemma MapProducer(s: State, step: Step)
    requires Ordered(s) && StopOrder(s) && OfProducer(step) && ProducerNext(s, step).Some?
    ensures MapOrdered(ProducerNext(s, step).value)
  {
  }

  lemma MapStopper(s: State, step: Step)
    requires Ordered(s) && StopOrder(s) && OfStopper(step) && StopperNext(s, step).Some?
    ensures MapOrdered(StopperNext(s, step).value)
  {
  }

  lemma MapShrinks(s: State, s': State)
    requires MapOrdered(s) && s'.latest.Keys <= s.latest.Keys && s'.sent == s.sent && s'.stored == s.stored
    requires forall key :: key in s'.latest ==> s'.latest[key] == s.latest[key]
    ensures MapOrdered(s')
  {
  }

  lemma MapForward(s: State)
    requires Ordered(s) && s.runner.Forwarding?
    ensures MapOrdered(s.(runner := Flushing, sent := s.sent + [s.runner.n]))
  {
    assert InFlight(s) == Some(s.runner.n);
  }

  lemma MapRunner(s: State, step: Step)
    requires Ordered(s) && StopOrder(s) && OfRunner(step) && RunnerNext(s, step).Some?
    ensures MapOrdered(RunnerNext(s, step).value)
  {
    hide MapOrdered;
    if step.Forward? {
      MapForward(s);
    } else {
      MapShrinks(s, RunnerNext(s, step).value);
    }
  }

  lemma MapStep(s: State, step: Step)
    requires Ordered(s) && StopOrder(s) && Next(s, step).Some?
    ensures MapOrdered(Next(s, step).value)
  {
    hide StopOrder;
    hide SentOrdered;
    hide MapOrdered;
    hide FlightOrdered;
    hide ProducerNext;
    hide StopperNext;
    hide RunnerNext;
    if OfProducer(step) {
      MapProducer(s, step);
    } else if OfStopper(step) {
      MapStopper(s, step);
    } else {
      MapRunner(s, step);
    }
  }

  lemma FlightProducer(s: State, step: Step)
    requires Ordered(s) && StopOrder(s) && OfProducer(step) && ProducerNext(s, step).Some?
    ensures FlightOrdered(ProducerNext(s, step).value)
  {
  }

  lemma FlightStopper(s: State, step: Step)
    requires Ordered(s) && StopOrder(s) && OfStopper(step) && StopperNext(s, step).Some?
    ensures FlightOrdered(StopperNext(s, step).value)
  {
  }

  lemma FlightRunner(s: State, step: Step)
    requires Ordered(s) && StopOrder(s) && OfRunner(step) && RunnerNext(s, step).Some?
    ensures FlightOrdered(RunnerNext(s, step).value)
  {
  }

  lemma FlightStep(s: State, step: Step)
    requires Ordered(s) && StopOrder(s) && Next(s, step).Some?
    ensures FlightOrdered(Next(s, step).value)
  {
    hide StopOrder;
    hide SentOrdered;
    hide MapOrdered;
    hide FlightOrdered;
    hide ProducerNext;
    hide StopperNext;
    hide RunnerNext;
    if OfProducer(step) {
      FlightProducer(s, step);
    } else if OfStopper(step) {
      FlightStopper(s, step);
    } else {
      FlightRunner(s, step);
    }
  }

  lemma HistoryGrows(s: State, step: Step)
    requires Next(s, step).Some?
    ensures var s' := Next(s, step).value; s.stored <= s'.stored && s.sent <= s'.sent
  {
  }

  lemma SentCarried(s: State, s': State, n: nat)
    requires s.stored <= s'.stored && s.sent <= s'.sent && n < |s.stored| && NewerSent(s, n)
    ensures NewerSent(s', n)
  {
    var a :| 0 <= a < |s.sent| && n <= s.sent[a] < |s.stored| && s.stored[s.sent[a]] == s.stored[n];
    assert s'.sent[a] == s.sent[a];
  }

  lemma FlightCarried(s: State, step: Step, n: nat)
    requires StopOrder(s) && Next(s, step).Some? && n < |s.stored|
    requires InFlight(s).Some? && n <= InFlight(s).value < |s.stored| && s.stored[InFlight(s).value] == s.stored[n]
    ensures var s' := Next(s, step).value; s.stored <= s'.stored && (!s'.stopped ==> Carried(s', n))
  {
    var s' := Next(s, step).value;
    HistoryGrows(s, step);
    if step.Forward? {
      assert s'.sent[|s.sent|] == s.runner.n;
    }
  }

  lemma MapCarried(s: State, step: Step, n: nat)
    requires MapOrdered(s) && StopOrder(s) && Next(s, step).Some? && n < |s.stored|
    requires s.stored[n] in s.latest && n <= s.latest[s.stored[n]]
    ensures var s' := Next(s, step).value; s.stored <= s'.stored && (!s'.stopped ==> Carried(s', n))
  {
    hide NewerSent;
    HistoryGrows(s, step);
  }

  lemma CarriedStep(s: State, step: Step, n: nat)
    requires Ordered(s) && StopOrder(s) && Next(s, step).Some? && n < |s.stored| && Carried(s, n)
    ensures var s' := Next(s, step).value; s.stored <= s'.stored && (!s'.stopped ==> Carried(s', n))
  {
    hide Next;
    hide StopOrder;
    hide MapOrdered;
    hide FlightOrdered;
    hide SentOrdered;
    hide NewerSent;
    HistoryGrows(s, step);
    if NewerSent(s, n) {
      SentCarried(s, Next(s, step).value, n);
    } else if s.stored[n] in s.latest && n <= s.latest[s.stored[n]] {
      MapCarried(s, step, n);
    } else {
      FlightCarried(s, step, n);
    }
  }

  lemma NewestStep(s: State, step: Step)
    requires Ordered(s) && StopOrder(s) && NewestCarried(s) && Next(s, step).Some?
    ensures NewestCarried(Next(s, step).value)
  {
    hide Ordered;
    hide StopOrder;
    hide Carried;
    var s' := Next(s, step).value;
    if !s'.stopped {
      forall n | 0 <= n < |s'.stored| ensures Carried(s', n) {
        if n < |s.stored| {
          CarriedStep(s, step, n);
        } else {
          WrittenIsCarried(s, step);
        }
      }
    }
  }

  lemma WrittenIsCarried(s: State, step: Step)
    requires Next(s, step).Some? && |Next(s, step).value.stored| > |s.stored|
    ensures Next(s, step).value.stored[..|s.stored|] == s.stored && |Next(s, step).value.stored| == |s.stored| + 1
    ensures Carried(Next(s, step).value, |s.stored|)
  {
  }

  ghost predicate Inv(s: State) { StopOrder(s) && Ordered(s) && NewestCarried(s) && SomeoneComes(s) }

  lemma StepKeeps(s: State, step: Step)
    requires Inv(s) && Next(s, step).Some?
    ensures Inv(Next(s, step).value)
  {
    hide Next;
    hide StopOrder;
    hide SentOrdered;
    hide MapOrdered;
    hide FlightOrdered;
    hide NewestCarried;
    hide SomeoneComes;
    StopOrderStep(s, step);
    SentStep(s, step);
    MapStep(s, step);
    FlightStep(s, step);
    NewestStep(s, step);
    ComesStep(s, step);
  }

  lemma InitInv(producers: nat, stoppers: nat)
    ensures Inv(Init(producers, stoppers))
  {
  }

  lemma {:induction false} ReachedStates(producers: nat, stoppers: nat, steps: seq<Step>)
    requires Execute(Init(producers, stoppers), steps).Some?
    ensures Inv(Execute(Init(producers, stoppers), steps).value)
  {
    hide Next;
    hide Inv;
    if steps == [] {
      InitInv(producers, stoppers);
    } else {
      ReachedStates(producers, stoppers, steps[..|steps| - 1]);
      StepKeeps(Execute(Init(producers, stoppers), steps[..|steps| - 1]).value, steps[|steps| - 1]);
    }
  }

  // ---- What every run keeps ----

  /** Per key the forwarded ticks are a subsequence of those submitted: later ones have higher numbers. */
  lemma ForwardedIsSubsequence(producers: nat, stoppers: nat, steps: seq<Step>)
    requires Execute(Init(producers, stoppers), steps).Some?
    ensures SentOrdered(Execute(Init(producers, stoppers), steps).value)
  {
    hide Execute;
    hide Init;
    ReachedStates(producers, stoppers, steps);
  }

  /**
   Before the stop, a forwarder asleep without a token or a producer about to signal has an empty
   map, and of every submission it forwarded that tick or a newer one of the same key.
   */
  lemma QuietMeansForwarded(producers: nat, stoppers: nat, steps: seq<Step>)
    requires Execute(Init(producers, stoppers), steps).Some?
    ensures var s := Execute(Init(producers, stoppers), steps).value;
      !s.stopped && s.runner.Selecting? && !s.token && !AboutToNotify(s) ==>
        s.latest == map[] && forall n :: 0 <= n < |s.stored| ==> NewerSent(s, n)
  {
    hide Execute;
    hide Init;
    ReachedStates(producers, stoppers, steps);
    var s := Execute(Init(producers, stoppers), steps).value;
    if !s.stopped && s.runner.Selecting? && !s.token && !AboutToNotify(s) {
      forall n | 0 <= n < |s.stored| ensures NewerSent(s, n) {
        assert Carried(s, n);
      }
    }
  }

  /** The put-back never overwrites a newer tick: by the time it can run the stop is in force, and it writes nothing. */
  lemma PutBackWritesNothing(producers: nat, stoppers: nat, steps: seq<Step>)
    requires Execute(Init(producers, stoppers), steps + [PutBack]).Some?
    ensures Execute(Init(producers, stoppers), steps).Some?
    ensures Execute(Init(producers, stoppers), steps + [PutBack]).value.latest == Execute(Init(producers, stoppers), steps).value.latest
  {
    hide Init;
    hide Inv;
    assert (steps + [PutBack])[..|steps|] == steps;
    ReachedStates(producers, stoppers, steps);
    assert StopOrder(Execute(Init(producers, stoppers), steps).value) by { InvStops(Execute(Init(producers, stoppers), steps).value); }
  }

  lemma InvStops(s: State)
    requires Inv(s)
    ensures StopOrder(s)
  {
  }

  predicate Over(s: State) { exists c :: 0 <= c < |s.stoppers| && s.stoppers[c].Returned? }

  lemma OverStep(s: State, step: Step)
    requires StopOrder(s) && Over(s) && Next(s, step).Some?
    ensures var s' := Next(s, step).value; Over(s') && s'.latest == map[] == s.latest && s'.sent == s.sent
  {
    var c :| 0 <= c < |s.stoppers| && s.stoppers[c].Returned?;
    assert PastClear(s.stoppers[c]);
    assert Next(s, step).value.stoppers[c].Returned?;
  }

  /** Once a stop has returned, the map stays empty and nothing is forwarded, whatever late producers do. */
  lemma {:induction false} NothingAfterStop(producers: nat, stoppers: nat, steps: seq<Step>, more: seq<Step>)
    requires Execute(Init(producers, stoppers), steps).Some? && Over(Execute(Init(producers, stoppers), steps).value)
    requires Execute(Execute(Init(producers, stoppers), steps).value, more).Some?
    ensures var s, s' := Execute(Init(producers, stoppers), steps).value, Execute(Execute(Init(producers, stoppers), steps).value, more).value;
      Over(s') && StopOrder(s') && s'.latest == map[] && s'.sent == s.sent
  {
    hide Next;
    hide Init;
    hide Inv;
    hide StopOrder;
    hide Over;
    var s := Execute(Init(producers, stoppers), steps).value;
    if more == [] {
      ReachedStates(producers, stoppers, steps);
      InvStops(s);
      assert s.latest == map[] by { OverIsEmpty(s); }
    } else {
      var front := more[..|more| - 1];
      NothingAfterStop(producers, stoppers, steps, front);
      var before := Execute(s, front).value;
      OverStep(before, more[|more| - 1]);
      StopOrderStep(before, more[|more| - 1]);
    }
  }

  lemma OverIsEmpty(s: State)
    requires StopOrder(s) && Over(s)
    ensures s.latest == map[]
  {
    var c :| 0 <= c < |s.stoppers| && s.stoppers[c].Returned?;
    assert PastClear(s.stoppers[c]);
  }
}

/** Before the stop every tick submitted to the coalescer can be forwarded, or a newer one of its market. */
module IngressProgress {
  import opened Wrappers
  import opened Ingress
  import opened IngressProtocol

  // ---- What was submitted ----

  function One(b: bool): nat { if b then 1 else 0 }

  /** How many submissions of the market were begun, read off the steps. */
  function Begun(steps: seq<Step>, key: TickKey): nat {
    if steps == [] then 0
    else
      var step := steps[|steps| - 1];
      Begun(steps[..|steps| - 1], key) + One(step.Begin? && step.key == key)
  }

  function StoredOf(stored: seq<TickKey>, key: TickKey): nat {
    if stored == [] then 0 else StoredOf(stored[..|stored| - 1], key) + One(stored[|stored| - 1] == key)
  }

  predicate Holds(pc: Producer, key: TickKey) { (pc.Passed? || pc.Writing?) && pc.key == key }

  function HeldOf(producers: seq<Producer>, key: TickKey): nat {
    if producers == [] then 0 else HeldOf(producers[..|producers| - 1], key) + One(Holds(producers[|producers| - 1], key))
  }

  lemma {:induction false} HeldMove(producers: seq<Producer>, p: nat, pc: Producer, key: TickKey)
    requires p < |producers|
    ensures HeldOf(producers[p := pc], key) + One(Holds(producers[p], key)) == HeldOf(producers, key) + One(Holds(pc, key))
  {
    var front, last := producers[..|producers| - 1], |producers| - 1;
    if p < last {
      assert producers[p := pc][..last] == front[p := pc];
      HeldMove(front, p, pc, key);
    } else {
      assert producers[p := pc][..last] == front;
    }
  }

  /** Until the stop every submission begun is stored or in the hands of its producer. */
  predicate Kept(s: State, begun: nat, key: TickKey) { !s.stopped ==> StoredOf(s.stored, key) + HeldOf(s.producers, key) == begun }

  lemma KeptStep(s: State, step: Step, begun: nat, key: TickKey)
    requires Kept(s, begun, key) && Next(s, step).Some?
    ensures Kept(Next(s, step).value, begun + One(step.Begin? && step.key == key), key)
    ensures !Next(s, step).value.stopped ==> !s.stopped
  {
    hide HeldOf;
    if OfProducer(step) {
      var s' := Next(s, step).value;
      HeldMove(s.producers, step.p, s'.producers[step.p], key);
      if step.Write? {
        assert s'.stored[..|s.stored|] == s.stored;
      }
      hide StoredOf;
    } else if OfRunner(step) {
      hide StoredOf;
      RunnerFrame(s, step);
      hide RunnerNext;
    } else {
      hide StoredOf;
    }
  }

  lemma RunnerFrame(s: State, step: Step)
    requires OfRunner(step) && RunnerNext(s, step).Some?
    ensures var s' := RunnerNext(s, step).value; s'.stored == s.stored && s'.producers == s.producers && s'.stopped == s.stopped
  {
  }

  lemma {:induction false} NobodyHolds(n: nat, key: TickKey)
    ensures HeldOf(seq(n, _ => Producer.Resting), key) == 0
  {
    if n > 0 {
      assert seq(n, _ => Producer.Resting)[..n - 1] == seq(n - 1, _ => Producer.Resting);
      NobodyHolds(n - 1, key);
    }
  }

  lemma {:induction false} ReachedKept(producers: nat, stoppers: nat, steps: seq<Step>, key: TickKey)
    requires Execute(Init(producers, stoppers), steps).Some?
    ensures Kept(Execute(Init(producers, stoppers), steps).value, Begun(steps, key), key)
  {
    hide Next;
    hide Kept;
    if steps == [] {
      StartKept(producers, stoppers, key);
    } else {
      ReachedKept(producers, stoppers, steps[..|steps| - 1], key);
      KeptStep(Execute(Init(producers, stoppers), steps[..|steps| - 1]).value, steps[|steps| - 1], Begun(steps[..|steps| - 1], key), key);
    }
  }

  lemma StartKept(producers: nat, stoppers: nat, key: TickKey)
    ensures Kept(Init(producers, stoppers), 0, key)
  {
    NobodyHolds(producers, key);
  }

  // ---- At rest ----

  predicate AtRest(s: State) {
    s.runner.Selecting? && !s.token && forall p :: 0 <= p < |s.producers| ==> s.producers[p].Resting?
  }

  lemma {:induction false} RestingHoldsNothing(producers: seq<Producer>, key: TickKey)
    requires forall p :: 0 <= p < |producers| ==> producers[p].Resting?
    ensures HeldOf(producers, key) == 0
  {
    if producers != [] {
      RestingHoldsNothing(producers[..|producers| - 1], key);
    }
  }

  /** At rest before the stop every submission begun was stored, and of each the forwarder sent that tick or a newer one of its market. */
  lemma RestMeansForwarded(producers: nat, stoppers: nat, steps: seq<Step>, key: TickKey)
    requires Execute(Init(producers, stoppers), steps).Some?
    ensures var s := Execute(Init(producers, stoppers), steps).value;
      AtRest(s) && !s.stopped ==>
        StoredOf(s.stored, key) == Begun(steps, key) && forall n :: 0 <= n < |s.stored| ==> NewerSent(s, n)
  {
    hide Execute;
    hide Init;
    hide StoredOf;
    hide HeldOf;
    QuietMeansForwarded(producers, stoppers, steps);
    ReachedKept(producers, stoppers, steps, key);
    var s := Execute(Init(producers, stoppers), steps).value;
    if AtRest(s) && !s.stopped {
      RestingHoldsNothing(s.producers, key);
    }
  }

  // ---- Coming to rest ----

  function Rank(pc: Producer): nat {
    match pc
    case Resting => 0
    case Notifying => 3
    case Writing(_) => 6
    case Passed(_) => 7
  }

  function Ranks(producers: seq<Producer>): nat {
    if producers == [] then 0 else Ranks(producers[..|producers| - 1]) + Rank(producers[|producers| - 1])
  }

  lemma {:induction false} RanksMove(producers: seq<Producer>, p: nat, pc: Producer)
    requires p < |producers|
    ensures Ranks(producers[p := pc]) + Rank(producers[p]) == Ranks(producers) + Rank(pc)
  {
    var front, last := producers[..|producers| - 1], |producers| - 1;
    if p < last {
      assert producers[p := pc][..last] == front[p := pc];
      RanksMove(front, p, pc);
    } else {
      assert producers[p := pc][..last] == front;
    }
  }

  /** How much is left to do. */
  function Work(s: State): nat {
    Ranks(s.producers) + 2 * |s.latest| + (if s.token then 2 else 0)
    + (if s.runner.Flushing? then 1 else if s.runner.Forwarding? then 2 else 0)
  }

  predicate Moves(step: Step) {
    step.Acquire? || step.Write? || step.Notify? || step.Receive? || step.TakeNext? || step.Drained? || step.Forward?
  }

  lemma ProducerWorks(s: State, step: Step)
    requires OfProducer(step) && Moves(step) && !s.stopped && Next(s, step).Some?
    ensures Work(Next(s, step).value) < Work(s) && !Next(s, step).value.stopped
  {
    hide Ranks;
    RanksMove(s.producers, step.p, Next(s, step).value.producers[step.p]);
    if step.Write? {
      AtMostOneMore(s.latest, s.producers[step.p].key, |s.stored|);
    }
  }

  lemma AtMostOneMore(latest: map<TickKey, nat>, key: TickKey, n: nat)
    ensures |latest[key := n]| <= |latest| + 1
  {
    assert latest[key := n].Keys == latest.Keys + {key};
  }

  lemma RunnerWorks(s: State, step: Step)
    requires OfRunner(step) && Moves(step) && !s.stopped && Next(s, step).Some?
    ensures Work(Next(s, step).value) < Work(s) && !Next(s, step).value.stopped
  {
    hide Ranks;
    if step.TakeNext? {
      assert (s.latest - {step.key}).Keys == s.latest.Keys - {step.key};
      assert |s.latest.Keys - {step.key}| == |s.latest.Keys| - 1;
    }
  }

  /** Before the stop, and until it is at rest, the coalescer can go on. */
  lemma CoalescerGoesOn(s: State) returns (step: Step)
    requires StopOrder(s) && !s.stopped && !AtRest(s)
    ensures Moves(step) && Next(s, step).Some?
  {
    if s.lock.Some? {
      step := Write(s.lock.value);
    } else if p :| 0 <= p < |s.producers| && !s.producers[p].Resting? {
      step := if s.producers[p].Notifying? then Notify(p) else Acquire(p);
    } else {
      match s.runner {
        case Selecting => step := Receive;
        case Flushing =>
          if s.latest == map[] {
            step := Drained;
          } else {
            assert s.latest.Keys != {};
            var key :| key in s.latest;
            step := TakeNext(key);
          }
        case Forwarding(_) => step := Forward;
      }
    }
  }

  /** From every reached state before the stop it can come to rest by itself, so every tick submitted can be forwarded or overtaken. */
  lemma {:induction false} CoalescerComesToRest(producers: nat, stoppers: nat, steps: seq<Step>) returns (more: seq<Step>)
    requires Execute(Init(producers, stoppers), steps).Some? && !Execute(Init(producers, stoppers), steps).value.stopped
    ensures Execute(Init(producers, stoppers), steps + more).Some? && forall step :: step in more ==> Moves(step)
    ensures var s := Execute(Init(producers, stoppers), steps + more).value; AtRest(s) && !s.stopped
    decreases Work(Execute(Init(producers, stoppers), steps).value)
  {
    hide Next;
    hide Init;
    hide Work;
    hide AtRest;
    hide Inv;
    var s := Execute(Init(producers, stoppers), steps).value;
    if AtRest(s) {
      more := [];
      assert steps + more == steps;
    } else {
      ReachedStates(producers, stoppers, steps);
      InvStops(s);
      var step := CoalescerGoesOn(s);
      if OfProducer(step) {
        ProducerWorks(s, step);
      } else {
        RunnerWorks(s, step);
      }
      assert (steps + [step])[..|steps|] == steps;
      var rest := CoalescerComesToRest(producers, stoppers, steps + [step]);
      more := [step] + rest;
      assert steps + [step] + rest == steps + more;
    }
  }
}

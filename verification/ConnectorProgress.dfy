/** Callers of the connector manager get through: adding succeeds, the lock is freed, and stop-all reports. */
module ConnectorProgress {
  import opened Wrappers
  import opened Connectors
  import opened ConnectorProtocol

  lemma Then(s: State, steps: seq<Step>, step: Step)
    requires Execute(s, steps).Some?
    ensures Execute(s, steps + [step]) == Next(Execute(s, steps).value, step)
  {
    assert (steps + [step])[..|steps|] == steps;
  }

  // ---- The lock ----

  /** The lock belongs to a caller in the middle of its work. */
  predicate LockOwned(s: State) { s.lock.Some? ==> s.lock.value < |s.callers| && !s.callers[s.lock.value].Resting? }

  lemma OwnedStep(s: State, step: Step)
    requires LockHeld(s) && LockOwned(s) && Next(s, step).Some?
    ensures LockOwned(Next(s, step).value)
  {
  }

  lemma {:induction false} ReachedOwned(callers: nat, steps: seq<Step>)
    requires Execute(Init(callers), steps).Some?
    ensures LockOwned(Execute(Init(callers), steps).value)
  {
    hide Next;
    if steps != [] {
      ReachedOwned(callers, steps[..|steps| - 1]);
      ReachedStates(callers, steps[..|steps| - 1]);
      OwnedStep(Execute(Init(callers), steps[..|steps| - 1]).value, steps[|steps| - 1]);
    }
  }

  /** A caller in the middle of its work can take a step that brings it nearer to the end, where it gives back the lock. */
  lemma CallerMoves(s: State, c: nat) returns (step: Step)
    requires c < |s.callers| && !s.callers[c].Resting?
    ensures OfCaller(step) && step.c == c && Next(s, step).Some?
    ensures var next := Next(s, step).value;
      && |next.callers| == |s.callers| && next.stopped == s.stopped && CallerRank(next.callers[c]) < CallerRank(s.callers[c])
      && (next.callers[c].Resting? ==> next.lock.None?)
  {
    match s.callers[c] {
      case Starting(_) => step := Start(c);
      case Registering(_, _) => step := Register(c);
      case AddClearing(_, _) => step := Unregister(c);
      case RemoveClearing(_, _) => step := Unregister(c);
      case AddStopping(_, _) => step := TimeOut(c);
      case RemoveStopping(_, _) => step := TimeOut(c);
    }
  }

  lemma CallerFinishes(s: State, c: nat) returns (steps: seq<Step>)
    requires c < |s.callers| && !s.callers[c].Resting?
    ensures Execute(s, steps).Some? && Execute(s, steps).value.lock.None? && Execute(s, steps).value.stopped == s.stopped
    ensures forall step :: step in steps ==> OfCaller(step) && step.c == c
    decreases CallerRank(s.callers[c])
  {
    hide Next;
    var step := CallerMoves(s, c);
    var next := Next(s, step).value;
    var rest := [];
    if !next.callers[c].Resting? {
      rest := CallerFinishes(next, c);
    }
    FirstStep(s, step, rest);
    steps := [step] + rest;
  }

  function CallerRank(pc: Caller): nat {
    match pc
    case Resting => 0
    case Registering(_, _) => 1
    case Starting(_) => 2
    case AddClearing(_, _) => 3
    case RemoveClearing(_, _) => 3
    case _ => 4
  }

  lemma {:induction false} FirstStep(s: State, step: Step, rest: seq<Step>)
    requires Next(s, step).Some?
    ensures Execute(s, [step] + rest) == Execute(Next(s, step).value, rest)
  {
    hide Next;
    if rest == [] {
      assert [step] + rest == [step] && [step][..0] == [];
    } else {
      var front := rest[..|rest| - 1];
      FirstStep(s, step, front);
      assert ([step] + rest)[..|rest|] == [step] + front;
    }
  }

  /** Whoever holds the lock can give it back without waiting for a connector. */
  lemma LockCanBeFreed(callers: nat, steps: seq<Step>) returns (more: seq<Step>)
    requires Execute(Init(callers), steps).Some?
    ensures var s := Execute(Init(callers), steps).value;
      Execute(s, more).Some? && Execute(s, more).value.lock.None? && Execute(s, more).value.stopped == s.stopped
  {
    hide Next;
    ReachedOwned(callers, steps);
    var s := Execute(Init(callers), steps).value;
    if s.lock.Some? {
      more := CallerFinishes(s, s.lock.value);
    } else {
      more := [];
    }
  }

  // ---- Adding ----

  /** With the lock free and the manager not stopped a caller can put a new connector of any exchange in place of the old one. */
  lemma AddCanSucceed(s: State, c: nat, name: string) returns (steps: seq<Step>)
    requires Inv(s) && s.lock.None? && !s.stopped && c < |s.callers| && name != ""
    ensures Execute(s, steps).Some?
    ensures var s', id := Execute(s, steps).value, |s.names|;
      && s'.names == s.names + [name] && s'.entries == s.entries[name := id] && s'.lock.None?
      && s'.live == (if name in s.entries then s.live - {s.entries[name]} else s.live) + {id}
  {
    assert s.callers[c].Resting?;
    var freed: State;
    steps, freed := MakeRoom(s, c, name);
    Then(s, steps, Start(c));
    var started := Next(freed, Start(c)).value;
    Then(s, steps + [Start(c)], Register(c));
    var last := Next(started, Register(c)).value;
    steps := steps + [Start(c)] + [Register(c)];
    assert last.entries == s.entries[name := |s.names|];
  }

  lemma MakeRoom(s: State, c: nat, name: string) returns (steps: seq<Step>, freed: State)
    requires Inv(s) && s.lock.None? && !s.stopped && c < |s.callers| && s.callers[c].Resting? && name != ""
    ensures Execute(s, steps) == Some(freed) && freed.callers == s.callers[c := Starting(name)] && freed.names == s.names
    ensures freed.entries == s.entries - {name} && freed.lock == Some(c)
    ensures freed.live == if name in s.entries then s.live - {s.entries[name]} else s.live
  {
    Then(s, [], Add(c, name, false));
    var added := Next(s, Add(c, name, false)).value;
    steps := [] + [Add(c, name, false)];
    freed := added;
    if name in s.entries {
      var id := s.entries[name];
      Then(s, steps, Exit(id));
      var gone := Next(added, Exit(id)).value;
      Then(s, steps + [Exit(id)], SeeStopped(c));
      var seen := Next(gone, SeeStopped(c)).value;
      Then(s, steps + [Exit(id)] + [SeeStopped(c)], Unregister(c));
      freed := Next(seen, Unregister(c)).value;
      steps := steps + [Exit(id)] + [SeeStopped(c)] + [Unregister(c)];
      assert freed.callers == s.callers[c := Starting(name)];
    }
  }

  // ---- Stopping ----

  /** Stop-all never waits for ever: it can report whatever the connectors do. */
  lemma {:induction false} StopAllCanReport(s: State) returns (steps: seq<Step>)
    requires s.stopAll.AwaitingAll?
    ensures Execute(s, steps).Some? && Execute(s, steps).value.stopAll.Reported? && Execute(s, steps).value.live == s.live
    decreases if s.stopAll.AwaitingAll? then |s.stopAll.waiting| else 0
  {
    if s.stopAll.waiting == {} {
      steps := [Report];
      Then(s, [], Report);
      assert [] + [Report] == [Report];
    } else {
      var id :| id in s.stopAll.waiting;
      var step := if id in s.live then OneTimedOut(id) else OneStopped(id);
      var rest := StopAllCanReport(Next(s, step).value);
      FirstStep(s, step, rest);
      steps := [step] + rest;
    }
  }
}

/**
 The connector manager at run time: any number of callers add and remove connectors, one stop-all
 runs, every wait may end by the connector or by the timeout, and a connector may end by itself.
 Adding and removing hold the lifecycle lock throughout; stop-all holds it only while it marks
 the manager stopped, and waits afterwards.
 */
module ConnectorProtocol {
  import opened Wrappers
  import opened Connectors

  datatype Caller =
    | Resting
    | AddStopping(name: string, id: nat)
    | AddClearing(name: string, id: nat)
    | Starting(name: string)
    | Registering(name: string, id: nat)
    | RemoveStopping(name: string, id: nat)
    | RemoveClearing(name: string, id: nat)

  datatype StopAll = NotCalled | AwaitingAll(waiting: set<nat>) | Reported

  datatype State = State(
    entries: map<string, nat>, stopped: bool, live: set<nat>, names: seq<string>, cancelled: set<nat>,
    lock: Option<nat>, callers: seq<Caller>, stopAll: StopAll, failed: set<nat>)

  datatype Step =
    | Add(c: nat, name: string, isNil: bool)
    | Remove(c: nat, name: string)
    | SeeStopped(c: nat)
    | TimeOut(c: nat)
    | Unregister(c: nat)
    | Start(c: nat)
    | Register(c: nat)
    | MarkStopped
    | OneStopped(id: nat)
    | OneTimedOut(id: nat)
    | Report
    | Exit(id: nat)

  function Init(callers: nat): State {
    State(map[], false, {}, [], {}, None, seq(callers, _ => Resting), NotCalled, {})
  }

  function Move(s: State, c: nat, pc: Caller): State
    requires c < |s.callers|
  {
    s.(callers := s.callers[c := pc])
  }

  /** The names are already trimmed and in upper case. */
  function CallerNext(s: State, step: Step): Option<State>
    requires !step.MarkStopped? && !step.OneStopped? && !step.OneTimedOut? && !step.Report? && !step.Exit?
  {
    if step.c >= |s.callers| then None
    else
      var c, pc := step.c, s.callers[step.c];
      match step
      case Add(_, name, isNil) =>
        if !pc.Resting? || s.lock.Some? then None
        else if name == "" || isNil || s.stopped then Some(s)
        else if name in s.entries then
          Some(Move(s, c, AddStopping(name, s.entries[name])).(lock := Some(c), cancelled := s.cancelled + {s.entries[name]}))
        else Some(Move(s, c, Starting(name)).(lock := Some(c)))
      case Remove(_, name) =>
        if !pc.Resting? || s.lock.Some? then None
        else if name == "" || s.stopped || name !in s.entries then Some(s)
        else Some(Move(s, c, RemoveStopping(name, s.entries[name])).(lock := Some(c), cancelled := s.cancelled + {s.entries[name]}))
      case SeeStopped(_) =>
        if pc.AddStopping? && pc.id !in s.live then Some(Move(s, c, AddClearing(pc.name, pc.id)))
        else if pc.RemoveStopping? && pc.id !in s.live then Some(Move(s, c, RemoveClearing(pc.name, pc.id)))
        else None
      case TimeOut(_) =>
        if pc.AddStopping? || pc.RemoveStopping? then Some(Move(s, c, Resting).(lock := None)) else None
      case Unregister(_) =>
        if pc.AddClearing? then
          Some(Move(s, c, Starting(pc.name)).(entries := if Get(s.entries, pc.name) == Some(pc.id) then s.entries - {pc.name} else s.entries))
        else if pc.RemoveClearing? then
          Some(Move(s, c, Resting).(lock := None,
                                    entries := if Get(s.entries, pc.name) == Some(pc.id) then s.entries - {pc.name} else s.entries))
        else None
      case Start(_) =>
        if pc.Starting? then
          Some(Move(s, c, Registering(pc.name, |s.names|)).(names := s.names + [pc.name], live := s.live + {|s.names|}))
        else None
      case Register(_) =>
        if pc.Registering? then Some(Move(s, c, Resting).(lock := None, entries := s.entries[pc.name := pc.id])) else None
  }

  function Ids(entries: map<string, nat>): set<nat> { set name | name in entries :: entries[name] }

  function Next(s: State, step: Step): Option<State> {
    match step
    case MarkStopped =>
      if s.stopAll.NotCalled? && s.lock.None? then
        Some(s.(stopped := true, entries := map[], stopAll := AwaitingAll(Ids(s.entries)), cancelled := s.cancelled + Ids(s.entries)))
      else None
    case OneStopped(id) =>
      if s.stopAll.AwaitingAll? && id in s.stopAll.waiting && id !in s.live then
        Some(s.(stopAll := AwaitingAll(s.stopAll.waiting - {id})))
      else None
    case OneTimedOut(id) =>
      if s.stopAll.AwaitingAll? && id in s.stopAll.waiting then
        Some(s.(stopAll := AwaitingAll(s.stopAll.waiting - {id}), failed := s.failed + {id}))
      else None
    case Report => if s.stopAll.AwaitingAll? && s.stopAll.waiting == {} then Some(s.(stopAll := Reported)) else None
    case Exit(id) => Some(s.(live := s.live - {id}))
    case _ => CallerNext(s, step)
  }

  function Execute(s: State, steps: seq<Step>): Option<State> {
    if steps == [] then Some(s)
    else
      var before := Execute(s, steps[..|steps| - 1]);
      if before.None? then None else Next(before.value, steps[|steps| - 1])
  }

  // ---- The invariant ----

  predicate CallerSound(s: State, c: nat)
    requires c < |s.callers|
  {
    match s.callers[c]
    case Resting => true
    case AddStopping(name, id) => Get(s.entries, name) == Some(id)
    case RemoveStopping(name, id) => Get(s.entries, name) == Some(id)
    case AddClearing(name, id) => Get(s.entries, name) == Some(id) && id !in s.live
    case RemoveClearing(name, id) => Get(s.entries, name) == Some(id) && id !in s.live
    case Starting(name) => name !in s.entries
    case Registering(name, id) => name !in s.entries && id < |s.names| && s.names[id] == name
  }

  /** A caller in the middle of its work holds the lock, and the manager is not stopped. */
  predicate LockHeld(s: State) {
    && (forall c :: 0 <= c < |s.callers| && !s.callers[c].Resting? ==> s.lock == Some(c) && !s.stopped)
    && (forall c :: 0 <= c < |s.callers| ==> CallerSound(s, c))
  }

  /** A connector started but not yet registered. */
  predicate InHand(s: State, id: nat) {
    s.lock.Some? && s.lock.value < |s.callers| && s.callers[s.lock.value].Registering? && s.callers[s.lock.value].id == id
  }

  ghost predicate EntriesSound(s: State) {
    && (forall id :: id in s.live ==> id < |s.names|)
    && (forall name :: name in s.entries ==> s.entries[name] < |s.names| && s.names[s.entries[name]] == name)
    && (s.stopped ==> s.entries == map[])
  }

  /** Until stop-all, every running connector is the registered one of its exchange, or is about to be. */
  ghost predicate Tracked(s: State) {
    !s.stopped ==> forall id :: id in s.live && id < |s.names| ==> Get(s.entries, s.names[id]) == Some(id) || InHand(s, id)
  }

  /** After stop-all marked the manager, every running connector is waited for or reported as failed. */
  ghost predicate Awaited(s: State) {
    && (s.stopped <==> !s.stopAll.NotCalled?)
    && (s.stopAll.AwaitingAll? ==> forall id :: id in s.live ==> id in s.stopAll.waiting || id in s.failed)
    && (s.stopAll.Reported? ==> forall id :: id in s.live ==> id in s.failed)
  }

  ghost predicate Inv(s: State) { LockHeld(s) && EntriesSound(s) && Tracked(s) && OnePerName(s.live, s.names) && Awaited(s) }

  predicate OfCaller(step: Step) {
    step.Add? || step.Remove? || step.SeeStopped? || step.TimeOut? || step.Unregister? || step.Start? || step.Register?
  }

  /** A caller that moves is the only one that is not at rest. */
  lemma OnlyOneMoves(s: State, step: Step)
    requires LockHeld(s) && OfCaller(step) && Next(s, step).Some?
    ensures step.c < |s.callers| && CallerSound(s, step.c)
    ensures var s' := Next(s, step).value;
      && |s'.callers| == |s.callers|
      && forall d :: 0 <= d < |s.callers| && d != step.c ==> s'.callers[d] == s.callers[d] == Resting
  {
    var c := step.c;
    assert s.callers[c] == s.callers[c];
  }

  lemma LockStep(s: State, step: Step)
    requires LockHeld(s) && EntriesSound(s) && Next(s, step).Some?
    ensures LockHeld(Next(s, step).value)
  {
    var s' := Next(s, step).value;
    if OfCaller(step) {
      OnlyOneMoves(s, step);
      assert CallerSound(s', step.c);
    } else {
      assert s'.callers == s.callers;
      forall c | 0 <= c < |s'.callers| ensures CallerSound(s', c) {
        assert CallerSound(s, c);
      }
    }
  }

  lemma EntriesStep(s: State, step: Step)
    requires LockHeld(s) && EntriesSound(s) && Next(s, step).Some?
    ensures EntriesSound(Next(s, step).value)
  {
    if OfCaller(step) {
      OnlyOneMoves(s, step);
    }
  }

  lemma TrackedStep(s: State, step: Step)
    requires LockHeld(s) && EntriesSound(s) && Tracked(s) && Next(s, step).Some?
    ensures Tracked(Next(s, step).value)
  {
    var s' := Next(s, step).value;
    if OfCaller(step) {
      OnlyOneMoves(s, step);
      if !s'.stopped {
        forall id | id in s'.live && id < |s'.names| ensures Get(s'.entries, s'.names[id]) == Some(id) || InHand(s', id) {
          if id in s.live {
            assert s'.names[id] == s.names[id];
            assert Get(s.entries, s.names[id]) == Some(id) || InHand(s, id);
          }
        }
      }
    }
  }

  lemma OneStep(s: State, step: Step)
    requires LockHeld(s) && EntriesSound(s) && Tracked(s) && OnePerName(s.live, s.names) && Next(s, step).Some?
    ensures OnePerName(Next(s, step).value.live, Next(s, step).value.names)
  {
    var s' := Next(s, step).value;
    if step.Start? {
      OnlyOneMoves(s, step);
      forall id | id in s.live ensures s.names[id] != s.callers[step.c].name {
        assert Get(s.entries, s.names[id]) == Some(id) || InHand(s, id);
      }
    } else {
      assert s'.live <= s.live && s'.names == s.names;
    }
  }

  lemma AwaitedStep(s: State, step: Step)
    requires LockHeld(s) && EntriesSound(s) && Tracked(s) && Awaited(s) && Next(s, step).Some?
    ensures Awaited(Next(s, step).value)
  {
  }

  lemma StepKeeps(s: State, step: Step)
    requires Inv(s) && Next(s, step).Some?
    ensures Inv(Next(s, step).value)
  {
    hide Next;
    hide LockHeld;
    hide EntriesSound;
    hide Tracked;
    hide OnePerName;
    hide Awaited;
    LockStep(s, step);
    EntriesStep(s, step);
    TrackedStep(s, step);
    OneStep(s, step);
    AwaitedStep(s, step);
  }

  lemma InitInv(callers: nat)
    ensures Inv(Init(callers))
  {
  }

  lemma {:induction false} ReachedStates(callers: nat, steps: seq<Step>)
    requires Execute(Init(callers), steps).Some?
    ensures Inv(Execute(Init(callers), steps).value)
  {
    hide Next;
    hide Inv;
    if steps == [] {
      InitInv(callers);
    } else {
      ReachedStates(callers, steps[..|steps| - 1]);
      StepKeeps(Execute(Init(callers), steps[..|steps| - 1]).value, steps[|steps| - 1]);
    }
  }

  // ---- What every run keeps ----

  /**
   In every interleaving: at most one connector runs per exchange, even when a stop timed out;
   and until stop-all a running connector, timed out or not, is registered under its exchange
   (or its own AddConnector is about to register it).
   */
  lemma OneConnectorPerExchange(callers: nat, steps: seq<Step>)
    requires Execute(Init(callers), steps).Some?
    ensures var s := Execute(Init(callers), steps).value; OnePerName(s.live, s.names) && Tracked(s)
  {
    hide Execute;
    hide Init;
    hide OnePerName;
    hide Tracked;
    ReachedStates(callers, steps);
  }

  /** Once stop-all marked the manager, no connector starts. */
  lemma {:induction false} NoneStartsAfterStop(callers: nat, steps: seq<Step>, more: seq<Step>)
    requires Execute(Init(callers), steps).Some? && Execute(Init(callers), steps).value.stopped
    requires Execute(Execute(Init(callers), steps).value, more).Some?
    ensures var s, s' := Execute(Init(callers), steps).value, Execute(Execute(Init(callers), steps).value, more).value;
      s'.stopped && s'.names == s.names && s'.live <= s.live && Inv(s')
  {
    hide Next;
    hide Init;
    hide Inv;
    var s := Execute(Init(callers), steps).value;
    if more == [] {
      ReachedStates(callers, steps);
    } else {
      NoneStartsAfterStop(callers, steps, more[..|more| - 1]);
      var before, step := Execute(s, more[..|more| - 1]).value, more[|more| - 1];
      StepKeeps(before, step);
      StoppedStep(before, step);
    }
  }

  lemma StoppedStep(s: State, step: Step)
    requires Inv(s) && s.stopped && Next(s, step).Some?
    ensures var s' := Next(s, step).value; s'.stopped && s'.names == s.names && s'.live <= s.live
  {
    if OfCaller(step) {
      OnlyOneMoves(s, step);
    }
  }

  /** When stop-all reports no failure, no connector is running. */
  lemma CleanReportMeansNoneRuns(callers: nat, steps: seq<Step>)
    requires Execute(Init(callers), steps).Some?
    ensures var s := Execute(Init(callers), steps).value; s.stopAll.Reported? && s.failed == {} ==> s.live == {}
  {
    hide Execute;
    hide Init;
    ReachedStates(callers, steps);
  }
}

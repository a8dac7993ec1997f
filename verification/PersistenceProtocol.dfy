/**
 The one flushing worker interleaved with the tracker's writes, one critical section or one
 save at a time, and what is stored once the buffer has run empty.
 */
module PersistenceProtocol {
  import opened Wrappers
  import opened Domain
  import opened Persistence
  import opened Tracking

  /** The worker is between batches, or has saved the first `done` items of one. */
  datatype Phase = Idle | Saving(batch: seq<Item>, ages: seq<nat>, done: nat)

  /**
   `history` lists every snapshot accepted for a signal, oldest first; `rowAge` and `ages`
   record which of them a row or a batch item is.  These three only observe.
   */
  datatype State = State(items: Items, closed: bool, rows: map<nat, Signal>, phase: Phase,
                         history: map<nat, seq<Signal>>, rowAge: map<nat, nat>)

  datatype Step =
    | PutStep(signal: Signal)
    | CloseStep
    | TakeStep(batch: seq<Item>, limit: int)
    | SavedStep
    | FailedStep(written: bool)
    | AckStep

  const START := State(map[], false, map[], Idle, map[], map[])

  function Recorded(history: map<nat, seq<Signal>>, s: Signal): map<nat, seq<Signal>> {
    history[s.id := (if s.id in history then history[s.id] else []) + [s]]
  }

  function NewestAge(history: map<nat, seq<Signal>>, id: nat): nat {
    if id in history && history[id] != [] then |history[id]| - 1 else 0
  }

  predicate Enabled(st: State, step: Step) {
    match step
    case PutStep(_) => true
    case CloseStep => true
    case TakeStep(batch, limit) => st.phase.Idle? && batch != [] && IsBatch(st.items, limit, batch)
    case SavedStep => st.phase.Saving? && st.phase.done < |st.phase.batch| == |st.phase.ages|
    case FailedStep(_) => st.phase.Saving? && st.phase.done < |st.phase.batch| == |st.phase.ages|
    case AckStep => st.phase.Saving? && st.phase.done == |st.phase.batch|
  }

  function Next(st: State, step: Step): State
    requires Enabled(st, step)
  {
    match step
    case PutStep(s) =>
      if s.id == 0 || st.closed then st
      else st.(items := PutItem(st.items, s), history := Recorded(st.history, s))
    case CloseStep => st.(closed := true)
    case TakeStep(batch, _) =>
      st.(phase := Saving(batch, seq(|batch|, i requires 0 <= i < |batch| => NewestAge(st.history, batch[i].signal.id)), 0))
    case SavedStep => Written(st).(phase := st.phase.(done := st.phase.done + 1))
    case FailedStep(written) => (if written then Written(st) else st).(phase := Idle)
    case AckStep => st.(items := AckItems(st.items, st.phase.batch), phase := Idle)
  }

  function Written(st: State): State
    requires st.phase.Saving? && st.phase.done < |st.phase.batch| == |st.phase.ages|
  {
    var s := st.phase.batch[st.phase.done].signal;
    st.(rows := st.rows[s.id := s], rowAge := st.rowAge[s.id := st.phase.ages[st.phase.done]])
  }

  // ---- The invariant ----

  /** A buffered item is the newest accepted snapshot of its signal. */
  predicate ItemOk(st: State, id: nat) {
    id in st.items ==>
      && id in st.history && st.history[id] != []
      && st.items[id].signal == st.history[id][NewestAge(st.history, id)] && st.items[id].signal.id == id
  }

  /** The newest snapshot is buffered or stored. */
  predicate Safe(st: State, id: nat) {
    id in st.history ==>
      && st.history[id] != []
      && (id in st.items || (id in st.rows && Get(st.rowAge, id) == Some(NewestAge(st.history, id))))
  }

  /** A row is one of the accepted snapshots of its signal. */
  predicate RowOk(st: State, id: nat)
    requires st.rows.Keys == st.rowAge.Keys
  {
    id in st.rows ==> id in st.history && st.rowAge[id] < |st.history[id]| && st.rows[id] == st.history[id][st.rowAge[id]]
  }

  /**
   An item being saved is still buffered at its version or a later one, is one of the accepted
   snapshots, is the newest if its version is unchanged, and is no older than the row it replaces.
   */
  predicate SavingOk(st: State, i: nat)
    requires st.rows.Keys == st.rowAge.Keys && st.phase.Saving? && i < |st.phase.batch| == |st.phase.ages|
  {
    var item, age := st.phase.batch[i], st.phase.ages[i];
    var id := item.signal.id;
    && id in st.items && id in st.history && item.version <= st.items[id].version
    && age < |st.history[id]| && st.history[id][age] == item.signal
    && (item.version == st.items[id].version ==> age == NewestAge(st.history, id))
    && (id in st.rows ==> st.rowAge[id] <= age)
    && (i < st.phase.done ==> id in st.rows && st.rowAge[id] == age)
  }

  ghost predicate Inv(st: State) {
    && st.rows.Keys == st.rowAge.Keys
    && (forall id :: ItemOk(st, id))
    && (forall id :: Safe(st, id))
    && (forall id :: RowOk(st, id))
    && (st.phase.Saving? ==>
          && st.phase.done <= |st.phase.batch| == |st.phase.ages|
          && (forall i, j :: 0 <= i < j < |st.phase.batch| ==> st.phase.batch[i].signal.id != st.phase.batch[j].signal.id)
          && (forall i :: 0 <= i < |st.phase.batch| ==> SavingOk(st, i)))
  }

  lemma StartInv()
    ensures Inv(START)
  {
  }

  lemma PutInv(st: State, s: Signal)
    requires Inv(st)
    ensures Inv(Next(st, PutStep(s)))
  {
    var st' := Next(st, PutStep(s));
    forall id ensures ItemOk(st', id) && Safe(st', id) && RowOk(st', id) {
      assert ItemOk(st, id) && Safe(st, id) && RowOk(st, id);
    }
    if st.phase.Saving? {
      forall i | 0 <= i < |st.phase.batch| ensures SavingOk(st', i) {
        assert SavingOk(st, i);
      }
    }
  }

  lemma TakeInv(st: State, batch: seq<Item>, limit: int)
    requires Inv(st) && Enabled(st, TakeStep(batch, limit))
    ensures Inv(Next(st, TakeStep(batch, limit)))
  {
    var st' := Next(st, TakeStep(batch, limit));
    forall id ensures ItemOk(st', id) && Safe(st', id) && RowOk(st', id) {
      assert ItemOk(st, id) && Safe(st, id) && RowOk(st, id);
    }
    forall i | 0 <= i < |batch| ensures SavingOk(st', i) {
      var id := batch[i].signal.id;
      assert ItemOk(st, id) && RowOk(st, id);
    }
  }

  lemma WrittenKeeps(st: State)
    requires Inv(st) && Enabled(st, SavedStep)
    ensures var st' := Written(st);
      && st'.rows.Keys == st'.rowAge.Keys
      && forall id :: ItemOk(st', id) && Safe(st', id) && RowOk(st', id)
  {
    var st' := Written(st);
    assert SavingOk(st, st.phase.done);
    forall id ensures ItemOk(st', id) && Safe(st', id) && RowOk(st', id) {
      assert ItemOk(st, id) && Safe(st, id) && RowOk(st, id);
    }
  }

  lemma SavedInv(st: State)
    requires Inv(st) && Enabled(st, SavedStep)
    ensures Inv(Next(st, SavedStep))
  {
    WrittenKeeps(st);
    var st', w := Next(st, SavedStep), Written(st);
    forall id ensures ItemOk(st', id) && Safe(st', id) && RowOk(st', id) {
      assert ItemOk(w, id) && Safe(w, id) && RowOk(w, id);
    }
    forall i | 0 <= i < |st'.phase.batch| ensures SavingOk(st', i) {
      assert SavingOk(st, i) && SavingOk(st, st.phase.done);
    }
  }

  lemma FailedInv(st: State, written: bool)
    requires Inv(st) && Enabled(st, FailedStep(written))
    ensures Inv(Next(st, FailedStep(written)))
  {
    WrittenKeeps(st);
    var st', w := Next(st, FailedStep(written)), if written then Written(st) else st;
    forall id ensures ItemOk(st', id) && Safe(st', id) && RowOk(st', id) {
      assert ItemOk(w, id) && Safe(w, id) && RowOk(w, id);
    }
  }

  lemma AckInv(st: State)
    requires Inv(st) && Enabled(st, AckStep)
    ensures Inv(Next(st, AckStep))
  {
    var st' := Next(st, AckStep);
    forall id ensures ItemOk(st', id) && Safe(st', id) && RowOk(st', id) {
      assert ItemOk(st, id) && Safe(st, id) && RowOk(st, id);
      if id in st.items && id !in st'.items {
        var i :| 0 <= i < |st.phase.batch| && st.phase.batch[i].signal.id == id && st.phase.batch[i].version == st.items[id].version;
        assert SavingOk(st, i);
      }
    }
  }

  lemma StepInv(st: State, step: Step)
    requires Inv(st) && Enabled(st, step)
    ensures Inv(Next(st, step))
  {
    match step
    case PutStep(s) => PutInv(st, s);
    case CloseStep =>
      var st' := Next(st, step);
      forall id ensures ItemOk(st', id) && Safe(st', id) && RowOk(st', id) {
        assert ItemOk(st, id) && Safe(st, id) && RowOk(st, id);
      }
      if st.phase.Saving? {
        forall i | 0 <= i < |st.phase.batch| ensures SavingOk(st', i) {
          assert SavingOk(st, i);
        }
      }
    case TakeStep(batch, limit) => TakeInv(st, batch, limit);
    case SavedStep => SavedInv(st);
    case FailedStep(written) => FailedInv(st, written);
    case AckStep => AckInv(st);
  }

  // ---- Any interleaving ----

  function Execute(steps: seq<Step>): Option<State> {
    if steps == [] then Some(START)
    else
      match Execute(steps[..|steps| - 1])
      case None => None
      case Some(st) => if Enabled(st, steps[|steps| - 1]) then Some(Next(st, steps[|steps| - 1])) else None
  }

  predicate Reaches(steps: seq<Step>, st: State) { Execute(steps) == Some(st) }

  lemma {:induction false} ReachableInv(steps: seq<Step>, st: State)
    requires Reaches(steps, st)
    ensures Inv(st)
  {
    if steps == [] {
      StartInv();
    } else {
      var before := Execute(steps[..|steps| - 1]).value;
      ReachableInv(steps[..|steps| - 1], before);
      StepInv(before, steps[|steps| - 1]);
    }
  }

  /** In every reachable state the newest snapshot of every signal is in the buffer or in the repository. */
  lemma NoSnapshotLost(steps: seq<Step>, st: State, id: nat)
    requires Reaches(steps, st) && id in st.history
    ensures st.history[id] != []
    ensures var newest := st.history[id][|st.history[id]| - 1];
      (id in st.items && st.items[id].signal == newest) || Get(st.rows, id) == Some(newest)
  {
    ReachableInv(steps, st);
    assert ItemOk(st, id) && Safe(st, id) && RowOk(st, id);
  }

  /** No step, failed or half-done batches included, takes a row back to an older snapshot or removes it. */
  lemma RowsNeverGoBack(steps: seq<Step>, st: State, step: Step, id: nat)
    requires Reaches(steps, st) && Enabled(st, step) && id in st.rows
    ensures var st' := Next(st, step);
      && id in st.rowAge && id in st'.rows && id in st'.rowAge && st.rowAge[id] <= st'.rowAge[id]
      && id in st'.history && st'.rowAge[id] < |st'.history[id]| && st'.rows[id] == st'.history[id][st'.rowAge[id]]
  {
    ReachableInv(steps, st);
    StepInv(st, step);
    assert RowOk(st, id) && RowOk(Next(st, step), id);
    if step.SavedStep? || step.FailedStep? {
      assert SavingOk(st, st.phase.done);
    }
  }

  // ---- The buffer runs empty ----

  /** What the worker does in a flush whose saves succeed. */
  predicate Drains(step: Step) { step.TakeStep? || step.SavedStep? || step.AckStep? }

  /** An upper bound for the steps such flushes can still take. */
  function Remaining(st: State): int {
    if st.phase.Idle? then 3 * |st.items| else |st.phase.batch| - st.phase.done + 1 + 3 * |AckItems(st.items, st.phase.batch)|
  }

  lemma DrainStep(st: State, step: Step)
    requires Enabled(st, step) && Drains(step)
    ensures 0 <= Remaining(Next(st, step)) < Remaining(st)
  {
    hide AckItems;
    if step.TakeStep? {
      AckRemovesAll(st.items, step.limit, step.batch);
    }
  }

  function Ids(batch: seq<Item>): set<nat> { set item | item in batch :: item.signal.id }

  lemma {:induction false} IdsAreDistinct(batch: seq<Item>)
    requires forall i, j :: 0 <= i < j < |batch| ==> batch[i].signal.id != batch[j].signal.id
    ensures |Ids(batch)| == |batch|
  {
    if batch != [] {
      var front, last := batch[..|batch| - 1], batch[|batch| - 1];
      IdsAreDistinct(front);
      assert batch == front + [last];
      assert Ids(batch) == Ids(front) + {last.signal.id};
    }
  }

  /** Acknowledging a batch that did not change removes exactly its items. */
  lemma AckRemovesAll(items: Items, limit: int, batch: seq<Item>)
    requires IsBatch(items, limit, batch)
    ensures |AckItems(items, batch)| + |batch| == |items|
  {
    IdsAreDistinct(batch);
    var after := AckItems(items, batch);
    forall id | id in items ensures id in after <==> id !in Ids(batch) {
      if id in Ids(batch) {
        var i :| 0 <= i < |batch| && batch[i].signal.id == id;
        assert InBatch(batch, id, items[id].version);
      }
    }
    assert items.Keys == after.Keys + Ids(batch);
  }

  function ExecuteFrom(st: State, steps: seq<Step>): Option<State>
    decreases |steps|
  {
    if steps == [] then Some(st)
    else if Enabled(st, steps[0]) then ExecuteFrom(Next(st, steps[0]), steps[1..]) else None
  }

  /** With nobody writing and every save succeeding, the worker's rounds end: each batch makes the buffer smaller. */
  lemma {:induction false} DrainTerminates(st: State, steps: seq<Step>)
    requires ExecuteFrom(st, steps).Some? && forall i :: 0 <= i < |steps| ==> Drains(steps[i])
    requires st.phase.Saving? ==> st.phase.done <= |st.phase.batch|
    ensures |steps| <= Remaining(st)
    decreases |steps|
  {
    hide Remaining;
    if steps == [] {
      RemainingIsNat(st);
    } else {
      DrainStep(st, steps[0]);
      DrainTerminates(Next(st, steps[0]), steps[1..]);
    }
  }

  lemma RemainingIsNat(st: State)
    requires st.phase.Saving? ==> st.phase.done <= |st.phase.batch|
    ensures Remaining(st) >= 0
  {
  }

  /** Any number of the buffered items up to all of them can be taken. */
  lemma {:induction false} BatchOf(items: Items, n: nat) returns (batch: seq<Item>)
    requires n <= |items| && forall id :: id in items ==> items[id].signal.id == id
    ensures |batch| == n
    ensures forall i :: 0 <= i < |batch| ==> batch[i].signal.id in items && items[batch[i].signal.id] == batch[i]
    ensures forall i, j :: 0 <= i < j < |batch| ==> batch[i].signal.id != batch[j].signal.id
    decreases n
  {
    if n == 0 {
      batch := [];
    } else {
      assert items.Keys != {};
      var id :| id in items.Keys;
      var fewer := items - {id};
      assert fewer.Keys == items.Keys - {id};
      batch := BatchOf(fewer, n - 1);
      batch := batch + [items[id]];
    }
  }

  /** The rounds can always go on until the buffer is empty and the worker between batches. */
  lemma DrainGoesOn(st: State, limit: nat) returns (step: Step)
    requires Inv(st) && limit > 0 && (st.phase.Saving? || st.items != map[])
    ensures Drains(step) && Enabled(st, step) && (step.TakeStep? ==> step.limit == limit)
  {
    if st.phase.Saving? {
      step := if st.phase.done < |st.phase.batch| then SavedStep else AckStep;
    } else {
      assert forall id :: id in st.items ==> st.items[id].signal.id == id by { ItemsAreKeyed(st); }
      var n := if limit < |st.items| then limit else |st.items|;
      assert st.items.Keys != {};
      var batch := BatchOf(st.items, n);
      step := TakeStep(batch, limit);
    }
  }

  lemma ItemsAreKeyed(st: State)
    requires Inv(st)
    ensures forall id :: id in st.items ==> st.items[id].signal.id == id
  {
    forall id | id in st.items ensures st.items[id].signal.id == id {
      assert ItemOk(st, id);
    }
  }

  // ---- Two workers ----

  /** A buffer and a repository with any number of workers, each with its own phase. */
  datatype Crowd = Crowd(shared: State, phases: seq<Phase>)

  function CrowdNext(c: Crowd, w: nat, step: Step): Option<Crowd> {
    if w >= |c.phases| then None
    else
      var st := c.shared.(phase := c.phases[w]);
      if !Enabled(st, step) then None
      else
        var st' := Next(st, step);
        Some(Crowd(st'.(phase := Idle), c.phases[w := st'.phase]))
  }

  function CrowdRun(c: Crowd, steps: seq<(nat, Step)>): Option<Crowd>
    decreases |steps|
  {
    if steps == [] then Some(c)
    else
      var next := CrowdNext(c, steps[0].0, steps[0].1);
      if next.None? then None else CrowdRun(next.value, steps[1..])
  }

  lemma CrowdStep(c: Crowd, w: nat, step: Step, c': Crowd, rest: seq<(nat, Step)>)
    requires CrowdNext(c, w, step) == Some(c')
    ensures CrowdRun(c, [(w, step)] + rest) == CrowdRun(c', rest)
  {
    hide CrowdNext;
    var steps := [(w, step)] + rest;
    assert steps[0] == (w, step) && steps[1..] == rest;
  }

  /** A crowd of idle workers before anything was written. */
  function IdleCrowd(n: nat): Crowd { Crowd(START, seq(n, _ => Idle)) }

  /** Of every signal the newest accepted snapshot is buffered or stored. */
  predicate NothingLost(st: State) {
    forall id :: id in st.history ==> NewestKept(st, id)
  }

  predicate NewestKept(st: State, id: nat)
    requires id in st.history
  {
    st.history[id] != [] && var newest := st.history[id][|st.history[id]| - 1];
    (id in st.items && st.items[id].signal == newest) || Get(st.rows, id) == Some(newest)
  }

  /** No run of n workers ever loses a newest snapshot. */
  ghost predicate CrowdIsSafe(n: nat) {
    forall steps :: CrowdRun(IdleCrowd(n), steps).Some? ==> NothingLost(CrowdRun(IdleCrowd(n), steps).value.shared)
  }

  // ---- One worker ----

  lemma InvLosesNothing(st: State)
    requires Inv(st)
    ensures NothingLost(st)
  {
    forall id | id in st.history ensures NewestKept(st, id) {
      assert ItemOk(st, id) && Safe(st, id) && RowOk(st, id);
    }
  }

  lemma {:induction false} SmallCrowdKeeps(c: Crowd, steps: seq<(nat, Step)>)
    requires |c.phases| <= 1 && c.shared.phase.Idle?
    requires Inv(if c.phases == [] then c.shared else c.shared.(phase := c.phases[0])) && CrowdRun(c, steps).Some?
    ensures NothingLost(CrowdRun(c, steps).value.shared)
    decreases |steps|
  {
    hide Inv;
    hide NothingLost;
    if steps == [] {
      InvLosesNothing(if c.phases == [] then c.shared else c.shared.(phase := c.phases[0]));
      SameLoss(c.shared, if c.phases == [] then c.shared else c.shared.(phase := c.phases[0]));
    } else {
      var c' := CrowdNext(c, steps[0].0, steps[0].1).value;
      var st := c.shared.(phase := c.phases[0]);
      StepInv(st, steps[0].1);
      assert c'.shared.(phase := c'.phases[0]) == Next(st, steps[0].1);
      SmallCrowdKeeps(c', steps[1..]);
    }
  }

  lemma SameLoss(a: State, b: State)
    requires b == a.(phase := b.phase)
    ensures NothingLost(a) <==> NothingLost(b)
  {
    assert forall id :: id in a.history ==> (NewestKept(a, id) <==> NewestKept(b, id));
  }

  // ---- Two workers and more ----

  /** The phases when the first two workers are at x and y and the others idle. */
  function Pair(n: nat, x: Phase, y: Phase): (p: seq<Phase>)
    ensures |p| == n
    ensures n >= 2 ==> p[0] == x && p[1] == y
  {
    seq(n, i => if i == 0 then x else if i == 1 then y else Idle)
  }

  lemma PairMoves(n: nat, x: Phase, y: Phase, z: Phase)
    requires n >= 2
    ensures Pair(n, x, y)[0 := z] == Pair(n, z, y) && Pair(n, x, y)[1 := z] == Pair(n, x, z)
    ensures Pair(n, Idle, Idle) == seq(n, _ => Idle)
  {
  }

  /** Both take the first snapshot; one stores and acknowledges it; a second arrives; the other stores and acknowledges the first. */
  function LosingRun(a: Signal, b: Signal): seq<(nat, Step)> {
    var batch := [Item(1, a)];
    [(0, PutStep(a))] + ([(0, TakeStep(batch, 500))] + ([(1, TakeStep(batch, 500))] + ([(0, SavedStep)] + ([(0, AckStep)]
      + ([(0, PutStep(b))] + ([(1, SavedStep)] + ([(1, AckStep)] + [])))))))
  }

  /** One step of a worker, from its own phase to its own phase. */
  lemma PairStep(n: nat, st: State, x: Phase, y: Phase, w: nat, step: Step, st': State, z: Phase)
    requires n >= 2 && w < 2 && st.phase.Idle? && st'.phase.Idle?
    requires var own := st.(phase := if w == 0 then x else y); Enabled(own, step) && Next(own, step) == st'.(phase := z)
    ensures CrowdNext(Crowd(st, Pair(n, x, y)), w, step)
         == Some(Crowd(st', if w == 0 then Pair(n, z, y) else Pair(n, x, z)))
  {
    hide Enabled;
    hide Next;
    PairMoves(n, x, y, z);
    assert st'.(phase := z).(phase := Idle) == st';
  }

  /**
   With two or more workers a snapshot can be lost: after this run the newest snapshot of the signal
   is neither in the buffer nor in the repository.
   */
  lemma TwoWorkersLoseASnapshot(n: nat, a: Signal, b: Signal)
    requires n >= 2 && a.id == b.id != 0 && a != b
    ensures var end := CrowdRun(IdleCrowd(n), LosingRun(a, b));
      && end.Some? && end.value.shared.history == map[a.id := [a, b]]
      && end.value.shared.items == map[] && end.value.shared.rows == map[a.id := a]
  {
    hide CrowdRun;
    hide CrowdNext;
    hide Enabled;
    hide Next;
    var batch, id := [Item(1, a)], a.id;
    var items, items' := map[id := Item(1, a)], map[id := Item(1, b)];
    var taken, saved := Saving(batch, [0], 0), Saving(batch, [0], 1);
    var one, two := map[id := [a]], map[id := [a, b]];
    var rows, ages := map[id := a], map[id := 0];
    var s1 := State(items, false, map[], Idle, one, map[]);
    var s4 := State(items, false, rows, Idle, one, ages);
    var s5 := State(map[], false, rows, Idle, one, ages);
    var s6 := State(items', false, rows, Idle, two, ages);
    var s8 := State(map[], false, rows, Idle, two, ages);
    PairMoves(n, Idle, Idle, Idle);
    LosingSteps(a, b, s1, s4, s5, s6, s8);
    PairStep(n, START, Idle, Idle, 0, PutStep(a), s1, Idle);
    PairStep(n, s1, Idle, Idle, 0, TakeStep(batch, 500), s1, taken);
    PairStep(n, s1, taken, Idle, 1, TakeStep(batch, 500), s1, taken);
    PairStep(n, s1, taken, taken, 0, SavedStep, s4, saved);
    PairStep(n, s4, saved, taken, 0, AckStep, s5, Idle);
    PairStep(n, s5, Idle, taken, 0, PutStep(b), s6, Idle);
    PairStep(n, s6, Idle, taken, 1, SavedStep, s6, saved);
    PairStep(n, s6, Idle, saved, 1, AckStep, s8, Idle);
    var r8: seq<(nat, Step)> := [];
    var r7 := [(1 as nat, AckStep)] + r8;
    var r6 := [(1 as nat, SavedStep)] + r7;
    var r5 := [(0 as nat, PutStep(b))] + r6;
    var r4 := [(0 as nat, AckStep)] + r5;
    var r3 := [(0 as nat, SavedStep)] + r4;
    var r2 := [(1 as nat, TakeStep(batch, 500))] + r3;
    var r1 := [(0 as nat, TakeStep(batch, 500))] + r2;
    assert LosingRun(a, b) == [(0 as nat, PutStep(a))] + r1;
    CrowdStep(IdleCrowd(n), 0, PutStep(a), Crowd(s1, Pair(n, Idle, Idle)), r1);
    CrowdStep(Crowd(s1, Pair(n, Idle, Idle)), 0, TakeStep(batch, 500), Crowd(s1, Pair(n, taken, Idle)), r2);
    CrowdStep(Crowd(s1, Pair(n, taken, Idle)), 1, TakeStep(batch, 500), Crowd(s1, Pair(n, taken, taken)), r3);
    CrowdStep(Crowd(s1, Pair(n, taken, taken)), 0, SavedStep, Crowd(s4, Pair(n, saved, taken)), r4);
    CrowdStep(Crowd(s4, Pair(n, saved, taken)), 0, AckStep, Crowd(s5, Pair(n, Idle, taken)), r5);
    CrowdStep(Crowd(s5, Pair(n, Idle, taken)), 0, PutStep(b), Crowd(s6, Pair(n, Idle, taken)), r6);
    CrowdStep(Crowd(s6, Pair(n, Idle, taken)), 1, SavedStep, Crowd(s6, Pair(n, Idle, saved)), r7);
    CrowdStep(Crowd(s6, Pair(n, Idle, saved)), 1, AckStep, Crowd(s8, Pair(n, Idle, Idle)), r8);
    CrowdEnds(Crowd(s8, Pair(n, Idle, Idle)));
  }

  lemma CrowdEnds(c: Crowd)
    ensures CrowdRun(c, []) == Some(c)
  {
  }

  lemma LosingSteps(a: Signal, b: Signal, s1: State, s4: State, s5: State, s6: State, s8: State)
    requires a.id == b.id != 0
    requires s1 == State(map[a.id := Item(1, a)], false, map[], Idle, map[a.id := [a]], map[])
    requires s4 == s1.(rows := map[a.id := a], rowAge := map[a.id := 0]) && s5 == s4.(items := map[])
    requires s6 == s5.(items := map[a.id := Item(1, b)], history := map[a.id := [a, b]]) && s8 == s6.(items := map[])
    ensures var batch := [Item(1, a)];
      var taken, saved := Saving(batch, [0], 0), Saving(batch, [0], 1);
      && Enabled(START, PutStep(a)) && Next(START, PutStep(a)) == s1
      && Enabled(s1, TakeStep(batch, 500)) && Next(s1, TakeStep(batch, 500)) == s1.(phase := taken)
      && Enabled(s1.(phase := taken), SavedStep) && Next(s1.(phase := taken), SavedStep) == s4.(phase := saved)
      && Enabled(s4.(phase := saved), AckStep) && Next(s4.(phase := saved), AckStep) == s5
      && Enabled(s5, PutStep(b)) && Next(s5, PutStep(b)) == s6
      && Enabled(s6.(phase := taken), SavedStep) && Next(s6.(phase := taken), SavedStep) == s6.(phase := saved)
      && Enabled(s6.(phase := saved), AckStep) && Next(s6.(phase := saved), AckStep) == s8
  {
    LosingPuts(a, b, s1, s5, s6);
    LosingTake(a, s1);
    LosingAck(a, s4.items, Item(1, a));
    LosingAck(a, s6.items, Item(1, b));
    assert s6.rows[a.id := a] == s6.rows && s6.rowAge[a.id := 0] == s6.rowAge;
  }

  lemma LosingPuts(a: Signal, b: Signal, s1: State, s5: State, s6: State)
    requires a.id == b.id != 0
    requires s1 == State(map[a.id := Item(1, a)], false, map[], Idle, map[a.id := [a]], map[])
    requires !s5.closed && s5.items == map[] && s5.history == map[a.id := [a]]
    requires s6 == s5.(items := map[a.id := Item(1, b)], history := map[a.id := [a, b]])
    ensures Next(START, PutStep(a)) == s1 && Next(s5, PutStep(b)) == s6
  {
    assert [] + [a] == [a] && [a] + [b] == [a, b];
    assert PutItem(map[], b) == map[a.id := Item(1, b)];
    assert Recorded(map[a.id := [a]], b) == map[a.id := [a, b]];
  }

  lemma LosingTake(a: Signal, s1: State)
    requires s1 == State(map[a.id := Item(1, a)], false, map[], Idle, map[a.id := [a]], map[])
    ensures var batch := [Item(1, a)];
      Enabled(s1, TakeStep(batch, 500)) && Next(s1, TakeStep(batch, 500)) == s1.(phase := Saving(batch, [0], 0))
  {
    var batch := [Item(1, a)];
    assert IsBatch(s1.items, 500, batch);
    assert seq(1, i requires 0 <= i < 1 => NewestAge(s1.history, batch[i].signal.id)) == [0];
  }

  lemma LosingAck(a: Signal, items: Items, held: Item)
    requires items == map[a.id := held] && held.version == 1
    ensures AckItems(items, [Item(1, a)]) == map[]
  {
    assert [Item(1, a)][0] == Item(1, a) && InBatch([Item(1, a)], a.id, 1);
  }

  lemma SomeSignal(id: nat, symbol: string) returns (s: Signal)
    ensures s.id == id && s.symbol == symbol
  {
    s := Signal(id, symbol, CrossExchange, "", "", Futures, Futures, 0, 0, true, 0.0, 0.0, 0.0, 0, 0.0, 0.0, 0.0, 0, 0, []);
  }

  /** A buffer never loses a newest snapshot exactly when at most one worker drains it. */
  lemma CrowdIsSafeExactly(n: nat)
    ensures CrowdIsSafe(n) <==> n <= 1
  {
    hide Inv;
    hide CrowdRun;
    hide LosingRun;
    if n <= 1 {
      forall steps | CrowdRun(IdleCrowd(n), steps).Some? ensures NothingLost(CrowdRun(IdleCrowd(n), steps).value.shared) {
        StartInv();
        SmallCrowdKeeps(IdleCrowd(n), steps);
      }
    } else {
      var a := SomeSignal(1, "A");
      var b := SomeSignal(1, "B");
      TwoWorkersLoseASnapshot(n, a, b);
      var end := CrowdRun(IdleCrowd(n), LosingRun(a, b)).value.shared;
      assert a.symbol[0] != b.symbol[0];
      assert !NewestKept(end, 1);
    }
  }

  // ---- What is stored when the buffer is empty ----

  function Puts(steps: seq<Step>): seq<Signal> {
    if steps == [] then []
    else Puts(steps[..|steps| - 1]) + if steps[|steps| - 1].PutStep? then [steps[|steps| - 1].signal] else []
  }

  function Persisted(calls: seq<Call>): seq<Signal> {
    if calls == [] then []
    else Persisted(calls[..|calls| - 1]) + if calls[|calls| - 1].Persist? then [calls[|calls| - 1].signal] else []
  }

  /** The buffer is closed only after the last write. */
  predicate ClosedLast(steps: seq<Step>) {
    forall i, j :: 0 <= i < j < |steps| && steps[i].CloseStep? ==> !steps[j].PutStep?
  }

  function HistoryOf(puts: seq<Signal>): map<nat, seq<Signal>> {
    if puts == [] then map[] else Recorded(HistoryOf(puts[..|puts| - 1]), puts[|puts| - 1])
  }

  lemma HistorySnoc(puts: seq<Signal>, s: Signal)
    ensures HistoryOf(puts + [s]) == Recorded(HistoryOf(puts), s)
  {
    assert (puts + [s])[..|puts|] == puts;
  }

  lemma StepHistory(st: State, step: Step)
    requires Enabled(st, step)
    ensures Next(st, step).closed == (st.closed || step.CloseStep?)
    ensures Next(st, step).history == if step.PutStep? && step.signal.id != 0 && !st.closed
                                      then Recorded(st.history, step.signal) else st.history
  {
  }

  lemma {:induction false} HistoryIsPuts(steps: seq<Step>, st: State)
    requires Reaches(steps, st) && ClosedLast(steps) && forall s :: s in Puts(steps) ==> s.id != 0
    ensures st.history == HistoryOf(Puts(steps))
    ensures st.closed <==> CloseStep in steps
  {
    if steps != [] {
      var front, step := steps[..|steps| - 1], steps[|steps| - 1];
      assert steps == front + [step];
      var before := Execute(front).value;
      assert forall s :: s in Puts(front) ==> s in Puts(steps);
      StepHistory(before, step);
      assert Execute(steps) == Some(Next(before, step));
      hide Next;
      hide Enabled;
      hide Execute;
      HistoryIsPuts(front, before);
      if step.PutStep? {
        HistorySnoc(Puts(front), step.signal);
        assert Puts(steps) == Puts(front) + [step.signal];
        assert step.signal in Puts(steps);
        forall i | 0 <= i < |front| ensures front[i] != CloseStep {
          assert steps[i] == front[i] && steps[|front|] == step;
        }
      } else {
        assert Puts(steps) == Puts(front);
      }
    }
  }

  /** The history and the newest snapshots describe the same writes. */
  predicate LastIsNewest(history: map<nat, seq<Signal>>, newest: map<nat, Signal>) {
    && history.Keys == newest.Keys
    && forall id :: id in history ==> history[id] != [] && history[id][|history[id]| - 1] == newest[id]
  }

  lemma RecordNewest(history: map<nat, seq<Signal>>, newest: map<nat, Signal>, s: Signal)
    requires LastIsNewest(history, newest)
    ensures LastIsNewest(Recorded(history, s), newest[s.id := s])
  {
  }

  lemma {:induction false} NewestIsLast(calls: seq<Call>)
    ensures LastIsNewest(HistoryOf(Persisted(calls)), Newest(calls))
  {
    if calls != [] {
      var front, c := calls[..|calls| - 1], calls[|calls| - 1];
      NewestIsLast(front);
      hide LastIsNewest;
      if c.Persist? {
        HistorySnoc(Persisted(front), c.signal);
        assert Persisted(calls) == Persisted(front) + [c.signal];
        RecordNewest(HistoryOf(Persisted(front)), Newest(front), c.signal);
      } else {
        assert Persisted(calls) == Persisted(front);
      }
    }
  }

  /** An empty buffer means that the repository holds exactly the newest snapshots. */
  lemma EmptyBufferIsStored(calls: seq<Call>, active: Active, n: nat, steps: seq<Step>, st: State)
    requires Accounted(active, Newest(calls), n)
    requires Reaches(steps, st) && ClosedLast(steps) && Puts(steps) == Persisted(calls) && st.items == map[]
    ensures st.rows == Newest(calls)
  {
    hide Inv;
    hide ClosedLast;
    hide Persisted;
    hide HistoryOf;
    hide Newest;
    hide LastIsNewest;
    hide Execute;
    hide Puts;
    PersistedIds(calls);
    PersistedAreNamed(calls, active, n);
    HistoryIsPuts(steps, st);
    NewestIsLast(calls);
    ReachableInv(steps, st);
    RowsAreNewest(st, Newest(calls));
  }

  lemma PersistedAreNamed(calls: seq<Call>, active: Active, n: nat)
    requires Accounted(active, Newest(calls), n)
    requires forall s :: s in Persisted(calls) ==> s.id in Newest(calls)
    ensures forall s :: s in Persisted(calls) ==> s.id != 0
  {
    hide Persisted;
    hide Newest;
  }

  lemma RowsAreNewest(st: State, newest: map<nat, Signal>)
    requires Inv(st) && st.items == map[] && LastIsNewest(st.history, newest)
    ensures st.rows == newest
  {
    forall id ensures Get(st.rows, id) == Get(newest, id) {
      assert Safe(st, id) && RowOk(st, id);
    }
    SameMap(st.rows, newest);
  }

  /** The identifiers of the snapshots are those of the newest ones. */
  lemma {:induction false} PersistedIds(calls: seq<Call>)
    ensures forall s :: s in Persisted(calls) ==> s.id in Newest(calls)
  {
    if calls != [] {
      PersistedIds(calls[..|calls| - 1]);
    }
  }
}

/**
 The notification router at run time: any number of workers, the wake token, the lifecycle lock,
 and the tracker thread that makes its calls one after the other.  Every step is one critical
 section, one channel operation or one transport call.
 */
module RouterProtocol {
  import opened Wrappers
  import opened Domain
  import opened Notifications
  import opened Tracking

  /** Where a worker stands. */
  datatype Pc =
    | Waiting
    | Draining
    | Checking(job: Job)
    | Judging(job: Job)
    | Ready(job: Job)
    | Locking(job: Job)
    | Holding(job: Job)
    | Sending(job: Job)
    | Exited

  datatype Mark = Sent(id: nat, kind: Kind, chats: seq<int>, signal: Signal) | Invalidated(id: nat)

  function MarkOf(job: Job): Mark { Sent(job.key.id, job.key.kind, job.chats, job.signal) }

  datatype State = State(
    pending: Pending, token: bool, closed: bool, telegram: bool, invalidated: set<nat>,
    lock: Option<nat>, workers: seq<Pc>, script: seq<Call>, at: nat, signalling: bool,
    trace: seq<Mark>)

  datatype Step =
    | Wake(w: nat)
    | Take(w: nat, key: JobKey)
    | Idle(w: nat)
    | Check(w: nat)
    | Judge(w: nat, kept: Option<seq<int>>)
    | LookUp(w: nat)
    | Abandon(w: nat)
    | Lock(w: nat)
    | Recheck(w: nat)
    | Deliver(w: nat)
    | Leave(w: nat)
    | TrackerCall(chats: seq<int>)
    | Signal
    | Shutdown
    | SetTelegram(ready: bool)

  function Init(workers: nat, script: seq<Call>): State {
    State(map[], false, false, false, {}, None, seq(workers, _ => Waiting), script, 0, false, [])
  }

  function Move(s: State, w: nat, pc: Pc): State
    requires w < |s.workers|
  {
    s.(workers := s.workers[w := pc])
  }

  predicate Stale(s: State, job: Job) { job.key.kind != CloseJob && job.key.id in s.invalidated }

  /** Revalidation keeps some of the chats, or drops the job; a close is not revalidated. */
  predicate MayKeep(job: Job, kept: Option<seq<int>>) {
    if !job.revalidate then kept == Some(job.chats)
    else kept.Some? ==> kept.value != [] && forall c :: c in kept.value ==> c in job.chats
  }

  predicate OfWorker(step: Step) { !step.TrackerCall? && !step.Signal? && !step.Shutdown? && !step.SetTelegram? }

  /** Where the worker goes, if the step is possible. */
  function NextPc(s: State, pc: Pc, step: Step): Option<Pc>
    requires OfWorker(step)
  {
    match step
    case Wake(_) => if pc.Waiting? && s.token then Some(Draining) else None
    case Leave(_) => if pc.Waiting? && s.closed then Some(Exited) else None
    case Idle(_) => if pc.Draining? && s.pending == map[] then Some(Waiting) else None
    case Take(_, key) => if pc.Draining? && key in s.pending then Some(Checking(s.pending[key])) else None
    case Check(_) =>
      if !pc.Checking? || (pc.job.key.kind != CloseJob && s.lock.Some?) then None
      else Some(if Stale(s, pc.job) then Draining else Judging(pc.job))
    case Judge(_, kept) =>
      if !pc.Judging? || !MayKeep(pc.job, kept) then None
      else Some(if kept.None? then Draining else Ready(pc.job.(chats := kept.value)))
    case LookUp(_) =>
      if !pc.Ready? then None
      else if s.telegram then Some(Locking(pc.job))
      else if s.closed then Some(Draining) else None
    case Abandon(_) => if pc.Ready? && s.closed then Some(Draining) else None
    case Lock(_) => if pc.Locking? && s.lock.None? then Some(Holding(pc.job)) else None
    case Recheck(_) => if !pc.Holding? then None else Some(if Stale(s, pc.job) then Draining else Sending(pc.job))
    case Deliver(_) => if pc.Sending? then Some(Draining) else None
  }

  /** What the step does to the state shared by all. */
  function Effect(s: State, pc: Pc, step: Step): State
    requires OfWorker(step) && NextPc(s, pc, step).Some?
  {
    match step
    case Wake(_) => s.(token := false)
    case Take(_, key) => s.(pending := s.pending - {key})
    case Lock(w) => s.(lock := Some(w))
    case Recheck(_) => if Stale(s, pc.job) then s.(lock := None) else s
    case Deliver(_) => s.(lock := None, trace := s.trace + [MarkOf(pc.job)])
    case _ => s
  }

  function WorkerNext(s: State, step: Step): Option<State>
    requires OfWorker(step)
  {
    if step.w >= |s.workers| then None
    else
      var next := NextPc(s, s.workers[step.w], step);
      if next.None? then None else Some(Move(Effect(s, s.workers[step.w], step), step.w, next.value))
  }

  /** The job is put into the map; the wake token follows in a step of its own. */
  function Queue(s: State, signal: Signal, kind: Kind, chats: seq<int>): State {
    var job := JobFor(signal, kind, chats);
    if Refused(job, s.closed) then s.(at := s.at + 1)
    else s.(at := s.at + 1, pending := s.pending[job.key := job], signalling := true)
  }

  function TrackerNext(s: State, chats: seq<int>): Option<State> {
    if s.signalling || s.at >= |s.script| then None
    else
      match s.script[s.at]
      case NotifyOpen(signal) => Some(Queue(s, signal, OpenJob, chats))
      case NotifyUpdate(signal) => Some(Queue(s, signal, UpdateJob, chats))
      case NotifyClose(signal) => Some(Queue(s, signal, CloseJob, chats))
      case Invalidate(id) =>
        if id == 0 then Some(s.(at := s.at + 1))
        else if s.lock.Some? then None
        else Some(s.(at := s.at + 1, invalidated := s.invalidated + {id}, trace := s.trace + [Invalidated(id)]))
      case DropUpdate(id) => Some(s.(at := s.at + 1, pending := s.pending - {JobKey(id, UpdateJob)}))
      case Persist(_) => Some(s.(at := s.at + 1))
      case ClearUpdates(_) => Some(s.(at := s.at + 1))
  }

  function Next(s: State, step: Step): Option<State> {
    match step
    case TrackerCall(chats) => TrackerNext(s, chats)
    case Signal => if s.signalling then Some(s.(signalling := false, token := true)) else None
    case Shutdown => Some(s.(closed := true))
    case SetTelegram(ready) => Some(s.(telegram := ready))
    case _ => WorkerNext(s, step)
  }

  function Execute(s: State, steps: seq<Step>): Option<State> {
    if steps == [] then Some(s)
    else
      var before := Execute(s, steps[..|steps| - 1]);
      if before.None? then None else Next(before.value, steps[|steps| - 1])
  }

  // ---- The invariant ----

  predicate HasJob(pc: Pc) { pc.Checking? || pc.Judging? || pc.Ready? || pc.Locking? || pc.Holding? || pc.Sending? }

  predicate Busy(pc: Pc) { !pc.Waiting? && !pc.Exited? }

  /** Only the worker that holds the lock is past it, and what it is about to send is still valid. */
  predicate LockHeld(s: State) {
    && (forall w :: 0 <= w < |s.workers| && (s.workers[w].Holding? || s.workers[w].Sending?) ==> s.lock == Some(w))
    && (forall w :: 0 <= w < |s.workers| && s.workers[w].Sending? ==> !Stale(s, s.workers[w].job))
  }

  ghost predicate Marks(s: State) { forall id: nat :: Invalidated(id) in s.trace <==> id in s.invalidated }

  /** After its invalidation nothing but the close of a signal is sent. */
  ghost predicate OnlyCloseAfter(trace: seq<Mark>) {
    forall i, j :: 0 <= i < j < |trace| && trace[i].Invalidated? && trace[j].Sent? && trace[i].id == trace[j].id ==>
      trace[j].kind == CloseJob
  }

  ghost predicate OnlyCloseFollowsClose(trace: seq<Mark>) {
    forall i, j :: 0 <= i < j < |trace| && trace[i].Sent? && trace[j].Sent? && trace[i].id == trace[j].id && trace[i].kind == CloseJob ==>
      trace[j].kind == CloseJob
  }

  /** The close of a signal is sent only after its invalidation. */
  ghost predicate CloseAfterInvalid(trace: seq<Mark>) {
    forall j :: 0 <= j < |trace| && trace[j].Sent? && trace[j].kind == CloseJob ==> Invalidated(trace[j].id) in trace[..j]
  }

  /** Every invalidation the tracker has made is in force. */
  predicate Made(s: State) {
    forall i :: 0 <= i < s.at <= |s.script| && s.script[i].Invalidate? && s.script[i].id != 0 ==> s.script[i].id in s.invalidated
  }

  predicate PendingSound(s: State) {
    && (forall key :: key in s.pending ==> s.pending[key].key == key)
    && (forall key :: key in s.pending && key.kind == CloseJob ==> key.id in s.invalidated && !s.pending[key].revalidate)
  }

  predicate JobSound(job: Job, invalidated: set<nat>) {
    job.key.kind == CloseJob ==> job.key.id in invalidated && !job.revalidate
  }

  predicate HeldSound(s: State) {
    forall w :: 0 <= w < |s.workers| && HasJob(s.workers[w]) ==> JobSound(s.workers[w].job, s.invalidated)
  }

  /** A close in the queue or in a worker's hands belongs to an invalidated signal, and is not revalidated. */
  predicate ClosesInvalid(s: State) { Made(s) && PendingSound(s) && HeldSound(s) }

  ghost predicate SomeoneBusy(s: State) { exists w :: 0 <= w < |s.workers| && Busy(s.workers[w]) }

  /** While jobs are pending somebody is on the way to take them. */
  ghost predicate NoLostWake(s: State) {
    s.pending != map[] ==> s.closed || s.token || s.signalling || SomeoneBusy(s)
  }

  /** What the tracker's calls guarantee: updates are dropped and a close is announced after the invalidation, and no identifier is empty. */
  ghost predicate GoodScript(script: seq<Call>) {
    CloseGuarded(script) && forall i :: 0 <= i < |script| && EndsSignal(script[i]) ==> EndedId(script[i]) != 0
  }

  ghost predicate Inv(s: State) {
    && LockHeld(s) && Marks(s) && OnlyCloseAfter(s.trace) && CloseAfterInvalid(s.trace)
    && ClosesInvalid(s) && s.at <= |s.script| && GoodScript(s.script)
  }

  lemma InitInv(workers: nat, script: seq<Call>)
    requires GoodScript(script)
    ensures Inv(Init(workers, script)) && NoLostWake(Init(workers, script))
  {
  }

  lemma TraceGrows(trace: seq<Mark>, m: Mark)
    requires OnlyCloseAfter(trace) && CloseAfterInvalid(trace)
    requires m.Sent? && m.kind == CloseJob ==> Invalidated(m.id) in trace
    requires m.Sent? && m.kind != CloseJob ==> Invalidated(m.id) !in trace
    ensures OnlyCloseAfter(trace + [m]) && CloseAfterInvalid(trace + [m])
  {
    var all := trace + [m];
    forall j | 0 <= j < |all| && all[j].Sent? && all[j].kind == CloseJob ensures Invalidated(all[j].id) in all[..j] {
      assert all[..j] == trace[..j];
      if j == |trace| {
        assert all[..j] == trace;
      }
    }
    forall i, j | 0 <= i < j < |all| && all[i].Invalidated? && all[j].Sent? && all[i].id == all[j].id ensures all[j].kind == CloseJob {
      assert all[i] == trace[i] && trace[i] in trace;
    }
  }

  lemma LockWorker(s: State, step: Step)
    requires LockHeld(s) && OfWorker(step) && WorkerNext(s, step).Some?
    ensures LockHeld(WorkerNext(s, step).value)
  {
    hide MayKeep;
  }

  lemma LockTracker(s: State, chats: seq<int>)
    requires LockHeld(s) && TrackerNext(s, chats).Some?
    ensures LockHeld(TrackerNext(s, chats).value)
  {
    hide JobFor;
  }

  lemma LockStep(s: State, step: Step)
    requires LockHeld(s) && Next(s, step).Some?
    ensures LockHeld(Next(s, step).value)
  {
    hide WorkerNext;
    hide TrackerNext;
    if OfWorker(step) {
      LockWorker(s, step);
    } else if step.TrackerCall? {
      LockTracker(s, step.chats);
    }
  }

  lemma TraceStep(s: State, step: Step)
    requires LockHeld(s) && Marks(s) && ClosesInvalid(s) && Next(s, step).Some?
    requires OnlyCloseAfter(s.trace) && CloseAfterInvalid(s.trace)
    ensures var s' := Next(s, step).value; Marks(s') && OnlyCloseAfter(s'.trace) && CloseAfterInvalid(s'.trace)
  {
    hide OnlyCloseAfter;
    hide CloseAfterInvalid;
    hide Marks;
    hide MayKeep;
    hide JobFor;
    hide Refused;
    if step.Deliver? {
      TraceDelivers(s, step);
    } else if step.TrackerCall? && s.script[s.at].Invalidate? && s.script[s.at].id != 0 {
      TraceGrows(s.trace, Invalidated(s.script[s.at].id));
      InvalidationMarks(s, Next(s, step).value, s.script[s.at].id);
    } else {
      SameMarks(s, Next(s, step).value);
    }
  }

  lemma TraceDelivers(s: State, step: Step)
    requires LockHeld(s) && Marks(s) && ClosesInvalid(s) && step.Deliver? && Next(s, step).Some?
    requires OnlyCloseAfter(s.trace) && CloseAfterInvalid(s.trace)
    ensures var s' := Next(s, step).value; Marks(s') && OnlyCloseAfter(s'.trace) && CloseAfterInvalid(s'.trace)
  {
    hide OnlyCloseAfter;
    hide CloseAfterInvalid;
    var job := s.workers[step.w].job;
    assert !Stale(s, job);
    var m := MarkOf(job);
    TraceGrows(s.trace, m);
    SendMarksNothing(s, Next(s, step).value, m);
    hide Marks;
  }

  lemma SameMarks(s: State, s': State)
    requires Marks(s) && s'.trace == s.trace && s'.invalidated == s.invalidated
    ensures Marks(s')
  {
  }

  lemma SendMarksNothing(s: State, s': State, m: Mark)
    requires Marks(s) && m.Sent? && s'.trace == s.trace + [m] && s'.invalidated == s.invalidated
    ensures Marks(s')
  {
  }

  lemma InvalidationMarks(s: State, s': State, id: nat)
    requires Marks(s) && s'.trace == s.trace + [Invalidated(id)] && s'.invalidated == s.invalidated + {id}
    ensures Marks(s')
  {
  }

  /** Updates are dropped and a close is announced only after the invalidation was executed. */
  lemma CloseIsInvalidated(s: State)
    requires GoodScript(s.script) && Made(s) && s.at < |s.script| && EndsSignal(s.script[s.at])
    ensures EndedId(s.script[s.at]) in s.invalidated
  {
    var id := EndedId(s.script[s.at]);
    assert Invalidate(id) in s.script[..s.at];
    var i :| 0 <= i < s.at && s.script[i] == Invalidate(id);
  }

  lemma MadeWorker(s: State, step: Step)
    requires Made(s) && s.at <= |s.script| && OfWorker(step) && WorkerNext(s, step).Some?
    ensures Made(WorkerNext(s, step).value)
  {
    hide MayKeep;
  }

  lemma MadeTracker(s: State, chats: seq<int>)
    requires Made(s) && s.at <= |s.script| && TrackerNext(s, chats).Some?
    ensures Made(TrackerNext(s, chats).value)
  {
    hide JobFor;
  }

  lemma ScriptStep(s: State, step: Step)
    requires s.at <= |s.script| && Next(s, step).Some?
    ensures Next(s, step).value.script == s.script && Next(s, step).value.at <= |s.script|
  {
    hide NextPc;
    hide Effect;
    hide JobFor;
    if OfWorker(step) {
      EffectFrame(s, s.workers[step.w], step);
    }
  }

  lemma MadeStep(s: State, step: Step)
    requires Made(s) && s.at <= |s.script| && Next(s, step).Some?
    ensures Made(Next(s, step).value)
  {
    hide WorkerNext;
    hide TrackerNext;
    if OfWorker(step) {
      MadeWorker(s, step);
    } else if step.TrackerCall? {
      MadeTracker(s, step.chats);
    }
  }

  lemma QueueStep(s: State, signal: Signal, kind: Kind, chats: seq<int>)
    requires PendingSound(s) && (kind == CloseJob ==> signal.id in s.invalidated)
    ensures PendingSound(Queue(s, signal, kind, chats))
  {
  }

  lemma TrackerPending(s: State, chats: seq<int>)
    requires Made(s) && PendingSound(s) && GoodScript(s.script) && TrackerNext(s, chats).Some?
    ensures PendingSound(TrackerNext(s, chats).value)
  {
    hide GoodScript;
    hide Made;
    hide Queue;
    var c := s.script[s.at];
    match c {
      case NotifyOpen(signal) => QueueStep(s, signal, OpenJob, chats);
      case NotifyUpdate(signal) => QueueStep(s, signal, UpdateJob, chats);
      case NotifyClose(signal) =>
        CloseIsInvalidated(s);
        QueueStep(s, signal, CloseJob, chats);
      case _ =>
    }
  }

  lemma PendingStep(s: State, step: Step)
    requires Made(s) && PendingSound(s) && GoodScript(s.script) && Next(s, step).Some?
    ensures PendingSound(Next(s, step).value)
  {
    hide GoodScript;
    hide MayKeep;
    hide Made;
    hide TrackerNext;
    hide PendingSound;
    var s' := Next(s, step).value;
    if step.TrackerCall? {
      TrackerPending(s, step.chats);
    } else {
      assert s'.invalidated == s.invalidated;
      assert s'.pending == s.pending || exists key :: s'.pending == s.pending - {key};
      PendingShrinks(s, s');
    }
  }

  lemma PendingShrinks(s: State, s': State)
    requires PendingSound(s) && s'.invalidated == s.invalidated
    requires s'.pending == s.pending || exists key :: s'.pending == s.pending - {key}
    ensures PendingSound(s')
  {
  }

  /** A job keeps its key on its way through a worker, and is revalidated only if it was to be. */
  lemma JobStays(s: State, pc: Pc, step: Step)
    requires OfWorker(step) && NextPc(s, pc, step).Some? && HasJob(NextPc(s, pc, step).value)
    ensures var job := NextPc(s, pc, step).value.job;
      || (HasJob(pc) && job.key == pc.job.key && job.revalidate == pc.job.revalidate)
      || (step.Take? && step.key in s.pending && job == s.pending[step.key])
  {
    hide MayKeep;
    hide Stale;
  }

  lemma EffectFrame(s: State, pc: Pc, step: Step)
    requires OfWorker(step) && NextPc(s, pc, step).Some?
    ensures var e := Effect(s, pc, step);
      && e.invalidated == s.invalidated && e.workers == s.workers && e.closed == s.closed && e.signalling == s.signalling
      && e.script == s.script && e.at == s.at
      && e.pending == (if step.Take? then s.pending - {step.key} else s.pending) && s.trace <= e.trace
  {
    hide MayKeep;
    hide Stale;
  }

  lemma HeldWorker(s: State, step: Step)
    requires PendingSound(s) && HeldSound(s) && OfWorker(step) && WorkerNext(s, step).Some?
    ensures HeldSound(WorkerNext(s, step).value)
  {
    hide NextPc;
    hide Effect;
    var w, pc := step.w, s.workers[step.w];
    var s', pc' := WorkerNext(s, step).value, NextPc(s, pc, step).value;
    EffectFrame(s, pc, step);
    if HasJob(pc') {
      JobStays(s, pc, step);
    }
    forall v | 0 <= v < |s'.workers| && HasJob(s'.workers[v]) ensures JobSound(s'.workers[v].job, s'.invalidated) {
      if v != w {
        assert s'.workers[v] == s.workers[v];
      } else if HasJob(pc) && pc'.job.key == pc.job.key && pc'.job.revalidate == pc.job.revalidate {
        assert JobSound(pc.job, s.invalidated);
      } else {
        assert s.pending[step.key].key == step.key;
      }
    }
  }

  lemma HeldTracker(s: State, chats: seq<int>)
    requires PendingSound(s) && HeldSound(s) && TrackerNext(s, chats).Some?
    ensures HeldSound(TrackerNext(s, chats).value)
  {
    hide JobFor;
  }

  lemma HeldStep(s: State, step: Step)
    requires PendingSound(s) && HeldSound(s) && Next(s, step).Some?
    ensures HeldSound(Next(s, step).value)
  {
    hide WorkerNext;
    hide TrackerNext;
    if OfWorker(step) {
      HeldWorker(s, step);
    } else if step.TrackerCall? {
      HeldTracker(s, step.chats);
    }
  }

  lemma StepKeeps(s: State, step: Step)
    requires Inv(s) && Next(s, step).Some?
    ensures Inv(Next(s, step).value)
  {
    hide GoodScript;
    hide OnlyCloseAfter;
    hide CloseAfterInvalid;
    hide LockHeld;
    hide Marks;
    hide Made;
    hide PendingSound;
    hide HeldSound;
    hide MayKeep;
    LockStep(s, step);
    TraceStep(s, step);
    ScriptStep(s, step);
    MadeStep(s, step);
    PendingStep(s, step);
    HeldStep(s, step);
  }

  /** A worker goes to sleep only when nothing is pending. */
  lemma BusyUntilEmpty(s: State, pc: Pc, step: Step)
    requires OfWorker(step) && NextPc(s, pc, step).Some?
    ensures Busy(NextPc(s, pc, step).value) || Effect(s, pc, step).pending == map[] || s.closed
    ensures step.Wake? || Effect(s, pc, step).token == s.token
  {
    hide MayKeep;
    hide Stale;
  }

  lemma WakeWorker(s: State, step: Step)
    requires NoLostWake(s) && OfWorker(step) && WorkerNext(s, step).Some?
    ensures NoLostWake(WorkerNext(s, step).value)
  {
    hide NextPc;
    hide Effect;
    hide Busy;
    var w, pc, s' := step.w, s.workers[step.w], WorkerNext(s, step).value;
    EffectFrame(s, pc, step);
    BusyUntilEmpty(s, pc, step);
    assert s'.workers[w] == NextPc(s, pc, step).value;
  }

  lemma WakeTracker(s: State, chats: seq<int>)
    requires NoLostWake(s) && TrackerNext(s, chats).Some?
    ensures NoLostWake(TrackerNext(s, chats).value)
  {
    hide JobFor;
    hide Busy;
    assert TrackerNext(s, chats).value.workers == s.workers;
  }

  lemma StepKeepsWake(s: State, step: Step)
    requires NoLostWake(s) && Next(s, step).Some?
    ensures NoLostWake(Next(s, step).value)
  {
    hide WorkerNext;
    hide TrackerNext;
    if OfWorker(step) {
      WakeWorker(s, step);
    } else if step.TrackerCall? {
      WakeTracker(s, step.chats);
    } else {
      assert Next(s, step).value.workers == s.workers;
    }
  }

  lemma {:induction false} ReachedStates(workers: nat, script: seq<Call>, steps: seq<Step>)
    requires GoodScript(script) && Execute(Init(workers, script), steps).Some?
    ensures var s := Execute(Init(workers, script), steps).value; Inv(s) && NoLostWake(s)
  {
    hide Next;
    hide Inv;
    hide NoLostWake;
    hide GoodScript;
    if steps == [] {
      InitInv(workers, script);
    } else {
      ReachedStates(workers, script, steps[..|steps| - 1]);
      var s, step := Execute(Init(workers, script), steps[..|steps| - 1]).value, steps[|steps| - 1];
      StepKeeps(s, step);
      StepKeepsWake(s, step);
    }
  }

  lemma InvSound(s: State)
    requires Inv(s)
    ensures PendingSound(s) && HeldSound(s)
  {
  }

  // ---- What every run keeps ----

  lemma TrackerScriptIsGood(log: seq<SpreadEvent>, chats: nat -> seq<int>, closeAt: real)
    ensures GoodScript(Replay(log, chats, closeAt).1)
  {
    hide Replay;
    hide CloseGuarded;
    ReplayIsGuarded(log, chats, closeAt);
    ReplayIsNamed(log, chats, closeAt);
  }

  /**
   In every interleaving of the workers with the tracker: once a signal is invalidated no OPEN or
   UPDATE of it is sent, its CLOSE is sent only after that, and so nothing but a CLOSE follows a CLOSE.
   */
  lemma NothingFollowsClose(log: seq<SpreadEvent>, chats: nat -> seq<int>, closeAt: real, workers: nat, steps: seq<Step>)
    requires Execute(Init(workers, Replay(log, chats, closeAt).1), steps).Some?
    ensures var trace := Execute(Init(workers, Replay(log, chats, closeAt).1), steps).value.trace;
      && OnlyCloseAfter(trace)
      && CloseAfterInvalid(trace)
      && OnlyCloseFollowsClose(trace)
  {
    hide Replay;
    hide Execute;
    hide Init;
    hide GoodScript;
    TrackerScriptIsGood(log, chats, closeAt);
    ReachedStates(workers, Replay(log, chats, closeAt).1, steps);
    var trace := Execute(Init(workers, Replay(log, chats, closeAt).1), steps).value.trace;
    forall i, j | 0 <= i < j < |trace| && trace[i].Sent? && trace[j].Sent? && trace[i].id == trace[j].id && trace[i].kind == CloseJob
      ensures trace[j].kind == CloseJob
    {
      var k :| 0 <= k < i && trace[k] == Invalidated(trace[i].id);
    }
  }

  // ---- One announcement, at most one message ----

  function Announced(c: Call): Option<JobKey> {
    match c
    case NotifyOpen(s) => Some(JobKey(s.id, OpenJob))
    case NotifyUpdate(s) => Some(JobKey(s.id, UpdateJob))
    case NotifyClose(s) => Some(JobKey(s.id, CloseJob))
    case _ => None
  }

  function One(b: bool): nat { if b then 1 else 0 }

  /** How often a message is announced. */
  function Notices(calls: seq<Call>, key: JobKey): nat {
    if calls == [] then 0 else Notices(calls[..|calls| - 1], key) + One(Announced(calls[|calls| - 1]) == Some(key))
  }

  function InHands(workers: seq<Pc>, key: JobKey): nat {
    if workers == [] then 0
    else
      var pc := workers[|workers| - 1];
      InHands(workers[..|workers| - 1], key) + One(HasJob(pc) && pc.job.key == key)
  }

  function Messages(trace: seq<Mark>, key: JobKey): nat {
    if trace == [] then 0
    else
      var m := trace[|trace| - 1];
      Messages(trace[..|trace| - 1], key) + One(m.Sent? && JobKey(m.id, m.kind) == key)
  }

  /** Sent, in the hands of a worker, or pending. */
  function Used(s: State, key: JobKey): nat {
    Messages(s.trace, key) + InHands(s.workers, key) + One(key in s.pending)
  }

  lemma {:induction false} HandsMove(workers: seq<Pc>, w: nat, pc: Pc, key: JobKey)
    requires w < |workers|
    ensures InHands(workers[w := pc], key) + One(HasJob(workers[w]) && workers[w].job.key == key)
         == InHands(workers, key) + One(HasJob(pc) && pc.job.key == key)
  {
    var front, last := workers[..|workers| - 1], |workers| - 1;
    if w < last {
      assert workers[w := pc][..last] == front[w := pc];
      HandsMove(front, w, pc, key);
    } else {
      assert workers[w := pc][..last] == front;
    }
  }

  lemma MessagesSnoc(trace: seq<Mark>, m: Mark, key: JobKey)
    ensures Messages(trace + [m], key) == Messages(trace, key) + One(m.Sent? && JobKey(m.id, m.kind) == key)
  {
    assert (trace + [m])[..|trace|] == trace;
  }

  /** A worker's step moves a message on, or drops it. */
  lemma PcMoves(s: State, pc: Pc, step: Step, key: JobKey)
    requires OfWorker(step) && PendingSound(s) && NextPc(s, pc, step).Some?
    ensures var e, pc' := Effect(s, pc, step), NextPc(s, pc, step).value;
      Messages(e.trace, key) + One(HasJob(pc') && pc'.job.key == key) + One(key in e.pending)
      <= Messages(s.trace, key) + One(HasJob(pc) && pc.job.key == key) + One(key in s.pending)
  {
    hide Messages;
    hide MayKeep;
    hide Stale;
    if step.Deliver? {
      MessagesSnoc(s.trace, MarkOf(pc.job), key);
    }
  }

  lemma WorkerUses(s: State, step: Step, key: JobKey)
    requires OfWorker(step) && PendingSound(s) && WorkerNext(s, step).Some?
    ensures Used(WorkerNext(s, step).value, key) <= Used(s, key) && WorkerNext(s, step).value.script == s.script
         && WorkerNext(s, step).value.at == s.at
  {
    hide NextPc;
    hide Effect;
    hide Messages;
    hide InHands;
    var pc := s.workers[step.w];
    EffectFrame(s, pc, step);
    PcMoves(s, pc, step, key);
    HandsMove(s.workers, step.w, NextPc(s, pc, step).value, key);
  }

  lemma QueueUses(s: State, signal: Signal, kind: Kind, chats: seq<int>, key: JobKey)
    ensures var s' := Queue(s, signal, kind, chats);
      && s'.script == s.script && s'.at == s.at + 1
      && Used(s', key) <= Used(s, key) + One(JobKey(signal.id, kind) == key)
  {
    hide Messages;
    hide InHands;
    hide Refused;
  }

  lemma TrackerUses(s: State, chats: seq<int>, key: JobKey)
    requires s.at <= |s.script| && TrackerNext(s, chats).Some?
    ensures var s' := TrackerNext(s, chats).value;
      && s'.script == s.script && s'.at == s.at + 1 && s.at < |s.script|
      && Used(s', key) <= Used(s, key) + One(Announced(s.script[s.at]) == Some(key))
  {
    var call := s.script[s.at];
    if call.NotifyOpen? || call.NotifyUpdate? || call.NotifyClose? {
      QueueUses(s, call.signal, if call.NotifyOpen? then OpenJob else if call.NotifyUpdate? then UpdateJob else CloseJob, chats, key);
      hide Queue;
      hide Used;
    } else if call.Invalidate? {
      MessagesSnoc(s.trace, Invalidated(call.id), key);
      hide InHands;
      hide Messages;
    } else {
      hide InHands;
      hide Messages;
    }
  }

  lemma StepUses(s: State, step: Step, key: JobKey)
    requires PendingSound(s) && s.at <= |s.script| && Used(s, key) <= Notices(s.script[..s.at], key) && Next(s, step).Some?
    ensures var s' := Next(s, step).value; s'.at <= |s'.script| && Used(s', key) <= Notices(s'.script[..s'.at], key)
  {
    hide WorkerNext;
    hide TrackerNext;
    hide Used;
    if OfWorker(step) {
      WorkerUses(s, step, key);
    } else if step.TrackerCall? {
      TrackerUses(s, step.chats, key);
      assert s.script[..s.at + 1][..s.at] == s.script[..s.at];
    } else {
      OtherUses(s, step, key);
    }
  }

  lemma OtherUses(s: State, step: Step, key: JobKey)
    requires !OfWorker(step) && !step.TrackerCall? && Next(s, step).Some?
    ensures var s' := Next(s, step).value; s'.script == s.script && s'.at == s.at && Used(s', key) == Used(s, key)
  {
  }

  lemma {:induction false} NoHands(n: nat, key: JobKey)
    ensures InHands(seq(n, _ => Waiting), key) == 0
  {
    if n > 0 {
      assert seq(n, _ => Waiting)[..n - 1] == seq(n - 1, _ => Waiting);
      NoHands(n - 1, key);
    }
  }

  /** In every run each announcement leads to at most one message of its signal and kind. */
  lemma {:induction false} MessagesWithinNotices(workers: nat, script: seq<Call>, steps: seq<Step>, key: JobKey)
    requires GoodScript(script) && Execute(Init(workers, script), steps).Some?
    ensures var s := Execute(Init(workers, script), steps).value;
      s.at <= |s.script| && Used(s, key) <= Notices(s.script[..s.at], key) && s.script == script
  {
    hide Next;
    hide GoodScript;
    hide Notices;
    if steps == [] {
      NoHands(workers, key);
    } else {
      var front := steps[..|steps| - 1];
      MessagesWithinNotices(workers, script, front, key);
      ReachedStates(workers, script, front);
      var s := Execute(Init(workers, script), front).value;
      assert PendingSound(s) by { InvSound(s); }
      StepUses(s, steps[|steps| - 1], key);
      ScriptStep(s, steps[|steps| - 1]);
    }
  }

  lemma {:induction false} NoticesAppend(a: seq<Call>, b: seq<Call>, key: JobKey)
    ensures Notices(a + b, key) == Notices(a, key) + Notices(b, key)
  {
    if b == [] {
      assert a + b == a;
    } else {
      NoticesAppend(a, b[..|b| - 1], key);
      assert (a + b)[..|a + b| - 1] == a + b[..|b| - 1];
    }
  }

  /** A signal is announced open once, when it is new, and closed once, when it leaves the tracker. */
  ghost predicate AnnouncedOnce(calls: seq<Call>, active: Active, n: nat, id: nat) {
    && Notices(calls, JobKey(id, OpenJob)) <= One(id <= n)
    && Notices(calls, JobKey(id, CloseJob)) <= One(id <= n && forall key :: key in active ==> active[key].id != id)
  }

  lemma NoticesOfFive(a: Call, b: Call, c: Call, d: Call, e: Call, key: JobKey)
    requires Announced(a).None? && Announced(b).None? && Announced(c).None? && Announced(e).None?
    ensures Notices([a, b, c, d, e], key) == One(Announced(d) == Some(key))
  {
    var all := [a, b, c, d, e];
    assert all == [a] + [b] + [c] + [d] + [e];
    NoticesAppend([a] + [b] + [c] + [d], [e], key);
    NoticesAppend([a] + [b] + [c], [d], key);
    NoticesAppend([a] + [b], [c], key);
    NoticesAppend([a], [b], key);
    NoticesOfOne(a, key);
    NoticesOfOne(b, key);
    NoticesOfOne(c, key);
    NoticesOfOne(d, key);
    NoticesOfOne(e, key);
  }

  lemma NoticesOfOne(c: Call, key: JobKey)
    ensures Notices([c], key) == One(Announced(c) == Some(key)) && Notices([], key) == 0
  {
    assert [c][..0] == [];
  }

  lemma NoticesOfTwo(a: Call, b: Call, key: JobKey)
    ensures Notices([a, b], key) == One(Announced(a) == Some(key)) + One(Announced(b) == Some(key))
  {
    assert [a, b] == [a] + [b];
    NoticesAppend([a], [b], key);
    NoticesOfOne(a, key);
    NoticesOfOne(b, key);
  }

  /** The signal tracked under the event's route ends with this event. */
  predicate Ends(active: Active, after: Active, e: SpreadEvent, id: nat) {
    RouteKey(e) in active && active[RouteKey(e)].id == id && RouteKey(e) !in after
  }

  predicate ClosesAs(more: seq<Call>, active: Active, after: Active, e: SpreadEvent) {
    |more| == 5 && more[0].Persist? && more[1].Invalidate? && more[2].DropUpdate? && more[3].NotifyClose? && more[4].ClearUpdates?
    && Ends(active, after, e, more[3].signal.id)
  }

  lemma HandleShape(active: Active, e: SpreadEvent, id: nat, chats: seq<int>, closeAt: real)
    ensures var (active', more) := Handle(active, e, id, chats, closeAt);
      || more == []
      || (|more| == 1 && more[0].Persist?)
      || (|more| == 2 && more[0].Persist? && (more[1].NotifyUpdate? || (more[1].NotifyOpen? && more[1].signal.id == id)))
      || ClosesAs(more, active, active', e)
  {
    hide RouteKey;
  }

  /** What one event announces. */
  lemma HandleAnnounces(active: Active, e: SpreadEvent, n: nat, chats: seq<int>, closeAt: real, id: nat)
    ensures var (active', more) := Handle(active, e, n + 1, chats, closeAt);
      && Notices(more, JobKey(id, OpenJob)) <= One(id == n + 1)
      && Notices(more, JobKey(id, CloseJob)) <= One(Ends(active, active', e, id))
  {
    hide RouteKey;
    hide Notices;
    hide Handle;
    hide Ends;
    HandleShape(active, e, n + 1, chats, closeAt);
    var (active', more) := Handle(active, e, n + 1, chats, closeAt);
    forall kind: Kind ensures more == [] ==> Notices(more, JobKey(id, kind)) == 0 {
      NoticesOfOne(Invalidate(0), JobKey(id, kind));
    }
    if |more| == 1 {
      assert more == [more[0]];
      NoticesOfOne(more[0], JobKey(id, OpenJob));
      NoticesOfOne(more[0], JobKey(id, CloseJob));
    } else if |more| == 2 {
      assert more == [more[0], more[1]];
      NoticesOfTwo(more[0], more[1], JobKey(id, OpenJob));
      NoticesOfTwo(more[0], more[1], JobKey(id, CloseJob));
    } else if |more| == 5 {
      assert more == [more[0], more[1], more[2], more[3], more[4]];
      NoticesOfFive(more[0], more[1], more[2], more[3], more[4], JobKey(id, OpenJob));
      NoticesOfFive(more[0], more[1], more[2], more[3], more[4], JobKey(id, CloseJob));
    }
  }

  /** A signal that ends is tracked no more, and no other signal takes its identifier. */
  lemma HandleIds(active: Active, newest: map<nat, Signal>, n: nat, e: SpreadEvent, chats: seq<int>, closeAt: real, id: nat)
    requires Accounted(active, newest, n)
    ensures var active' := Handle(active, e, n + 1, chats, closeAt).0;
      && (forall key :: key in active' && active'[key].id == id ==> id == n + 1 || (key in active && active[key].id == id))
      && (Ends(active, active', e, id) ==> forall key :: key in active' ==> active'[key].id != id)
      && (forall key :: key in active ==> active[key].id <= n)
  {
    hide RouteKey;
  }

  lemma {:induction false} ReplayAnnouncesOnce(log: seq<SpreadEvent>, chats: nat -> seq<int>, closeAt: real, id: nat)
    ensures var (active, calls) := Replay(log, chats, closeAt); AnnouncedOnce(calls, active, |log|, id)
  {
    hide Handle;
    hide Accounted;
    hide RouteKey;
    hide Notices;
    if log == [] {
      NoticesOfOne(Invalidate(0), JobKey(id, OpenJob));
      NoticesOfOne(Invalidate(0), JobKey(id, CloseJob));
    } else {
      var front, e := log[..|log| - 1], log[|log| - 1];
      ReplayAnnouncesOnce(front, chats, closeAt, id);
      ReplayAccounts(front, chats, closeAt);
      var (active, calls) := Replay(front, chats, closeAt);
      var more := Handle(active, e, |log|, chats(|log|), closeAt).1;
      HandleAnnounces(active, e, |front|, chats(|log|), closeAt, id);
      HandleIds(active, Newest(calls), |front|, e, chats(|log|), closeAt, id);
      NoticesAppend(calls, more, JobKey(id, OpenJob));
      NoticesAppend(calls, more, JobKey(id, CloseJob));
    }
  }

  lemma {:induction false} NoticesOfPrefix(calls: seq<Call>, n: nat, key: JobKey)
    requires n <= |calls|
    ensures Notices(calls[..n], key) <= Notices(calls, key)
  {
    assert calls == calls[..n] + calls[n..];
    NoticesAppend(calls[..n], calls[n..], key);
  }

  /** In every interleaving a signal is sent at most one OPEN and at most one CLOSE message. */
  lemma OneOpenOneClose(log: seq<SpreadEvent>, chats: nat -> seq<int>, closeAt: real, workers: nat, steps: seq<Step>, id: nat)
    requires Execute(Init(workers, Replay(log, chats, closeAt).1), steps).Some?
    ensures var trace := Execute(Init(workers, Replay(log, chats, closeAt).1), steps).value.trace;
      Messages(trace, JobKey(id, OpenJob)) <= 1 && Messages(trace, JobKey(id, CloseJob)) <= 1
  {
    hide Replay;
    hide Execute;
    hide Init;
    hide GoodScript;
    hide Notices;
    hide Messages;
    var script := Replay(log, chats, closeAt).1;
    TrackerScriptIsGood(log, chats, closeAt);
    ReplayAnnouncesOnce(log, chats, closeAt, id);
    MessagesWithinNotices(workers, script, steps, JobKey(id, OpenJob));
    MessagesWithinNotices(workers, script, steps, JobKey(id, CloseJob));
    var s := Execute(Init(workers, script), steps).value;
    NoticesOfPrefix(script, s.at, JobKey(id, OpenJob));
    NoticesOfPrefix(script, s.at, JobKey(id, CloseJob));
  }
}
